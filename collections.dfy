/** The two collection operations the reducers are built from: pushing the
    records of a fetched batch that are not yet present (`includes` then
    `push`), and finding the first parent with a given `_id` and pushing a
    child reference onto its `children`. */
module Collections {
  import opened Entities

  /** No record occurs twice (the invariant "at most one entity per id",
      under the record equality `includes` uses). */
  predicate NoDuplicates<T(==)>(s: seq<T>)
  {
    forall i, j :: 0 <= i < j < |s| ==> s[i] != s[j]
  }

  /** `coll` after `items.forEach(item => { if (!coll.includes(item)) coll.push(item); })`.
      The old contents stay a prefix, and the records present afterwards are
      exactly those of `coll` and of `items`. */
  function Merge<T(==)>(coll: seq<T>, items: seq<T>): (r: seq<T>)
    ensures |coll| <= |r| <= |coll| + |items|
    ensures r[..|coll|] == coll
    ensures forall k :: 0 <= k < |r| ==> r[k] in coll || r[k] in items
    ensures forall k :: 0 <= k < |items| ==> items[k] in r
    decreases |items|
  {
    if items == [] then coll
    else
      var init, x := items[..|items| - 1], items[|items| - 1];
      assert items == init + [x];
      var m := Merge(coll, init);
      if x in m then m else m + [x]
  }

  /** The `forEach` loop itself, pushing onto a copy of the collection. */
  method MergeRecords<T(==)>(coll: seq<T>, items: seq<T>) returns (r: seq<T>)
    ensures r == Merge(coll, items)
  {
    r := coll;
    for i := 0 to |items|
      invariant r == Merge(coll, items[..i])
    {
      assert items[..i + 1][..i] == items[..i];
      if items[i] !in r {
        r := r + [items[i]];
      }
    }
    assert items[..|items|] == items;
  }

  /** Every record `Merge` pushes was one of `items` and was not yet a member
      of the collection at the moment it was pushed. */
  lemma {:induction false} MergePushesOnlyMissing<T>(coll: seq<T>, items: seq<T>)
    ensures forall k :: |coll| <= k < |Merge(coll, items)| ==>
      Merge(coll, items)[k] in items && Merge(coll, items)[k] !in Merge(coll, items)[..k]
    decreases |items|
  {
    if items != [] {
      var init, x := items[..|items| - 1], items[|items| - 1];
      assert items == init + [x];
      MergePushesOnlyMissing(coll, init);
      var m := Merge(coll, init);
      var r := Merge(coll, items);
      assert r == if x in m then m else m + [x];
      forall k | |coll| <= k < |r| ensures r[k] in items && r[k] !in r[..k] {
        if k < |m| {
          assert m[k] in init && m[k] !in m[..k];
          assert r[..k] == m[..k];
          assert r[k] == m[k];
        } else {
          assert x !in m && r == m + [x] && k == |m|;
          assert r[..k] == m;
        }
      }
    }
  }

  lemma MergeHolds<T>(coll: seq<T>, items: seq<T>, x: T)
    requires x in items
    ensures x in Merge(coll, items)
  {
    var k :| 0 <= k < |items| && items[k] == x;
  }

  /** Merging records that are all present already changes nothing. */
  lemma {:induction false} MergeOfPresent<T>(coll: seq<T>, items: seq<T>)
    requires forall x :: x in items ==> x in coll
    ensures Merge(coll, items) == coll
    decreases |items|
  {
    if items != [] {
      var init := items[..|items| - 1];
      assert forall x :: x in init ==> x in items;
      MergeOfPresent(coll, init);
    }
  }

  /** Merging the same records a second time leaves the collection as the first merge left it. */
  lemma MergeIdempotent<T>(coll: seq<T>, items: seq<T>)
    ensures Merge(Merge(coll, items), items) == Merge(coll, items)
  {
    MergeOfPresent(Merge(coll, items), items);
  }

  /** Merging `a` and then `b` is merging `a + b`: the batches of a fetch
      may be merged one after the other. */
  lemma {:induction false} MergeConcat<T>(coll: seq<T>, a: seq<T>, b: seq<T>)
    ensures Merge(Merge(coll, a), b) == Merge(coll, a + b)
    decreases |b|
  {
    if b == [] {
      assert a + b == a;
    } else {
      var init, y := b[..|b| - 1], b[|b| - 1];
      MergeConcat(coll, a, init);
      var ab := a + b;
      assert ab[..|ab| - 1] == a + init;
      MergeUnfold(coll, ab);
      MergeUnfold(Merge(coll, a), b);
    }
  }

  lemma MergeUnfold<T>(coll: seq<T>, items: seq<T>)
    requires items != []
    ensures var m := Merge(coll, items[..|items| - 1]);
      var x := items[|items| - 1];
      Merge(coll, items) == if x in m then m else m + [x]
  {
  }

  /** A collection without repeated records keeps that property under `Merge`. */
  lemma {:induction false} MergeKeepsNoDuplicates<T>(coll: seq<T>, items: seq<T>)
    requires NoDuplicates(coll)
    ensures NoDuplicates(Merge(coll, items))
    decreases |items|
  {
    if items != [] {
      var init := items[..|items| - 1];
      MergeKeepsNoDuplicates(coll, init);
    }
  }

  /** Two records with the same `_id` that differ in any other field are both
      kept: the membership test is on whole records, not on ids. */
  lemma MergeKeepsSameIdRecords()
    ensures var old1 := Entity("s1", "Eng", None, []);
            var new1 := Entity("s1", "Engineering", None, []);
            Merge([old1], [new1]) == [old1, new1]
  {
    var old1 := Entity("s1", "Eng", None, []);
    var new1 := Entity("s1", "Engineering", None, []);
    assert [new1][..0] == [];
    assert old1 != new1;
  }

  /** The index the reducers' `for (i = 0; i < parentData.length; i += 1)`
      loop stops at with `break`: the first entity whose `_id` is `id`. */
  function FirstIndex(coll: seq<Entity>, id: string): (r: Option<nat>)
    ensures r.Some? ==> r.value < |coll| && coll[r.value].id == id
    ensures r.Some? ==> forall j :: 0 <= j < r.value ==> coll[j].id != id
    ensures r.None? <==> forall j :: 0 <= j < |coll| ==> coll[j].id != id
  {
    if coll == [] then None
    else if coll[0].id == id then Some(0)
    else match FirstIndex(coll[1..], id)
      case None => None
      case Some(k) => Some(k + 1)
  }

  /** The scan of the attach reducers, run over `parentData`. */
  method IndexOfParent(parentData: seq<Entity>, parentId: string) returns (found: Option<nat>)
    ensures found == FirstIndex(parentData, parentId)
  {
    var i := 0;
    while i < |parentData|
      invariant 0 <= i <= |parentData|
      invariant forall j :: 0 <= j < i ==> parentData[j].id != parentId
    {
      if parentData[i].id == parentId {
        return Some(i);
      }
      i := i + 1;
    }
    return None;
  }

  /** `coll` after the scan: the first entity whose `_id` is `parentId` gets
      `ref` pushed onto its `children`; on a miss nothing changes. */
  function AttachChild(coll: seq<Entity>, parentId: string, ref: ChildRef): (r: seq<Entity>)
    ensures |r| == |coll|
    ensures (forall j :: 0 <= j < |coll| ==> coll[j].id != parentId) ==> r == coll
    ensures forall i :: 0 <= i < |coll| && coll[i].id == parentId && (forall j :: 0 <= j < i ==> coll[j].id != parentId) ==>
      r == coll[i := coll[i].(children := coll[i].children + [ref])]
  {
    match FirstIndex(coll, parentId)
    case None => coll
    case Some(i) => coll[i := coll[i].(children := coll[i].children + [ref])]
  }

  /** Whether some entity of `coll` has `_id` equal to `id`. */
  predicate HasId(coll: seq<Entity>, id: string)
  {
    exists j :: 0 <= j < |coll| && coll[j].id == id
  }

  /** The number of child references held by all entities of `coll`. */
  function ChildCount(coll: seq<Entity>): nat
  {
    if coll == [] then 0 else |coll[0].children| + ChildCount(coll[1..])
  }

  lemma {:induction false} ChildCountUpdate(coll: seq<Entity>, i: nat, e: Entity)
    requires i < |coll|
    ensures ChildCount(coll[i := e]) + |coll[i].children| == ChildCount(coll) + |e.children|
    decreases |coll|
  {
    if i > 0 {
      assert coll[i := e][1..] == coll[1..][i - 1 := e];
      ChildCountUpdate(coll[1..], i - 1, e);
    } else {
      assert coll[i := e][1..] == coll[1..];
    }
  }

  /** `AttachChild` adds exactly one child reference when a parent matches
      and none at all when none does. */
  lemma AttachChildAddsOne(coll: seq<Entity>, parentId: string, ref: ChildRef)
    ensures ChildCount(AttachChild(coll, parentId, ref)) == ChildCount(coll) + (if HasId(coll, parentId) then 1 else 0)
  {
    match FirstIndex(coll, parentId)
    case None =>
    case Some(i) =>
      ChildCountUpdate(coll, i, coll[i].(children := coll[i].children + [ref]));
  }
}
