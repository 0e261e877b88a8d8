/** The records the workspace store holds: spaces, folders, lists and tasks,
    linked by parent references and child-reference lists. */
module Entities {

  datatype Option<+T> = None | Some(value: T)

  /** The `childType` strings a parent's `children` entries carry. */
  datatype ChildType = FOLDER | LIST | TASK

  /** One entry of a parent's `children` array: `{childType, id, _id}`.
      The reducers set both `id` and `_id` (here `objectId`) to the child's `_id`. */
  datatype ChildRef = ChildRef(childType: ChildType, id: string, objectId: string)

  /** The `parent` object of a folder, list or task: `{parentId, parentType}`. */
  datatype ParentRef = ParentRef(parentId: string, parentType: string)

  /** A space, folder or list record: `_id`, name, its `parent` (absent on a
      space) and its `children` references. Space metadata (colours, icons,
      statuses, views) is opaque to the store and left out. */
  datatype Entity = Entity(id: string, name: string, parent: Option<ParentRef>, children: seq<ChildRef>)

  /** A task record; `priority` and `status` hold what the sanitizer resolved. */
  datatype TaskRecord = TaskRecord(id: string, name: string, parent: ParentRef, priority: string, status: string)

  /** What fetching everything under one space returns: `{space, folder, list, task}`. */
  datatype Batch = Batch(space: seq<Entity>, folder: seq<Entity>, list: seq<Entity>, task: seq<TaskRecord>)

  /** The reference a reducer pushes for a new child with id `id`. */
  function RefTo(childType: ChildType, id: string): (r: ChildRef)
    ensures r.childType == childType && r.id == id && r.objectId == id
  {
    ChildRef(childType, id, id)
  }

  function LowerChar(c: char): char
  {
    if 'A' <= c <= 'Z' then (c as int + 32) as char else c
  }

  /** `String.prototype.toLowerCase`, on the ASCII letters. */
  function Lower(s: string): (r: string)
    ensures |r| == |s|
    ensures forall i :: 0 <= i < |s| ==> r[i] == LowerChar(s[i])
  {
    if s == [] then [] else [LowerChar(s[0])] + Lower(s[1..])
  }

  /** Which collection a `parentType` names once lower-cased. */
  datatype ParentKind = SpaceParent | FolderParent | ListParent

  /** The `if / else if` chain of the folder and list reducers: `None` is the
      case where `parentData` stays undefined. */
  function ParentKindOf(parentType: string): (k: Option<ParentKind>)
    ensures k == Some(SpaceParent) <==> Lower(parentType) == "space"
    ensures k == Some(FolderParent) <==> Lower(parentType) == "folder"
    ensures k == Some(ListParent) <==> Lower(parentType) == "list"
  {
    var t := Lower(parentType);
    if t == "space" then Some(SpaceParent)
    else if t == "folder" then Some(FolderParent)
    else if t == "list" then Some(ListParent)
    else None
  }

  lemma {:induction false} LowerIdempotent(s: string)
    ensures Lower(Lower(s)) == Lower(s)
  {
    var l := Lower(s);
    assert |Lower(l)| == |l|;
    forall i | 0 <= i < |l| ensures Lower(l)[i] == l[i] {
      assert l[i] == LowerChar(s[i]);
    }
  }

  /** Lower-casing the parent type first never changes which collection is chosen. */
  lemma ParentKindIgnoresCase(parentType: string)
    ensures ParentKindOf(Lower(parentType)) == ParentKindOf(parentType)
  {
    LowerIdempotent(parentType);
  }

  /** The server's upper-case `SPACE`, `FOLDER` and `LIST` select the
      space, folder and list collections. */
  lemma ParentKindOfServerTypes()
    ensures ParentKindOf("SPACE") == Some(SpaceParent)
    ensures ParentKindOf("FOLDER") == Some(FolderParent)
    ensures ParentKindOf("LIST") == Some(ListParent)
  {
    LowerOfUpper("SPACE", "space");
    LowerOfUpper("FOLDER", "folder");
    LowerOfUpper("LIST", "list");
  }

  lemma LowerOfUpper(upper: string, lower: string)
    requires |upper| == |lower|
    requires forall i :: 0 <= i < |upper| ==> 'A' <= upper[i] <= 'Z' && lower[i] as int == upper[i] as int + 32
    ensures Lower(upper) == lower
  {
    var l := Lower(upper);
    assert forall i :: 0 <= i < |upper| ==> l[i] == lower[i];
  }
}
