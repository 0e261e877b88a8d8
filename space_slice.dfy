/** The space slice of the client store: four flat collections (spaces,
    folders, lists, tasks) and three scalars, changed only by the reducers
    below. `SliceState` is the value of the slice; the functions over it say
    what each reducer produces and `SpaceStore` performs the same changes in
    place. */
module SpaceSlice {
  import opened Entities
  import opened Collections
  import opened Thunks

  datatype SliceState = SliceState(
    spaceData: seq<Entity>,
    folderData: seq<Entity>,
    listData: seq<Entity>,
    taskData: seq<TaskRecord>,
    activeItem: string,
    activeItemName: string,
    error: string)

  /** `initialState`: every collection empty, every scalar blank. */
  const InitialState := SliceState([], [], [], [], "", "", "")

  // ---------------------------------------------------------------------
  // Bulk merge (`assignSpaceData`)

  function SpaceColumn(b: Batch): seq<Entity> { b.space }
  function FolderColumn(b: Batch): seq<Entity> { b.folder }
  function ListColumn(b: Batch): seq<Entity> { b.list }
  function TaskColumn(b: Batch): seq<TaskRecord> { b.task }

  /** One column of every batch, batch after batch. */
  function Flatten<T>(batches: seq<Batch>, column: Batch -> seq<T>): seq<T>
  {
    if batches == [] then [] else Flatten(batches[..|batches| - 1], column) + column(batches[|batches| - 1])
  }

  lemma {:induction false} FlattenHolds<T>(batches: seq<Batch>, column: Batch -> seq<T>, i: nat, j: nat)
    requires i < |batches| && j < |column(batches[i])|
    ensures column(batches[i])[j] in Flatten(batches, column)
    decreases |batches|
  {
    var init := batches[..|batches| - 1];
    if i < |batches| - 1 {
      assert batches[i] == init[i];
      FlattenHolds(init, column, i, j);
    }
  }

  lemma FlattenStep<T>(batches: seq<Batch>, column: Batch -> seq<T>, b: nat)
    requires b < |batches|
    ensures Flatten(batches[..b + 1], column) == Flatten(batches[..b], column) + column(batches[b])
  {
    assert batches[..b + 1][..b] == batches[..b];
  }

  /** The state `assignSpaceData` leaves: each collection merged with the
      matching column of every batch. */
  function Merged(s: SliceState, batches: seq<Batch>): SliceState
  {
    s.(spaceData := Merge(s.spaceData, Flatten(batches, SpaceColumn)),
       folderData := Merge(s.folderData, Flatten(batches, FolderColumn)),
       listData := Merge(s.listData, Flatten(batches, ListColumn)),
       taskData := Merge(s.taskData, Flatten(batches, TaskColumn)))
  }

  /** Merging the first `b + 1` batches is merging batch `b`, column by
      column, into the state the first `b` batches left. */
  lemma MergedStep(s: SliceState, batches: seq<Batch>, b: nat)
    requires b < |batches|
    ensures var m := Merged(s, batches[..b]);
      Merged(s, batches[..b + 1]) == m.(spaceData := Merge(m.spaceData, batches[b].space),
                                        folderData := Merge(m.folderData, batches[b].folder),
                                        listData := Merge(m.listData, batches[b].list),
                                        taskData := Merge(m.taskData, batches[b].task))
  {
    FlattenStep(batches, SpaceColumn, b);
    FlattenStep(batches, FolderColumn, b);
    FlattenStep(batches, ListColumn, b);
    FlattenStep(batches, TaskColumn, b);
    MergeConcat(s.spaceData, Flatten(batches[..b], SpaceColumn), batches[b].space);
    MergeConcat(s.folderData, Flatten(batches[..b], FolderColumn), batches[b].folder);
    MergeConcat(s.listData, Flatten(batches[..b], ListColumn), batches[b].list);
    MergeConcat(s.taskData, Flatten(batches[..b], TaskColumn), batches[b].task);
  }

  /** `assignSpaceData` only appends: each old collection is a prefix of the
      new one, every appended record is from the batches and was not yet a
      member when it was pushed, and the scalars are untouched. */
  lemma MergedOnlyAppends(s: SliceState, batches: seq<Batch>)
    ensures var r := Merged(s, batches);
      && r.spaceData[..|s.spaceData|] == s.spaceData
      && r.folderData[..|s.folderData|] == s.folderData
      && r.listData[..|s.listData|] == s.listData
      && r.taskData[..|s.taskData|] == s.taskData
      && (forall k :: |s.spaceData| <= k < |r.spaceData| ==>
           r.spaceData[k] in Flatten(batches, SpaceColumn) && r.spaceData[k] !in r.spaceData[..k])
      && (forall k :: |s.folderData| <= k < |r.folderData| ==>
           r.folderData[k] in Flatten(batches, FolderColumn) && r.folderData[k] !in r.folderData[..k])
      && (forall k :: |s.listData| <= k < |r.listData| ==>
           r.listData[k] in Flatten(batches, ListColumn) && r.listData[k] !in r.listData[..k])
      && (forall k :: |s.taskData| <= k < |r.taskData| ==>
           r.taskData[k] in Flatten(batches, TaskColumn) && r.taskData[k] !in r.taskData[..k])
      && r.activeItem == s.activeItem && r.activeItemName == s.activeItemName && r.error == s.error
  {
    MergePushesOnlyMissing(s.spaceData, Flatten(batches, SpaceColumn));
    MergePushesOnlyMissing(s.folderData, Flatten(batches, FolderColumn));
    MergePushesOnlyMissing(s.listData, Flatten(batches, ListColumn));
    MergePushesOnlyMissing(s.taskData, Flatten(batches, TaskColumn));
  }

  /** After `assignSpaceData` every record of every batch is in its collection. */
  lemma MergedHoldsEveryRecord(s: SliceState, batches: seq<Batch>)
    ensures var r := Merged(s, batches);
      forall i :: 0 <= i < |batches| ==>
        && (forall j :: 0 <= j < |batches[i].space| ==> batches[i].space[j] in r.spaceData)
        && (forall j :: 0 <= j < |batches[i].folder| ==> batches[i].folder[j] in r.folderData)
        && (forall j :: 0 <= j < |batches[i].list| ==> batches[i].list[j] in r.listData)
        && (forall j :: 0 <= j < |batches[i].task| ==> batches[i].task[j] in r.taskData)
  {
    forall i, j | 0 <= i < |batches| && 0 <= j < |batches[i].space|
      ensures batches[i].space[j] in Merged(s, batches).spaceData
    {
      FlattenHolds(batches, SpaceColumn, i, j);
      MergeHolds(s.spaceData, Flatten(batches, SpaceColumn), batches[i].space[j]);
    }
    forall i, j | 0 <= i < |batches| && 0 <= j < |batches[i].folder|
      ensures batches[i].folder[j] in Merged(s, batches).folderData
    {
      FlattenHolds(batches, FolderColumn, i, j);
      MergeHolds(s.folderData, Flatten(batches, FolderColumn), batches[i].folder[j]);
    }
    forall i, j | 0 <= i < |batches| && 0 <= j < |batches[i].list|
      ensures batches[i].list[j] in Merged(s, batches).listData
    {
      FlattenHolds(batches, ListColumn, i, j);
      MergeHolds(s.listData, Flatten(batches, ListColumn), batches[i].list[j]);
    }
    forall i, j | 0 <= i < |batches| && 0 <= j < |batches[i].task|
      ensures batches[i].task[j] in Merged(s, batches).taskData
    {
      FlattenHolds(batches, TaskColumn, i, j);
      MergeHolds(s.taskData, Flatten(batches, TaskColumn), batches[i].task[j]);
    }
  }

  /** Merging the same batches twice leaves the state the first merge left. */
  lemma MergedIdempotent(s: SliceState, batches: seq<Batch>)
    ensures Merged(Merged(s, batches), batches) == Merged(s, batches)
  {
    MergeIdempotent(s.spaceData, Flatten(batches, SpaceColumn));
    MergeIdempotent(s.folderData, Flatten(batches, FolderColumn));
    MergeIdempotent(s.listData, Flatten(batches, ListColumn));
    MergeIdempotent(s.taskData, Flatten(batches, TaskColumn));
  }

  /** Collections free of repeated records stay so under `assignSpaceData`. */
  lemma MergedKeepsNoDuplicates(s: SliceState, batches: seq<Batch>)
    requires NoDuplicates(s.spaceData) && NoDuplicates(s.folderData)
    requires NoDuplicates(s.listData) && NoDuplicates(s.taskData)
    ensures var r := Merged(s, batches);
      NoDuplicates(r.spaceData) && NoDuplicates(r.folderData) && NoDuplicates(r.listData) && NoDuplicates(r.taskData)
  {
    MergeKeepsNoDuplicates(s.spaceData, Flatten(batches, SpaceColumn));
    MergeKeepsNoDuplicates(s.folderData, Flatten(batches, FolderColumn));
    MergeKeepsNoDuplicates(s.listData, Flatten(batches, ListColumn));
    MergeKeepsNoDuplicates(s.taskData, Flatten(batches, TaskColumn));
  }

  // ---------------------------------------------------------------------
  // Attachment (`attachNewSpace`, `attachNewFolder`, `attachNewList`, `attachNewTask`)

  /** What the folder and list reducers need of their record to run to the
      end: a `parent` whose lower-cased `parentType` is `space`, `folder` or
      `list` (otherwise `parentData` stays undefined and the scan throws). */
  predicate Attachable(e: Entity)
  {
    e.parent.Some? && ParentKindOf(e.parent.value.parentType).Some?
  }

  /** `parentData`: the collection a parent kind selects. */
  function ParentCollection(s: SliceState, kind: ParentKind): seq<Entity>
  {
    match kind
    case SpaceParent => s.spaceData
    case FolderParent => s.folderData
    case ListParent => s.listData
  }

  /** The scan-and-push over the selected collection. */
  function ParentAttached(s: SliceState, kind: ParentKind, parentId: string, ref: ChildRef): SliceState
  {
    match kind
    case SpaceParent => s.(spaceData := AttachChild(s.spaceData, parentId, ref))
    case FolderParent => s.(folderData := AttachChild(s.folderData, parentId, ref))
    case ListParent => s.(listData := AttachChild(s.listData, parentId, ref))
  }

  function SpaceAttached(s: SliceState, space: Entity): SliceState
  {
    s.(spaceData := s.spaceData + [space])
  }

  function FolderAttached(s: SliceState, folder: Entity): SliceState
    requires Attachable(folder)
  {
    var p := folder.parent.value;
    ParentAttached(s.(folderData := s.folderData + [folder]), ParentKindOf(p.parentType).value, p.parentId, RefTo(FOLDER, folder.id))
  }

  function ListAttached(s: SliceState, list: Entity): SliceState
    requires Attachable(list)
  {
    var p := list.parent.value;
    ParentAttached(s.(listData := s.listData + [list]), ParentKindOf(p.parentType).value, p.parentId, RefTo(LIST, list.id))
  }

  /** A task's parent is always looked up among the lists. */
  function TaskAttached(s: SliceState, task: TaskRecord): SliceState
  {
    ParentAttached(s.(taskData := s.taskData + [task]), ListParent, task.parent.parentId, RefTo(TASK, task.id))
  }

  /** Child references held by all spaces, folders and lists. */
  function ChildRefs(s: SliceState): nat
  {
    ChildCount(s.spaceData) + ChildCount(s.folderData) + ChildCount(s.listData)
  }

  /** The scan touches only the selected collection, keeps its length and
      every entity's `_id`, and adds exactly one child reference in all when
      some entity there has `_id == parentId`, none otherwise. */
  lemma ParentAttachedAddsOne(s: SliceState, kind: ParentKind, parentId: string, ref: ChildRef)
    ensures var r := ParentAttached(s, kind, parentId, ref);
      && r.taskData == s.taskData
      && r.activeItem == s.activeItem && r.activeItemName == s.activeItemName && r.error == s.error
      && (kind != SpaceParent ==> r.spaceData == s.spaceData)
      && (kind != FolderParent ==> r.folderData == s.folderData)
      && (kind != ListParent ==> r.listData == s.listData)
      && |ParentCollection(r, kind)| == |ParentCollection(s, kind)|
      && ChildRefs(r) == ChildRefs(s) + (if HasId(ParentCollection(s, kind), parentId) then 1 else 0)
  {
    AttachChildAddsOne(ParentCollection(s, kind), parentId, ref);
  }

  /** When a parent matches, exactly the first entity with `_id == parentId`
      in the selected collection gets `ref` appended to its children; every
      other entity is unchanged. */
  lemma ParentAttachedHit(s: SliceState, kind: ParentKind, parentId: string, ref: ChildRef, i: nat)
    requires i < |ParentCollection(s, kind)|
    requires ParentCollection(s, kind)[i].id == parentId
    requires forall j :: 0 <= j < i ==> ParentCollection(s, kind)[j].id != parentId
    ensures var before := ParentCollection(s, kind);
      var after := ParentCollection(ParentAttached(s, kind, parentId, ref), kind);
      && |after| == |before|
      && after[i] == before[i].(children := before[i].children + [ref])
      && forall k :: 0 <= k < |before| && k != i ==> after[k] == before[k]
  {
  }

  /** When no entity of the selected collection has `_id == parentId` the
      scan changes nothing and raises nothing. */
  lemma ParentAttachedMiss(s: SliceState, kind: ParentKind, parentId: string, ref: ChildRef)
    requires !HasId(ParentCollection(s, kind), parentId)
    ensures ParentAttached(s, kind, parentId, ref) == s
  {
  }

  lemma {:induction false} ChildCountAppend(coll: seq<Entity>, e: Entity)
    ensures ChildCount(coll + [e]) == ChildCount(coll) + |e.children|
    decreases |coll|
  {
    if coll != [] {
      assert (coll + [e])[1..] == coll[1..] + [e];
      ChildCountAppend(coll[1..], e);
    }
  }

  /** `attachNewSpace`: the payload space becomes the last element of
      `spaceData`, which grows by one; nothing else changes. */
  lemma SpaceAttachedAppends(s: SliceState, space: Entity)
    ensures var r := SpaceAttached(s, space);
      && |r.spaceData| == |s.spaceData| + 1
      && r.spaceData[|s.spaceData|] == space
      && r.spaceData[..|s.spaceData|] == s.spaceData
      && r == s.(spaceData := r.spaceData)
  {
  }

  /** `attachNewFolder`: `folderData` grows by the folder, the other
      collections and scalars keep their sizes and values except for the
      single child reference the parent scan adds when it finds a parent
      (the new folder itself included, when it names itself as parent). */
  lemma FolderAttachedEffect(s: SliceState, folder: Entity)
    requires Attachable(folder)
    ensures var r := FolderAttached(s, folder);
      var kind := ParentKindOf(folder.parent.value.parentType).value;
      var withFolder := s.(folderData := s.folderData + [folder]);
      && |r.folderData| == |s.folderData| + 1
      && r.folderData[|s.folderData|].id == folder.id
      && r.taskData == s.taskData
      && r.activeItem == s.activeItem && r.activeItemName == s.activeItemName && r.error == s.error
      && (kind != SpaceParent ==> r.spaceData == s.spaceData)
      && (kind != ListParent ==> r.listData == s.listData)
      && (kind != FolderParent ==> r.folderData == s.folderData + [folder])
      && ChildRefs(r) == ChildRefs(s) + |folder.children|
           + (if HasId(ParentCollection(withFolder, kind), folder.parent.value.parentId) then 1 else 0)
  {
    var kind := ParentKindOf(folder.parent.value.parentType).value;
    var withFolder := s.(folderData := s.folderData + [folder]);
    ChildCountAppend(s.folderData, folder);
    ParentAttachedAddsOne(withFolder, kind, folder.parent.value.parentId, RefTo(FOLDER, folder.id));
    assert withFolder.folderData[|s.folderData|] == folder;
  }

  /** The collection `kind` selects replaced by `c`. */
  function WithParentCollection(s: SliceState, kind: ParentKind, c: seq<Entity>): SliceState
  {
    match kind
    case SpaceParent => s.(spaceData := c)
    case FolderParent => s.(folderData := c)
    case ListParent => s.(listData := c)
  }

  /** `attachNewFolder`, entity by entity. After the folder is pushed, the
      first entity `i` of the selected collection whose `_id` is the
      folder's `parentId` gains one `{FOLDER, id, _id}` reference and the
      whole state is otherwise as it was; when no entity has that `_id`, the
      push of the folder is the only change. */
  lemma FolderAttachedFirstParent(s: SliceState, folder: Entity, i: nat)
    requires Attachable(folder)
    ensures var p := folder.parent.value;
      var kind := ParentKindOf(p.parentType).value;
      var withFolder := s.(folderData := s.folderData + [folder]);
      var coll := ParentCollection(withFolder, kind);
      && (i < |coll| && coll[i].id == p.parentId && (forall j :: 0 <= j < i ==> coll[j].id != p.parentId) ==>
            FolderAttached(s, folder) ==
            WithParentCollection(withFolder, kind, coll[i := coll[i].(children := coll[i].children + [ChildRef(FOLDER, folder.id, folder.id)])]))
      && (!HasId(coll, p.parentId) ==> FolderAttached(s, folder) == withFolder)
  {
    var p := folder.parent.value;
    var kind := ParentKindOf(p.parentType).value;
    var withFolder := s.(folderData := s.folderData + [folder]);
    if !HasId(ParentCollection(withFolder, kind), p.parentId) {
      ParentAttachedMiss(withFolder, kind, p.parentId, RefTo(FOLDER, folder.id));
    }
  }

  /** `attachNewList`, entity by entity: as `FolderAttachedFirstParent`,
      with a `{LIST, id, _id}` reference after the list is pushed. */
  lemma ListAttachedFirstParent(s: SliceState, list: Entity, i: nat)
    requires Attachable(list)
    ensures var p := list.parent.value;
      var kind := ParentKindOf(p.parentType).value;
      var withList := s.(listData := s.listData + [list]);
      var coll := ParentCollection(withList, kind);
      && (i < |coll| && coll[i].id == p.parentId && (forall j :: 0 <= j < i ==> coll[j].id != p.parentId) ==>
            ListAttached(s, list) ==
            WithParentCollection(withList, kind, coll[i := coll[i].(children := coll[i].children + [ChildRef(LIST, list.id, list.id)])]))
      && (!HasId(coll, p.parentId) ==> ListAttached(s, list) == withList)
  {
    var p := list.parent.value;
    var kind := ParentKindOf(p.parentType).value;
    var withList := s.(listData := s.listData + [list]);
    if !HasId(ParentCollection(withList, kind), p.parentId) {
      ParentAttachedMiss(withList, kind, p.parentId, RefTo(LIST, list.id));
    }
  }

  /** `attachNewList`: as `attachNewFolder`, on `listData` with a `LIST` reference. */
  lemma ListAttachedEffect(s: SliceState, list: Entity)
    requires Attachable(list)
    ensures var r := ListAttached(s, list);
      var kind := ParentKindOf(list.parent.value.parentType).value;
      var withList := s.(listData := s.listData + [list]);
      && |r.listData| == |s.listData| + 1
      && r.listData[|s.listData|].id == list.id
      && r.taskData == s.taskData
      && r.activeItem == s.activeItem && r.activeItemName == s.activeItemName && r.error == s.error
      && (kind != SpaceParent ==> r.spaceData == s.spaceData)
      && (kind != FolderParent ==> r.folderData == s.folderData)
      && (kind != ListParent ==> r.listData == s.listData + [list])
      && ChildRefs(r) == ChildRefs(s) + |list.children|
           + (if HasId(ParentCollection(withList, kind), list.parent.value.parentId) then 1 else 0)
  {
    var kind := ParentKindOf(list.parent.value.parentType).value;
    var withList := s.(listData := s.listData + [list]);
    ChildCountAppend(s.listData, list);
    ParentAttachedAddsOne(withList, kind, list.parent.value.parentId, RefTo(LIST, list.id));
    assert withList.listData[|s.listData|] == list;
  }

  /** `attachNewTask`: the task is appended to `taskData`; the parent is
      searched in `listData` whatever `parentType` the task declares, and the
      spaces, folders and scalars are untouched. */
  lemma TaskAttachedEffect(s: SliceState, task: TaskRecord, otherType: string)
    ensures var r := TaskAttached(s, task);
      && r.taskData == s.taskData + [task]
      && r.spaceData == s.spaceData && r.folderData == s.folderData
      && r.activeItem == s.activeItem && r.activeItemName == s.activeItemName && r.error == s.error
      && r.listData == AttachChild(s.listData, task.parent.parentId, RefTo(TASK, task.id))
      && ChildRefs(r) == ChildRefs(s) + (if HasId(s.listData, task.parent.parentId) then 1 else 0)
      && r.listData == TaskAttached(s, task.(parent := task.parent.(parentType := otherType))).listData
  {
    ParentAttachedAddsOne(s.(taskData := s.taskData + [task]), ListParent, task.parent.parentId, RefTo(TASK, task.id));
  }

  // ---------------------------------------------------------------------
  // The `extraReducers` table: each thunk's fulfilled action goes to its
  // attach or merge reducer, each rejected action to `setError`.

  function ErrorSet(s: SliceState, message: string): SliceState
  {
    s.(error := message)
  }

  function AfterFetch(s: SliceState, attempt: Attempt<seq<Batch>>, sanitize: TaskRecord -> TaskRecord): SliceState
  {
    match SettleFetch(attempt, sanitize)
    case Rejected(e) => ErrorSet(s, e)
    case Fulfilled(batches) => Merged(s, batches)
  }

  function AfterCreateSpace(s: SliceState, attempt: Attempt<Response<Entity>>): SliceState
  {
    match SettleCreate(attempt)
    case Rejected(e) => ErrorSet(s, e)
    case Fulfilled(data) => SpaceAttached(s, data.payload)
  }

  /** A fulfilled folder or list creation carries a record the attach reducer can handle. */
  predicate CreatedAttachable(attempt: Attempt<Response<Entity>>)
  {
    attempt.Returned? && attempt.value.success != Some(false) ==> Attachable(attempt.value.payload)
  }

  function AfterCreateFolder(s: SliceState, attempt: Attempt<Response<Entity>>): SliceState
    requires CreatedAttachable(attempt)
  {
    match SettleCreate(attempt)
    case Rejected(e) => ErrorSet(s, e)
    case Fulfilled(data) => FolderAttached(s, data.payload)
  }

  function AfterCreateList(s: SliceState, attempt: Attempt<Response<Entity>>): SliceState
    requires CreatedAttachable(attempt)
  {
    match SettleCreate(attempt)
    case Rejected(e) => ErrorSet(s, e)
    case Fulfilled(data) => ListAttached(s, data.payload)
  }

  function AfterCreateTask(s: SliceState, attempt: Attempt<Response<TaskRecord>>, sanitize: TaskRecord -> TaskRecord): SliceState
  {
    match SettleCreateTask(attempt, sanitize)
    case Rejected(e) => ErrorSet(s, e)
    case Fulfilled(data) => TaskAttached(s, data.payload)
  }

  /** A failed creation only sets `error`: to `data.error` when the response
      says `success: false`, to the exception's message when the request
      throws. */
  lemma CreateFailureOnlySetsError(s: SliceState, attempt: Attempt<Response<Entity>>)
    requires attempt.Threw? || attempt.value.success == Some(false)
    ensures var e := if attempt.Threw? then attempt.message else attempt.value.error;
      && AfterCreateSpace(s, attempt) == s.(error := e)
      && AfterCreateFolder(s, attempt) == s.(error := e)
      && AfterCreateList(s, attempt) == s.(error := e)
  {
  }

  /** The created task is stored in its sanitized form, with a `TASK`
      reference to it in the first list whose `_id` is its `parentId`. */
  lemma CreatedTaskIsSanitized(s: SliceState, attempt: Attempt<Response<TaskRecord>>, sanitize: TaskRecord -> TaskRecord)
    requires attempt.Returned? && attempt.value.success != Some(false)
    ensures var stored := sanitize(attempt.value.payload);
      var r := AfterCreateTask(s, attempt, sanitize);
      && r.taskData == s.taskData + [stored]
      && r.listData == AttachChild(s.listData, stored.parent.parentId, RefTo(TASK, stored.id))
      && r.error == s.error
  {
  }

  /** Two failures in a row leave only the second message in `error`, and
      nothing else changed. */
  lemma SecondFailureWins(s: SliceState, first: Attempt<Response<Entity>>, second: Attempt<seq<Batch>>, sanitize: TaskRecord -> TaskRecord)
    requires first.Threw? || first.value.success == Some(false)
    requires second.Threw?
    ensures AfterFetch(AfterCreateSpace(s, first), second, sanitize) == s.(error := second.message)
  {
  }

  /** Every task a successful fetch adds is the sanitized form of a fetched task. */
  lemma FetchedTasksAreSanitized(s: SliceState, attempt: Attempt<seq<Batch>>, sanitize: TaskRecord -> TaskRecord)
    requires attempt.Returned?
    ensures var r := AfterFetch(s, attempt, sanitize);
      forall k :: |s.taskData| <= k < |r.taskData| ==>
        exists i, j :: 0 <= i < |attempt.value| && 0 <= j < |attempt.value[i].task| && r.taskData[k] == sanitize(attempt.value[i].task[j])
  {
    var batches := SettleFetch(attempt, sanitize).value;
    var all := Flatten(batches, TaskColumn);
    MergePushesOnlyMissing(s.taskData, all);
    forall t | t in all
      ensures exists i, j :: 0 <= i < |attempt.value| && 0 <= j < |attempt.value[i].task| && t == sanitize(attempt.value[i].task[j])
    {
      FlattenSource(batches, TaskColumn, t);
    }
  }

  lemma {:induction false} FlattenSource<T>(batches: seq<Batch>, column: Batch -> seq<T>, x: T)
    requires x in Flatten(batches, column)
    ensures exists i, j :: 0 <= i < |batches| && 0 <= j < |column(batches[i])| && x == column(batches[i])[j]
    decreases |batches|
  {
    var init, last := batches[..|batches| - 1], batches[|batches| - 1];
    if x in Flatten(init, column) {
      FlattenSource(init, column, x);
      var i, j :| 0 <= i < |init| && 0 <= j < |column(init[i])| && x == column(init[i])[j];
      assert batches[i] == init[i];
    } else {
      var j :| 0 <= j < |column(last)| && x == column(last)[j];
    }
  }

  // ---------------------------------------------------------------------
  // The store

  /** The slice state, updated in place by its reducers. */
  class SpaceStore {
    var spaceData: seq<Entity>
    var folderData: seq<Entity>
    var listData: seq<Entity>
    var taskData: seq<TaskRecord>
    var activeItem: string
    var activeItemName: string
    var error: string

    function Snapshot(): SliceState
      reads this
    {
      SliceState(spaceData, folderData, listData, taskData, activeItem, activeItemName, error)
    }

    constructor ()
      ensures Snapshot() == InitialState
    {
      spaceData, folderData, listData, taskData := [], [], [], [];
      activeItem, activeItemName, error := "", "", "";
    }

    /** `assignSpaceData`: for each batch, in order, push each of its spaces,
        folders, lists and tasks that the matching collection does not
        include yet. */
    method AssignSpaceData(batches: seq<Batch>)
      modifies this
      ensures Snapshot() == Merged(old(Snapshot()), batches)
    {
      for b := 0 to |batches|
        invariant Snapshot() == Merged(old(Snapshot()), batches[..b])
      {
        MergedStep(old(Snapshot()), batches, b);
        var batch := batches[b];
        spaceData := MergeRecords(spaceData, batch.space);
        folderData := MergeRecords(folderData, batch.folder);
        listData := MergeRecords(listData, batch.list);
        taskData := MergeRecords(taskData, batch.task);
      }
      assert batches[..|batches|] == batches;
    }

    /** `setActiveItem`: sets `activeItem`; `activeItemName` keeps its value. */
    method SetActiveItem(id: string)
      modifies this
      ensures Snapshot() == old(Snapshot()).(activeItem := id)
    {
      activeItem := id;
    }

    /** `attachNewSpace`. */
    method AttachNewSpace(space: Entity)
      modifies this
      ensures Snapshot() == SpaceAttached(old(Snapshot()), space)
    {
      spaceData := spaceData + [space];
    }

    /** Scan the collection `kind` selects for the first entity with
        `_id == parentId` and push `ref` onto its children. */
    method AttachToParent(kind: ParentKind, parentId: string, ref: ChildRef)
      modifies this
      ensures Snapshot() == ParentAttached(old(Snapshot()), kind, parentId, ref)
    {
      var parentData := ParentCollection(Snapshot(), kind);
      var found := IndexOfParent(parentData, parentId);
      if found.Some? {
        var i := found.value;
        var updated := parentData[i := parentData[i].(children := parentData[i].children + [ref])];
        match kind
        case SpaceParent => spaceData := updated;
        case FolderParent => folderData := updated;
        case ListParent => listData := updated;
      }
    }

    /** `attachNewFolder`: push the folder, then attach a `FOLDER` reference
        to its parent. */
    method AttachNewFolder(folder: Entity)
      requires Attachable(folder)
      modifies this
      ensures Snapshot() == FolderAttached(old(Snapshot()), folder)
    {
      folderData := folderData + [folder];
      var parentId := folder.parent.value.parentId;
      var kind := ParentKindOf(folder.parent.value.parentType).value;
      AttachToParent(kind, parentId, RefTo(FOLDER, folder.id));
    }

    /** `attachNewList`: push the list, then attach a `LIST` reference to its parent. */
    method AttachNewList(list: Entity)
      requires Attachable(list)
      modifies this
      ensures Snapshot() == ListAttached(old(Snapshot()), list)
    {
      listData := listData + [list];
      var parentId := list.parent.value.parentId;
      var kind := ParentKindOf(list.parent.value.parentType).value;
      AttachToParent(kind, parentId, RefTo(LIST, list.id));
    }

    /** `attachNewTask`: push the task, then attach a `TASK` reference to
        the first list with its `parentId`. */
    method AttachNewTask(task: TaskRecord)
      modifies this
      ensures Snapshot() == TaskAttached(old(Snapshot()), task)
    {
      taskData := taskData + [task];
      AttachToParent(ListParent, task.parent.parentId, RefTo(TASK, task.id));
    }

    /** `setError`: overwrite `error`. */
    method SetError(message: string)
      modifies this
      ensures Snapshot() == ErrorSet(old(Snapshot()), message)
    {
      error := message;
    }

    /** `resetSliceToDefault`: back to `initialState`. */
    method ResetSliceToDefault()
      modifies this
      ensures Snapshot() == InitialState
    {
      spaceData, folderData, listData, taskData := [], [], [], [];
      activeItem, activeItemName, error := "", "", "";
    }

    /** `getSpaceDataAsync` settling, then its `fulfilled` or `rejected` reducer. */
    method GetSpaceData(attempt: Attempt<seq<Batch>>, sanitize: TaskRecord -> TaskRecord)
      modifies this
      ensures Snapshot() == AfterFetch(old(Snapshot()), attempt, sanitize)
    {
      match SettleFetch(attempt, sanitize)
      case Rejected(e) => SetError(e);
      case Fulfilled(batches) => AssignSpaceData(batches);
    }

    /** `createSpaceAsync` settling, then its reducer. */
    method CreateSpace(attempt: Attempt<Response<Entity>>)
      modifies this
      ensures Snapshot() == AfterCreateSpace(old(Snapshot()), attempt)
    {
      match SettleCreate(attempt)
      case Rejected(e) => SetError(e);
      case Fulfilled(data) => AttachNewSpace(data.payload);
    }

    /** `createFolderAsync` settling, then its reducer. */
    method CreateFolder(attempt: Attempt<Response<Entity>>)
      requires CreatedAttachable(attempt)
      modifies this
      ensures Snapshot() == AfterCreateFolder(old(Snapshot()), attempt)
    {
      match SettleCreate(attempt)
      case Rejected(e) => SetError(e);
      case Fulfilled(data) => AttachNewFolder(data.payload);
    }

    /** `createListAsync` settling, then its reducer. */
    method CreateList(attempt: Attempt<Response<Entity>>)
      requires CreatedAttachable(attempt)
      modifies this
      ensures Snapshot() == AfterCreateList(old(Snapshot()), attempt)
    {
      match SettleCreate(attempt)
      case Rejected(e) => SetError(e);
      case Fulfilled(data) => AttachNewList(data.payload);
    }

    /** `createTaskAsync` settling, then its reducer. */
    method CreateTask(attempt: Attempt<Response<TaskRecord>>, sanitize: TaskRecord -> TaskRecord)
      modifies this
      ensures Snapshot() == AfterCreateTask(old(Snapshot()), attempt, sanitize)
    {
      match SettleCreateTask(attempt, sanitize)
      case Rejected(e) => SetError(e);
      case Fulfilled(data) => AttachNewTask(data.payload);
    }
  }
}
