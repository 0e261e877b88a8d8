# Space slice of the ClickUp-clone client store, in Dafny

This project models the normalized workspace store of the ClickUp-clone
client, `client/redux/slices/spaceSlice.js`. The store is a Redux slice with
four flat collections and three scalars:

- the collections are `spaceData`, `folderData`, `listData` and `taskData`;
- the scalars are `activeItem`, `activeItemName` and `error`.

Parent and child references link the records of the collections:

- each folder, list and task has a `parent` object, `{parentId, parentType}`;
- each space, folder and list has a `children` array of `{childType, id, _id}` entries.

The model has four modules:

- `Entities` (`entities.dfy`) holds the records: `Entity` for spaces, folders
  and lists, `TaskRecord` for tasks, `ChildRef`, `ParentRef` and the fetched
  `Batch`. It also holds the lower-casing of `parentType` and the
  `if / else if` chain that picks the parent collection (`ParentKindOf`).
- `Collections` (`collections.dfy`) holds the two collection operations the
  reducers are built from:
  - `Merge`, with the loop `MergeRecords`, is the `forEach` that pushes each
    item the collection does not `include` yet.
  - `FirstIndex`, with the loop `IndexOfParent` and the update `AttachChild`,
    is the `for` loop that stops with `break` at the first entity whose `_id`
    is `parentId` and pushes a child reference onto that entity's `children`.
- `Thunks` (`thunks.dfy`) says how each asynchronous thunk settles, given
  what its network request produced:
  - `data.success === false` is rejected with `data.error`;
  - a thrown exception is rejected with its message;
  - anything else is fulfilled;
  - a created task is sanitized and re-wrapped as `{success: true, task}`.
- `SpaceSlice` (`space_slice.dfy`) holds the rest:
  - `SliceState` is the value of the slice and `InitialState` is `initialState`.
  - One function per reducer gives the state that reducer produces.
  - One function per thunk gives the `extraReducers` dispatch: a fulfilled
    action goes to its merge or attach reducer, a rejected one to `setError`.
  - The class `SpaceStore` holds the seven fields and changes them in place.
    It has one method per reducer and one per thunk. Each method is proved to
    leave `Snapshot()` equal to the matching function of the old state.

The lemmas about those functions state what the reducers promise:

- which collection grows and by what;
- that exactly one parent gains exactly one child reference, or none does;
- that nothing else changes;
- that merging is append-only and idempotent;
- which message ends up in `error`.

Deduplicating by `_id` would keep ids unique. The code tests `includes` on
whole records, and so does `Merge` (see `Collections.MergeKeepsSameIdRecords`).

## Model

| member | source | states |
|---|---|---|
| `Entities.Lower` | client/redux/slices/spaceSlice.js:170 | the model's ASCII lower-casing keeps the length and lower-cases each character on its own |
| `Entities.ParentKindOf` | client/redux/slices/spaceSlice.js:172-179 | the space, folder or list collection is chosen exactly when the lower-cased `parentType` is `space`, `folder` or `list`; any other value chooses none |
| `Entities.ParentKindIgnoresCase` | client/redux/slices/spaceSlice.js:170-179 | lower-casing `parentType` before the choice never changes which collection is chosen |
| `Entities.ParentKindOfServerTypes` | client/redux/slices/spaceSlice.js:170-179 | the upper-case `SPACE`, `FOLDER` and `LIST` choose the space, folder and list collections |
| `Collections.Merge` | client/redux/slices/spaceSlice.js:136-138 | pushing the missing items keeps the old collection as a prefix, adds at most one record per item, holds every item afterwards, and holds nothing that was neither in the collection nor among the items |
| `Collections.MergeRecords` | client/redux/slices/spaceSlice.js:136-138 | the `forEach` / `includes` / `push` loop computes `Merge` of the collection and the items |
| `Collections.MergePushesOnlyMissing` | client/redux/slices/spaceSlice.js:137 | every record appended is one of the items and was not yet a member at the moment it was pushed |
| `Collections.MergeOfPresent` | client/redux/slices/spaceSlice.js:137 | merging items that are all members already leaves the collection unchanged |
| `Collections.MergeIdempotent` | client/redux/slices/spaceSlice.js:134-151 | merging the same items a second time leaves the collection as the first merge left it |
| `Collections.MergeConcat` | client/redux/slices/spaceSlice.js:134-151 | merging one batch after another is merging their concatenation |
| `Collections.MergeKeepsNoDuplicates` | client/redux/slices/spaceSlice.js:134-151 | a collection without repeated records keeps that property under merging |
| `Collections.MergeKeepsSameIdRecords` | client/redux/slices/spaceSlice.js:137 | two records with the same `_id` that differ in another field are both kept, so the merge alone does not keep ids unique |
| `Collections.FirstIndex` | client/redux/slices/spaceSlice.js:182-191 | the scan stops at an entity whose `_id` is `parentId` with none before it; there is no stop exactly when no entity has that `_id` |
| `Collections.IndexOfParent` | client/redux/slices/spaceSlice.js:182-191 | the indexed loop with early exit finds exactly `FirstIndex` |
| `Collections.AttachChild` | client/redux/slices/spaceSlice.js:182-191 | the collection keeps its length; when an entity matches, only the first match changes, by one reference appended to its `children`; on a miss nothing changes |
| `Collections.AttachChildAddsOne` | client/redux/slices/spaceSlice.js:182-191 | the scan adds exactly one child reference in all when some entity has `_id == parentId`, and none otherwise |
| `Thunks.SettleCreate` | client/redux/slices/spaceSlice.js:56-66 | a create thunk is rejected exactly when the request throws or `data.success` is `false`; the rejection carries the exception's message or `data.error`; otherwise it is fulfilled with `data` |
| `Thunks.SettleCreateTask` | client/redux/slices/spaceSlice.js:113-126 | the task thunk is rejected in exactly the same cases and with the same message; when fulfilled it carries `success: true` and the sanitized task |
| `Thunks.SanitizeAll` | client/redux/slices/spaceSlice.js:41 | the sanitizer keeps the number and order of the tasks and sanitizes each one on its own |
| `Thunks.SettleFetch` | client/redux/slices/spaceSlice.js:36-47 | the fetch thunk is rejected exactly when fetching throws, with its message; when fulfilled, every batch is unchanged except that each task is replaced by its sanitized form |
| `SpaceSlice.MergedStep` | client/redux/slices/spaceSlice.js:134-151 | the outer `forEach` merges the batches one after another, column by column |
| `SpaceSlice.MergedOnlyAppends` | client/redux/slices/spaceSlice.js:131-152 | `assignSpaceData` keeps each old collection as a prefix; every record it appends comes from the batches' matching column and was not yet present when pushed; it leaves the scalars alone |
| `SpaceSlice.MergedHoldsEveryRecord` | client/redux/slices/spaceSlice.js:131-152 | after `assignSpaceData` every space, folder, list and task of every batch is a member of its collection |
| `SpaceSlice.MergedIdempotent` | client/redux/slices/spaceSlice.js:131-152 | merging the same batches twice leaves the whole state as merging them once |
| `SpaceSlice.MergedKeepsNoDuplicates` | client/redux/slices/spaceSlice.js:131-152 | collections free of repeated records stay free of them |
| `SpaceSlice.ParentAttachedAddsOne` | client/redux/slices/spaceSlice.js:172-191 | the scan changes only the chosen collection and keeps its length; it adds one reference when a parent matches and none otherwise; tasks and scalars are untouched |
| `SpaceSlice.ParentAttachedHit` | client/redux/slices/spaceSlice.js:182-191 | the first entity with `_id == parentId` gets the reference appended to its children; every other entity is unchanged |
| `SpaceSlice.ParentAttachedMiss` | client/redux/slices/spaceSlice.js:182-191 | when no entity has `_id == parentId` the scan changes nothing and sets no error |
| `SpaceSlice.SpaceAttachedAppends` | client/redux/slices/spaceSlice.js:158-160 | `attachNewSpace` makes the space the new last element of `spaceData`; it grows by one and nothing else changes |
| `SpaceSlice.FolderAttachedEffect` | client/redux/slices/spaceSlice.js:162-192 | `attachNewFolder` grows `folderData` by the folder; collections the parent type does not choose are unchanged; the child-reference total grows by the folder's own children plus one exactly when a parent matched |
| `SpaceSlice.ListAttachedEffect` | client/redux/slices/spaceSlice.js:194-223 | `attachNewList` makes the same promises on `listData`, with a `LIST` reference |
| `SpaceSlice.FolderAttachedFirstParent` | client/redux/slices/spaceSlice.js:162-192 | after the folder is pushed, the first entity of the selected collection with `_id == parentId` gains one `{FOLDER, id, _id}` reference and the state is otherwise as it was; with no such entity the push is the only change |
| `SpaceSlice.ListAttachedFirstParent` | client/redux/slices/spaceSlice.js:194-223 | the same per-entity promise for `attachNewList`, with a `{LIST, id, _id}` reference |
| `SpaceSlice.TaskAttachedEffect` | client/redux/slices/spaceSlice.js:225-247 | `attachNewTask` appends the task and searches `listData` only, whatever `parentType` the task declares; spaces, folders and scalars are unchanged; one `TASK` reference is added exactly when a list matches |
| `SpaceSlice.CreateFailureOnlySetsError` | client/redux/slices/spaceSlice.js:51-106 | a failed space, folder or list creation leaves every collection as it was and sets `error` to `data.error` or to the exception's message |
| `SpaceSlice.CreatedTaskIsSanitized` | client/redux/slices/spaceSlice.js:116-123 | a successful task creation stores the sanitized task and attaches a `TASK` reference to it from the first list with its `parentId` |
| `SpaceSlice.SecondFailureWins` | client/redux/slices/spaceSlice.js:249-251 | two failures in a row leave only the second message in `error`, with nothing else changed |
| `SpaceSlice.FetchedTasksAreSanitized` | client/redux/slices/spaceSlice.js:40-44 | every task a successful fetch adds to `taskData` is the sanitized form of a fetched task |
| `SpaceSlice.SpaceStore.constructor` | client/redux/slices/spaceSlice.js:20-28 | a new store holds `initialState` |
| `SpaceSlice.SpaceStore.AssignSpaceData` | client/redux/slices/spaceSlice.js:131-152 | the nested loops leave the state `Merged` gives for the old state and the batches |
| `SpaceSlice.SpaceStore.SetActiveItem` | client/redux/slices/spaceSlice.js:154-156 | only `activeItem` changes; `activeItemName` keeps its value |
| `SpaceSlice.SpaceStore.AttachNewSpace` | client/redux/slices/spaceSlice.js:158-160 | the store becomes `SpaceAttached` of its old state |
| `SpaceSlice.SpaceStore.AttachToParent` | client/redux/slices/spaceSlice.js:172-191 | the scan and push leave the store as `ParentAttached` of its old state |
| `SpaceSlice.SpaceStore.AttachNewFolder` | client/redux/slices/spaceSlice.js:162-192 | the store becomes `FolderAttached` of its old state |
| `SpaceSlice.SpaceStore.AttachNewList` | client/redux/slices/spaceSlice.js:194-223 | the store becomes `ListAttached` of its old state |
| `SpaceSlice.SpaceStore.AttachNewTask` | client/redux/slices/spaceSlice.js:225-247 | the store becomes `TaskAttached` of its old state |
| `SpaceSlice.SpaceStore.SetError` | client/redux/slices/spaceSlice.js:249-251 | `error` is overwritten whatever it held; nothing else changes |
| `SpaceSlice.SpaceStore.ResetSliceToDefault` | client/redux/slices/spaceSlice.js:253-255 | from any state the store returns to `initialState` |
| `SpaceSlice.SpaceStore.GetSpaceData` | client/redux/slices/spaceSlice.js:266-267 | a fulfilled fetch runs `assignSpaceData` on the sanitized batches; a rejected one runs `setError` |
| `SpaceSlice.SpaceStore.CreateSpace` | client/redux/slices/spaceSlice.js:268-269 | a fulfilled space creation runs `attachNewSpace`; a rejected one runs `setError` |
| `SpaceSlice.SpaceStore.CreateFolder` | client/redux/slices/spaceSlice.js:270-271 | a fulfilled folder creation runs `attachNewFolder`; a rejected one runs `setError` |
| `SpaceSlice.SpaceStore.CreateList` | client/redux/slices/spaceSlice.js:272-273 | a fulfilled list creation runs `attachNewList`; a rejected one runs `setError` |
| `SpaceSlice.SpaceStore.CreateTask` | client/redux/slices/spaceSlice.js:274-275 | a fulfilled task creation runs `attachNewTask` on the sanitized task; a rejected one runs `setError` |

## Left out

- `server/src/server.js` is not part of this model. It is the Express wiring, CORS headers, environment configuration, database connection and `listen`, with no logic of its own.
- The network requests (`fetchSpaceEverything`, `createSpace`, `createFolder`, `createList`, `createTask`) are not modelled. What each produced is an input: a returned value or a thrown message.
- `sanitizeTask` is not part of this model. It is a function parameter `sanitize` applied to one task at a time, in order. Its closure stands for the priorities and statuses read from `metaReducer`.
- The `Promise.all` fan-out, `await`, and the order in which requests complete are not modelled. The pending phase is not modelled either. When several fetches fail, the message of the one that fails first in time is the thrown message given as input.
- Redux Toolkit (`createAsyncThunk`, `createSlice`, Immer drafts) is not modelled. Each method applies its reducer directly to the store.
- `Collections.Merge`: `includes` is modelled as equality of whole records. The code compares object references, so a freshly fetched copy of a stored record never matches it, and a second fetch appends duplicates. Under the model's equality, an equal copy is recognised. Neither test keeps ids unique (see `Collections.MergeKeepsSameIdRecords`).
- A failure response without an `error` field stores `undefined` in `error`. The model always carries a string.
- The model lower-cases `parentType` on the ASCII letters only. `toLowerCase` also folds other characters, but no other character lower-cases to exactly one of the letters of `space`, `folder` or `list`, so the same collection is chosen for every `parentType`.
- The crash paths are preconditions (`Attachable`, `CreatedAttachable`). They are a `parentType` that is not `space`, `folder` or `list`, where `parentData` stays undefined, and a folder or list without a `parent` object.
- A payload without its `space` field is not modelled: `attachNewSpace` then appends `undefined` to `spaceData`. A payload without its `folder`, `list` or `task` field is not modelled either: those reducers throw when they read its `parent`.
- Space metadata (colours, icons, statuses, views) and other record fields the store never reads are not modelled.
- The records are values, so aliasing is not modelled. An object shared between a collection and another holder would see a pushed child in both.
- The attach reducers push inside the scan loop and then `break`. The model finds the index first (`IndexOfParent`) and then pushes, with the same result.
- The invariants that every parent reference resolves and that every child has exactly one reference in its parent are not proved. The code does not keep them: a parent miss leaves the child unattached, and merged records are not repaired.
- No reducer writes `activeItemName`, so it keeps its initial value until a reset.
