/** How each asynchronous thunk of the space slice settles, given what its
    network collaborator produced. The request itself is not modelled: its
    outcome is an input. */
module Thunks {
  import opened Entities

  /** The `data` object a create request resolves with. `success` is `None`
      when the field is absent; `payload` is the created `space`, `folder`,
      `list` or `task`. */
  datatype Response<P> = Response(success: Option<bool>, error: string, payload: P)

  /** What awaiting a network collaborator gives: a value, or an exception
      with its `message`. */
  datatype Attempt<T> = Returned(value: T) | Threw(message: string)

  /** How a thunk settles: fulfilled with a value, or rejected with
      `{ error }`. */
  datatype Settled<V> = Fulfilled(value: V) | Rejected(error: string)

  /** `createSpaceAsync`, `createFolderAsync` and `createListAsync`: rejected
      with `data.error` when `data.success === false`, rejected with the
      exception's message when the request throws, fulfilled with `{ data }`
      otherwise (a missing `success` field included). */
  function SettleCreate<P>(attempt: Attempt<Response<P>>): (s: Settled<Response<P>>)
    ensures s.Rejected? <==> attempt.Threw? || attempt.value.success == Some(false)
    ensures attempt.Threw? ==> s == Rejected(attempt.message)
    ensures attempt.Returned? && attempt.value.success == Some(false) ==> s == Rejected(attempt.value.error)
    ensures s.Fulfilled? ==> s.value == attempt.value && s.value.success != Some(false)
  {
    match attempt
    case Threw(message) => Rejected(message)
    case Returned(data) =>
      if data.success == Some(false) then Rejected(data.error) else Fulfilled(data)
  }

  /** `createTaskAsync`: settles as the other create thunks do, but a
      fulfilled result is re-wrapped as `{ success: true, task }` with the
      task passed through the sanitizer first. */
  function SettleCreateTask(attempt: Attempt<Response<TaskRecord>>, sanitize: TaskRecord -> TaskRecord): (s: Settled<Response<TaskRecord>>)
    ensures s.Rejected? <==> SettleCreate(attempt).Rejected?
    ensures s.Rejected? ==> s == SettleCreate(attempt)
    ensures s.Fulfilled? ==> s.value == Response(Some(true), "", sanitize(attempt.value.payload))
  {
    match SettleCreate(attempt)
    case Rejected(error) => Rejected(error)
    case Fulfilled(data) => Fulfilled(Response(Some(true), "", sanitize(data.payload)))
  }

  /** `sanitizeTask` over an array of tasks, one task at a time and in order. */
  function SanitizeAll(tasks: seq<TaskRecord>, sanitize: TaskRecord -> TaskRecord): (r: seq<TaskRecord>)
    ensures |r| == |tasks|
    ensures forall j :: 0 <= j < |tasks| ==> r[j] == sanitize(tasks[j])
  {
    if tasks == [] then [] else [sanitize(tasks[0])] + SanitizeAll(tasks[1..], sanitize)
  }

  /** `getSpaceDataAsync`: rejected with the exception's message when any
      fetch throws; otherwise fulfilled with every batch, its tasks replaced
      by their sanitized forms and nothing else changed. There is no
      `success === false` test on this path. */
  function SettleFetch(attempt: Attempt<seq<Batch>>, sanitize: TaskRecord -> TaskRecord): (s: Settled<seq<Batch>>)
    ensures s.Rejected? <==> attempt.Threw?
    ensures attempt.Threw? ==> s == Rejected(attempt.message)
    ensures s.Fulfilled? ==> |s.value| == |attempt.value|
    ensures s.Fulfilled? ==> forall i :: 0 <= i < |s.value| ==>
      s.value[i] == attempt.value[i].(task := s.value[i].task) &&
      |s.value[i].task| == |attempt.value[i].task| &&
      forall j :: 0 <= j < |s.value[i].task| ==> s.value[i].task[j] == sanitize(attempt.value[i].task[j])
  {
    match attempt
    case Threw(message) => Rejected(message)
    case Returned(batches) =>
      Fulfilled(seq(|batches|, i requires 0 <= i < |batches| =>
        batches[i].(task := SanitizeAll(batches[i].task, sanitize))))
  }
}
