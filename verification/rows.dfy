/**
 The rows of the control store and the ways one row may be rewritten.

 A task identifier is a `nat`: it stands for the fixed-width hexadecimal text of a random UUID, whose
 textual order is the numeric one. Times are the `REAL` columns of the schema.
 */
module Rows {
  import opened Wrappers

  type TaskId = nat

  datatype State =
    | Queued | Paused
    | Discovered | Preparing | Planning | Testing | Diagnosing | Executing | Verifying | Repairing
    | Reviewing | Eligible | Merging | Publishing | Deploying | Releasing | Monitoring
    | Completed | Failed | Cancelled | Unresolved

  predicate Terminal(state: State) {
    state.Completed? || state.Failed? || state.Cancelled? || state.Unresolved?
  }

  /** The stages in which an external effect may already have happened. */
  predicate UnknownOutcome(state: State) {
    state.Publishing? || state.Deploying? || state.Monitoring?
  }

  datatype Action = Pause | Resume | Cancel | Steer

  /** The three lease columns, which are all present or all absent. */
  datatype Holder = Holder(worker: string, epoch: nat, expires: real)

  /** What a worker keeps in its hand after a claim. */
  datatype Lease = Lease(task: TaskId, worker: string, epoch: nat, expires: real)

  /** One provider event scope: a group key inside a repository. */
  datatype Scope = Scope(repository: string, group: string)

  /** The delivery that caused a task to be created or superseded. */
  datatype Origin = Origin(provider: string, delivery: string, group: Option<string>, version: Option<nat>)

  /** The JSON result of a task that ended. */
  datatype TaskResult =
    | Reported(details: string)
    | ControlInterrupted(action: Action, previous: State)
    | ControlCancelled(previous: State)
    | LeaseLost(previous: State)
    | SupersededBy(origin: Origin, replacement: Option<TaskId>, previous: State, reconcile: bool)

  datatype Task = Task(
    repository: string,
    payload: string,
    key: Option<string>,
    createdAt: real,
    instructions: seq<string>,
    result: Option<TaskResult>,
    state: State,
    epoch: nat,
    lease: Option<Holder>,
    updatedAt: real)

  /** The `kind` of a logged event together with its `details_json`. */
  datatype Kind =
    | Created(origin: Option<Origin>, reconcile: bool)
    | Claimed(worker: string, expires: real, replaced: Option<string>)
    | LeaseRenewed(worker: string, expires: real)
    | AiCallReserved(role: string, call: nat, limit: int)
    | ReleaseSuccess(commit: string)
    | Transition(details: string)
    | Released(worker: string, previous: State)
    | Controlled(action: Action, previous: State, instruction: Option<string>, reconcile: bool)
    | LeaseExpired(expired: Option<Holder>, previous: State, reconcile: bool)
    | Superseded(outcome: TaskResult)

  datatype Event = Event(task: TaskId, kind: Kind, state: State, epoch: nat, at: real)

  /** One row written together with the event logged beside it. */
  datatype Write = Write(id: TaskId, row: Task, event: Event)

  // ----- lease checks -----

  predicate Holds(row: Task, worker: string, epoch: nat) {
    && row.lease.Some?
    && row.lease.value.worker == worker
    && row.lease.value.epoch == epoch
    && row.epoch == epoch
  }

  predicate LiveAt(row: Task, now: real) {
    row.lease.Some? && row.lease.value.expires > now
  }

  /** `_validate_lease` accepts. */
  predicate ValidLease(row: Task, lease: Lease, now: real) {
    Holds(row, lease.worker, lease.epoch) && LiveAt(row, now)
  }

  // ----- the row each operation leaves behind -----

  function NewRow(repository: string, payload: string, key: Option<string>, state: State, now: real): Task {
    Task(repository, payload, key, now, [], None, state, 0, None, now)
  }

  function ClaimedRow(row: Task, worker: string, expires: real, now: real): Task {
    row.(epoch := row.epoch + 1, lease := Some(Holder(worker, row.epoch + 1, expires)), updatedAt := now)
  }

  function RenewedRow(row: Task, expires: real, now: real): Task
    requires row.lease.Some?
  {
    row.(lease := Some(row.lease.value.(expires := expires)), updatedAt := now)
  }

  function MovedRow(row: Task, state: State, details: string, now: real): Task {
    row.(
      state := state,
      result := if Terminal(state) then Some(Reported(details)) else row.result,
      lease := if Terminal(state) then None else row.lease,
      updatedAt := now)
  }

  function ReleasedRow(row: Task, now: real): Task {
    row.(state := Queued, lease := None, updatedAt := now)
  }

  function ControlledState(previous: State, action: Action): State {
    if UnknownOutcome(previous) && !action.Resume? then Unresolved
    else if action.Pause? then Paused
    else if action.Cancel? then Cancelled
    else Queued
  }

  function ControlledRow(row: Task, action: Action, instruction: Option<string>, now: real): Task {
    var unknown := UnknownOutcome(row.state) && !action.Resume?;
    row.(
      state := ControlledState(row.state, action),
      epoch := row.epoch + 1,
      instructions := if action.Steer? && instruction.Some? then row.instructions + [instruction.value]
                      else row.instructions,
      result := if unknown then Some(ControlInterrupted(action, row.state))
                else if action.Cancel? then Some(ControlCancelled(row.state))
                else row.result,
      lease := None,
      updatedAt := now)
  }

  function RecoveredRow(row: Task, now: real): Task {
    var unknown := UnknownOutcome(row.state);
    row.(
      state := if unknown then Unresolved else Queued,
      epoch := row.epoch + 1,
      result := if unknown then Some(LeaseLost(row.state)) else row.result,
      lease := None,
      updatedAt := now)
  }

  function SupersededRow(row: Task, outcome: TaskResult, now: real): Task {
    row.(
      state := if UnknownOutcome(row.state) then Unresolved else Cancelled,
      epoch := row.epoch + 1,
      result := Some(outcome),
      lease := None,
      updatedAt := now)
  }

  // ----- what every row keeps -----

  /** The shape of a stored row, whatever happened to it. */
  predicate Shape(row: Task) {
    && (row.lease.Some? ==> row.lease.value.epoch == row.epoch)
    && (Terminal(row.state) || row.state.Paused? ==> row.lease.None?)
    && (!Terminal(row.state) && !row.state.Paused? && !row.state.Queued? ==> row.lease.Some?)
    && (row.result.Some? <==> Terminal(row.state))
  }

  /** The columns an event log can account for. */
  datatype View = View(
    state: State, epoch: nat, lease: Option<Holder>, instructions: seq<string>, result: Option<TaskResult>)

  function ViewOf(row: Task): View {
    View(row.state, row.epoch, row.lease, row.instructions, row.result)
  }

  /** Reads one event of a task on top of what earlier events said; uses only logged data. */
  function Advance(view: Option<View>, event: Event): Option<View> {
    if event.kind.Created? then Some(View(event.state, event.epoch, None, [], None))
    else if view.None? then None
    else
      var v := view.value.(state := event.state, epoch := event.epoch);
      match event.kind
      case Created(_, _) => Some(v)
      case Claimed(worker, expires, _) => Some(v.(lease := Some(Holder(worker, event.epoch, expires))))
      case LeaseRenewed(worker, expires) => Some(v.(lease := Some(Holder(worker, event.epoch, expires))))
      case AiCallReserved(_, _, _) => Some(v)
      case ReleaseSuccess(_) => Some(v)
      case Transition(details) =>
        Some(if Terminal(event.state) then v.(lease := None, result := Some(Reported(details))) else v)
      case Released(_, _) => Some(v.(lease := None))
      case Controlled(action, previous, instruction, reconcile) =>
        Some(v.(
          lease := None,
          instructions := if instruction.Some? then v.instructions + [instruction.value] else v.instructions,
          result := if reconcile then Some(ControlInterrupted(action, previous))
                    else if action.Cancel? then Some(ControlCancelled(previous))
                    else v.result))
      case LeaseExpired(_, previous, reconcile) =>
        Some(v.(lease := None, result := if reconcile then Some(LeaseLost(previous)) else v.result))
      case Superseded(outcome) => Some(v.(lease := None, result := Some(outcome)))
  }

  /** The whole row protocol: how `w` may replace what was stored before. */
  ghost predicate Legal(before: Option<Task>, w: Write) {
    var now := w.event.at;
    && w.event.task == w.id
    && w.event.state == w.row.state
    && w.event.epoch == w.row.epoch
    && match w.event.kind
       case Created(_, _) =>
         && before.None?
         && (w.row.state.Queued? || w.row.state.Paused?)
         && w.row == NewRow(w.row.repository, w.row.payload, w.row.key, w.row.state, now)
       case Claimed(worker, expires, _) =>
         && before.Some?
         && before.value.state.Queued?
         && !LiveAt(before.value, now)
         && w.row == ClaimedRow(before.value, worker, expires, now)
       case LeaseRenewed(worker, expires) =>
         && before.Some?
         && Holds(before.value, worker, before.value.epoch)
         && LiveAt(before.value, now)
         && w.row == RenewedRow(before.value, expires, now)
       case AiCallReserved(_, _, _) => before == Some(w.row) && LiveAt(w.row, now)
       case ReleaseSuccess(_) => before == Some(w.row) && LiveAt(w.row, now) && w.row.state.Monitoring?
       case Transition(details) =>
         && before.Some?
         && LiveAt(before.value, now)
         && !Terminal(before.value.state) && !before.value.state.Paused?
         && !w.row.state.Queued? && !w.row.state.Paused?
         && w.row == MovedRow(before.value, w.row.state, details, now)
       case Released(_, previous) =>
         && before.Some?
         && LiveAt(before.value, now)
         && previous == before.value.state
         && !Terminal(previous) && !previous.Paused?
         && w.row == ReleasedRow(before.value, now)
       case Controlled(action, previous, instruction, reconcile) =>
         && before.Some?
         && previous == before.value.state
         && !Terminal(previous)
         && (action.Resume? ==> previous.Paused?)
         && (instruction.Some? <==> action.Steer?)
         && reconcile == (UnknownOutcome(previous) && !action.Resume?)
         && w.row == ControlledRow(before.value, action, instruction, now)
       case LeaseExpired(expired, previous, reconcile) =>
         && before.Some?
         && before.value.lease.Some?
         && !LiveAt(before.value, now)
         && expired == before.value.lease
         && previous == before.value.state
         && !Terminal(previous) && !previous.Paused?
         && reconcile == UnknownOutcome(previous)
         && w.row == RecoveredRow(before.value, now)
       case Superseded(outcome) =>
         && before.Some?
         && !Terminal(before.value.state)
         && w.row == SupersededRow(before.value, outcome, now)
  }

  /** Every rewriting keeps the shape, explains itself in the log and never lowers the epoch. */
  lemma LegalKeeps(before: Option<Task>, w: Write)
    requires Legal(before, w)
    requires before.Some? ==> Shape(before.value)
    ensures Shape(w.row)
    ensures Advance(if before.Some? then Some(ViewOf(before.value)) else None, w.event) == Some(ViewOf(w.row))
    ensures before.Some? ==>
              && before.value.epoch <= w.row.epoch
              && !Terminal(before.value.state)
              && w.row.repository == before.value.repository
              && w.row.payload == before.value.payload
              && w.row.key == before.value.key
              && w.row.createdAt == before.value.createdAt
              && before.value.instructions <= w.row.instructions
  {
  }
}
