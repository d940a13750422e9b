/**
 Runs of the store: any number of workers, operators and event handlers, each transaction one step.
 Every step carries the stamp the caller read from the clock for it.
 */
module StoreRuns {
  import opened Wrappers
  import opened Rows
  import opened StoreSpec

  datatype Step =
    | CreateStep(id: TaskId, repository: string, payload: string, key: Option<string>, now: real)
    | IngestStep(request: Request, id: TaskId, now: real)
    | ClaimStep(task: TaskId, worker: string, now: real, ttl: int)
    | RenewStep(lease: Lease, now: real, ttl: int)
    | ReserveStep(lease: Lease, role: string, limit: int, now: real)
    | RecordStep(lease: Lease, commit: string, now: real)
    | MoveStep(lease: Lease, state: State, details: string, now: real)
    | ReleaseStep(lease: Lease, now: real)
    | ControlStep(task: TaskId, action: Action, instruction: Option<string>, now: real)
    | RecoverStep(now: real)

  ghost function Apply(db: Db, step: Step): Db {
    match step
    case CreateStep(id, repository, payload, key, now) => After(db, CreateTask(db, id, repository, payload, key, now))
    case IngestStep(request, id, now) => After(db, Ingest(db, request, id, now))
    case ClaimStep(task, worker, now, ttl) => After(db, Claim(db, task, worker, now, ttl))
    case RenewStep(lease, now, ttl) => After(db, Renew(db, lease, now, ttl))
    case ReserveStep(lease, role, limit, now) => After(db, ReserveAiCall(db, lease, role, limit, now))
    case RecordStep(lease, commit, now) => After(db, RecordReleaseSuccess(db, lease, commit, now))
    case MoveStep(lease, state, details, now) => After(db, Move(db, lease, state, details, now))
    case ReleaseStep(lease, now) => After(db, Release(db, lease, now))
    case ControlStep(task, action, instruction, now) => After(db, Control(db, task, action, instruction, now))
    case RecoverStep(now) => After(db, RecoverExpired(db, now))
  }

  ghost function Run(db: Db, steps: seq<Step>): Db
    decreases |steps|
  {
    if steps == [] then db else Run(Apply(db, steps[0]), steps[1..])
  }

  lemma {:induction false} RunAppend(db: Db, a: seq<Step>, b: seq<Step>)
    ensures Run(db, a + b) == Run(Run(db, a), b)
    decreases |a|
  {
    if a == [] {
      assert a + b == b;
    } else {
      assert (a + b)[1..] == a[1..] + b;
      RunAppend(Apply(db, a[0]), a[1..], b);
    }
  }

  /** Some run of the store leads here. */
  ghost predicate Reachable(db: Db) {
    exists steps :: Run(EMPTY, steps) == db
  }

  lemma ReachableStep(db: Db, step: Step)
    requires Reachable(db)
    ensures Reachable(Apply(db, step))
  {
    hide Apply;
    var steps :| Run(EMPTY, steps) == db;
    RunAppend(EMPTY, steps, [step]);
    assert Run(db, [step]) == Run(Apply(db, step), []) by { assert [step][1..] == []; }
  }

  function RowOf(db: Db, id: TaskId): Option<Task> {
    if id in db.tasks then Some(db.tasks[id]) else None
  }

  // ----- every step is a batch of legal writes -----

  function Events(ws: seq<Write>): (log: seq<Event>)
    ensures |log| == |ws|
    ensures forall i :: 0 <= i < |ws| ==> log[i] == ws[i].event
  {
    seq(|ws|, i requires 0 <= i < |ws| => ws[i].event)
  }

  ghost predicate DistinctIds(ws: seq<Write>) {
    forall i, j :: 0 <= i < j < |ws| ==> ws[i].id != ws[j].id
  }

  /** Writes to different rows, each legal for the row it finds. */
  ghost predicate Batch(db: Db, ws: seq<Write>) {
    && DistinctIds(ws)
    && forall i :: 0 <= i < |ws| ==> Legal(RowOf(db, ws[i].id), ws[i])
  }

  /** The delivery is new and passes the version check. */
  predicate Accepts(db: Db, r: Request, id: TaskId) {
    && (r.expected.Some? ==> 0 <= r.expected.value && r.group.Some?)
    && KeyOf(r) !in db.files.deliveries
    && Known(db.files, r).None?
    && (r.expected.Some? ==> r.expected.value == GroupVersion(db.files, ScopeOf(r)))
    && (r.payload.Some? ==> id !in db.tasks)
  }

  /** The write that made `next` of `db`, if one did. */
  function LastWrite(db: Db, next: Db): Option<Write> {
    if next.log == [] || next == db then None
    else
      var event := next.log[|next.log| - 1];
      if event.task in next.tasks then Some(Write(event.task, next.tasks[event.task], event)) else None
  }

  /** The row writes a step commits. */
  ghost function Writes(db: Db, step: Step): seq<Write> {
    match step
    case IngestStep(r, id, now) => if Accepts(db, r, id) then AcceptWrites(db, r, id, now) else []
    case RecoverStep(now) => RecoverWrites(db.tasks, Sorted(db.tasks, Expired(db, now)), now)
    case _ =>
      var w := LastWrite(db, Apply(db, step));
      if w.Some? then [w.value] else []
  }

  lemma {:induction false} PutAllLog(db: Db, ws: seq<Write>)
    ensures PutAll(db, ws) == db.(tasks := PutAll(db, ws).tasks, log := db.log + Events(ws))
    decreases |ws|
  {
    if ws != [] {
      PutAllLog(Put(db, ws[0]), ws[1..]);
      assert Events(ws) == [ws[0].event] + Events(ws[1..]);
    } else {
      assert Events(ws) == [];
    }
  }

  /** A row nobody writes stays. */
  lemma {:induction false} PutAllOther(db: Db, ws: seq<Write>, id: TaskId)
    requires forall i :: 0 <= i < |ws| ==> ws[i].id != id
    ensures RowOf(PutAll(db, ws), id) == RowOf(db, id)
    decreases |ws|
  {
    if ws != [] {
      PutAllOther(Put(db, ws[0]), ws[1..], id);
    }
  }

  /** A row somebody writes ends up as written. */
  lemma {:induction false} PutAllAt(db: Db, ws: seq<Write>, i: nat)
    requires i < |ws| && DistinctIds(ws)
    ensures RowOf(PutAll(db, ws), ws[i].id) == Some(ws[i].row)
    decreases |ws|
  {
    if i == 0 {
      PutAllOther(Put(db, ws[0]), ws[1..], ws[0].id);
    } else {
      PutAllAt(Put(db, ws[0]), ws[1..], i - 1);
    }
  }

  /** After a batch a row is either untouched or one of the writes, which was legal for it. */
  lemma BatchAt(db: Db, ws: seq<Write>, id: TaskId)
    requires Batch(db, ws)
    ensures || RowOf(PutAll(db, ws), id) == RowOf(db, id)
            || exists w :: w in ws && w.id == id && RowOf(PutAll(db, ws), id) == Some(w.row) && Legal(RowOf(db, id), w)
  {
    if i :| 0 <= i < |ws| && ws[i].id == id {
      PutAllAt(db, ws, i);
      assert ws[i] in ws;
    } else {
      PutAllOther(db, ws, id);
    }
  }

  lemma AcceptIsBatch(db: Db, r: Request, id: TaskId, now: real)
    requires r.payload.Some? ==> id !in db.tasks
    ensures Batch(db, AcceptWrites(db, r, id, now))
  {
    var live := Outdated(db, r);
    var ids := Sorted(db.tasks, live);
    var ws := AcceptWrites(db, r, id, now);
    forall i | 0 <= i < |ids| ensures ids[i] in live && ws[i].id == ids[i] && Legal(RowOf(db, ws[i].id), ws[i]) {
      assert ids[i] in ids;
    }
  }

  lemma RecoverIsBatch(db: Db, now: real)
    ensures Batch(db, Writes(db, RecoverStep(now)))
  {
    var ids := Sorted(db.tasks, Expired(db, now));
    var ws := Writes(db, RecoverStep(now));
    forall i | 0 <= i < |ids|
      ensures ids[i] in Expired(db, now) && ws[i].id == ids[i] && Legal(RowOf(db, ws[i].id), ws[i])
    {
      assert ids[i] in ids;
    }
  }

  /** Whatever a step does to tasks and their log, it does by legal writes to different rows. */
  ghost predicate Batched(db: Db, step: Step) {
    var ws := Writes(db, step);
    && Batch(db, ws)
    && Apply(db, step).tasks == PutAll(db, ws).tasks
    && Apply(db, step).log == PutAll(db, ws).log
  }

  /** Deliveries that are not accepted leave tasks and log alone. */
  lemma IngestCases(db: Db, r: Request, id: TaskId, now: real)
    ensures Accepts(db, r, id) ==>
              Apply(db, IngestStep(r, id, now))
              == PutAll(db, AcceptWrites(db, r, id, now)).(
                   files := Filed(db.files, r, if r.payload.Some? then Some(id) else None))
    ensures !Accepts(db, r, id) ==>
              var next := Apply(db, IngestStep(r, id, now));
              next == db.(files := next.files)
  {
  }

  lemma IngestIsBatched(db: Db, step: Step)
    requires step.IngestStep?
    ensures Batched(db, step)
  {
    IngestCases(db, step.request, step.id, step.now);
    if Accepts(db, step.request, step.id) {
      AcceptIsBatch(db, step.request, step.id, step.now);
    }
  }

  ghost predicate IsWrite(db: Db, next: Db, w: Option<Write>) {
    if w.Some? then next == Put(db, w.value) && Legal(RowOf(db, w.value.id), w.value) else next == db
  }

  lemma SingleIsBatched(db: Db, step: Step)
    requires !step.IngestStep? && !step.RecoverStep?
    ensures Batched(db, step)
    ensures Apply(db, step) == PutAll(db, Writes(db, step))
  {
    if step.CreateStep? || step.ClaimStep? || step.RenewStep? || step.ControlStep? {
      var w := TakesWrite(db, step);
      OneWrite(db, step, w);
    } else {
      var w := HolderWrite(db, step);
      OneWrite(db, step, w);
    }
  }

  /** The write of a step that creates, claims, renews or controls a task, unless it is refused. */
  lemma TakesWrite(db: Db, step: Step) returns (w: Option<Write>)
    requires step.CreateStep? || step.ClaimStep? || step.RenewStep? || step.ControlStep?
    ensures IsWrite(db, Apply(db, step), w)
  {
    w := LastWrite(db, Apply(db, step));
  }

  /** The write of a step that only the holder of a lease may take, unless it is refused. */
  lemma HolderWrite(db: Db, step: Step) returns (w: Option<Write>)
    requires step.ReserveStep? || step.RecordStep? || step.MoveStep? || step.ReleaseStep?
    ensures IsWrite(db, Apply(db, step), w)
  {
    w := LastWrite(db, Apply(db, step));
  }

  lemma OneWrite(db: Db, step: Step, w: Option<Write>)
    requires !step.IngestStep? && !step.RecoverStep?
    requires IsWrite(db, Apply(db, step), w)
    ensures Batched(db, step)
    ensures Apply(db, step) == PutAll(db, Writes(db, step))
  {
    hide Apply, Legal;
    if w.Some? {
      var next := Apply(db, step);
      assert next.log[|next.log| - 1] == w.value.event && |next.log| != |db.log|;
      LegalNames(RowOf(db, w.value.id), w.value);
      var ws := Writes(db, step);
      assert ws == [w.value] && ws[1..] == [];
      assert PutAll(Put(db, ws[0]), []) == next;
    }
  }

  lemma LegalNames(before: Option<Task>, w: Write)
    requires Legal(before, w)
    ensures w.event.task == w.id
  {
  }

  lemma StepIsBatched(db: Db, step: Step)
    ensures Batched(db, step)
  {
    if step.IngestStep? {
      IngestIsBatched(db, step);
    } else if step.RecoverStep? {
      RecoverIsBatch(db, step.now);
    } else {
      SingleIsBatched(db, step);
    }
  }
}
