/**
 The store together with the workers that drive it: any number of controllers, each running the
 exception exit of `execute`, beside operators, event handlers and expiry recovery.

 A worker keeps its lease to itself, renews it from a heartbeat in every phase, and leaves through
 `get_task`, then `assert_active`, then either `release` or a terminal transition. Between any two of
 these the rest of the world may take any number of steps.
 */
module Workers {
  import opened Wrappers
  import opened Rows
  import opened StoreSpec
  import opened StoreRuns
  import opened StoreLog
  import opened StoreLeases
  import opened StoreAnswers

  datatype Phase =
    | Working                   // inside the try block
    | Looked(seen: State)       // exception caught, row read by get_task
    | Confirmed(seen: State)    // assert_active passed
    | Gone

  datatype Worker = Worker(lease: Lease, phase: Phase)

  datatype System = System(db: Db, workers: map<string, Worker>)

  const START := System(EMPTY, map[])

  datatype Move =
    | Outside(step: Step)                                             // create, ingest, control, recover
    | Claims(name: string, task: TaskId, now: real, ttl: int)         // work_once, under a fresh name
    | Heartbeat(name: string, now: real, ttl: int)
    | Advances(name: string, state: State, details: string, now: real)
    | Reserves(name: string, role: string, limit: int, now: real)
    | RecordsRelease(name: string, commit: string, now: real)
    | Catches(name: string)
    | Confirms(name: string, now: real)
    | Leaves(name: string, stopped: bool, evidence: string, now: real)

  predicate OutsideStep(step: Step) {
    step.CreateStep? || step.IngestStep? || step.ControlStep? || step.RecoverStep?
  }

  predicate At(s: System, name: string, working: bool) {
    name in s.workers && (working ==> s.workers[name].phase.Working?)
  }

  /** The store transaction that a move runs, if it runs one. */
  function StepOf(s: System, m: Move): Option<Step> {
    match m
    case Outside(step) => if OutsideStep(step) then Some(step) else None
    case Claims(name, task, now, ttl) => if name !in s.workers then Some(ClaimStep(task, name, now, ttl)) else None
    case Heartbeat(name, now, ttl) =>
      if At(s, name, false) && !s.workers[name].phase.Gone?
      then Some(RenewStep(s.workers[name].lease, now, ttl)) else None
    case Advances(name, state, details, now) =>
      if At(s, name, true) then Some(MoveStep(s.workers[name].lease, state, details, now)) else None
    case Reserves(name, role, limit, now) =>
      if At(s, name, true) then Some(ReserveStep(s.workers[name].lease, role, limit, now)) else None
    case RecordsRelease(name, commit, now) =>
      if At(s, name, true) then Some(RecordStep(s.workers[name].lease, commit, now)) else None
    case Catches(_) => None
    case Confirms(_, _) => None
    case Leaves(name, stopped, evidence, now) =>
      if At(s, name, false) && s.workers[name].phase.Confirmed? then
        var worker := s.workers[name];
        Some(if stopped && !UnknownOutcome(worker.phase.seen) then ReleaseStep(worker.lease, now)
             else MoveStep(worker.lease, if UnknownOutcome(worker.phase.seen) then Unresolved
               else Failed, evidence, now))
      else None
  }

  ghost function NextDb(s: System, m: Move): Db {
    if StepOf(s, m).Some? then Apply(s.db, StepOf(s, m).value) else s.db
  }

  function NextWorkers(s: System, m: Move): map<string, Worker> {
    match m
    case Claims(name, task, now, ttl) =>
      var o := Claim(s.db, task, name, now, ttl);
      if name !in s.workers && o.Done? then s.workers[name := Worker(o.value, Working)] else s.workers
    case Catches(name) =>
      if At(s, name, true) && s.workers[name].lease.task in s.db.tasks then
        s.workers[name := s.workers[name].(phase := Looked(s.db.tasks[s.workers[name].lease.task].state))]
      else s.workers
    case Confirms(name, now) =>
      if At(s, name, false) && s.workers[name].phase.Looked? then
        s.workers[name := s.workers[name].(
          phase := if AssertActive(s.db, s.workers[name].lease, now).None? then Confirmed(s.workers[name].phase.seen)
                   else Gone)]
      else s.workers
    case Leaves(name, _, _, _) =>
      if At(s, name, false) && s.workers[name].phase.Confirmed? then s.workers[name := s.workers[name].(phase := Gone)]
      else s.workers
    case _ => s.workers
  }

  ghost function Next(s: System, m: Move): System {
    System(NextDb(s, m), NextWorkers(s, m))
  }

  ghost function After(s: System, moves: seq<Move>): System
    decreases |moves|
  {
    if moves == [] then s else After(Next(s, moves[0]), moves[1..])
  }

  // ----- what every worker may rely on -----

  /** The row is still under this worker's lease, live or not. */
  predicate Owns(db: Db, lease: Lease) {
    lease.task in db.tasks && Holds(db.tasks[lease.task], lease.worker, lease.epoch)
  }

  /** A worker's lease carries its own name, and what it saw stays true for as long as it owns the row. */
  ghost predicate Tracks(db: Db, name: string, w: Worker) {
    && w.lease.worker == name
    && Issued(db, w.lease)
    && (w.phase.Looked? || w.phase.Confirmed? ==>
          Owns(db, w.lease) ==> db.tasks[w.lease.task].state == w.phase.seen)
  }

  ghost predicate WorkersInv(s: System) {
    && RowInv(s.db)
    && forall name :: name in s.workers ==> Tracks(s.db, name, s.workers[name])
  }

  /** On one row: a rewriting that leaves the lease alone and changes the state is the holder's own move. */
  lemma RowStateMoves(before: Task, w: Write, worker: string, epoch: nat)
    requires Legal(Some(before), w) && Shape(before) && epoch <= before.epoch
    requires Holds(w.row, worker, epoch)
    ensures Holds(before, worker, epoch)
    ensures w.row.state == before.state || w.event.kind.Transition?
  {
  }

  lemma TransitionsAreTheHolders(db: Db, step: Step, w: Write)
    requires w in Writes(db, step) && w.event.kind.Transition?
    ensures step.MoveStep? && step.lease.task == w.id && TokenValid(db, step.lease, step.now)
  {
    match step {
      case IngestStep(_, _, _) =>
      case RecoverStep(_) =>
      case _ =>
    }
  }

  /** A step of anybody else keeps a worker's view true. */
  lemma OthersKeepTracks(db: Db, step: Step, name: string, w: Worker)
    requires RowInv(db) && Tracks(db, name, w)
    requires step.MoveStep? ==> step.lease.worker != name || !(w.phase.Looked? || w.phase.Confirmed?)
    ensures Tracks(Apply(db, step), name, w)
  {
    hide Apply, Writes;
    var id := w.lease.task;
    StepOnRow(db, step, id);
    var o := WriteTo(db, step, id);
    assert Shape(db.tasks[id]);
    if o.Some? && Owns(Apply(db, step), w.lease) {
      RowStateMoves(db.tasks[id], o.value, name, w.lease.epoch);
      if o.value.event.kind.Transition? { TransitionsAreTheHolders(db, step, o.value); }
    }
  }

  lemma ClaimTracks(db: Db, task: TaskId, name: string, now: real, ttl: int)
    requires Claim(db, task, name, now, ttl).Done?
    ensures Tracks(Apply(db, ClaimStep(task, name, now, ttl)), name,
        Worker(Claim(db, task, name, now, ttl).value, Working))
  {
  }

  lemma NextKeepsInv(s: System, m: Move)
    requires WorkersInv(s)
    ensures WorkersInv(Next(s, m))
  {
    hide RowInv, Apply, Tracks;
    var next := Next(s, m);
    if StepOf(s, m).Some? { StepKeepsRows(s.db, StepOf(s, m).value); }
    forall name | name in next.workers ensures Tracks(next.db, name, next.workers[name]) {
      NextTracks(s, m, name);
    }
  }

  lemma NextTracks(s: System, m: Move, name: string)
    requires WorkersInv(s) && name in NextWorkers(s, m)
    ensures Tracks(NextDb(s, m), name, NextWorkers(s, m)[name])
  {
    hide RowInv, Apply;
    if name !in s.workers {
      ClaimTracks(s.db, m.task, name, m.now, m.ttl);
    } else {
      var w := s.workers[name];
      assert Tracks(s.db, name, w);
      if StepOf(s, m).Some? {
        var step := StepOf(s, m).value;
        if m.Leaves? && m.name == name {
          OthersKeepTracks(s.db, step, name, w.(phase := Gone));
        } else {
          if step.MoveStep? {
            assert (m.Advances? || m.Leaves?) && step.lease == s.workers[m.name].lease;
            assert Tracks(s.db, m.name, s.workers[m.name]);
          }
          OthersKeepTracks(s.db, step, name, w);
        }
      }
    }
  }

  lemma {:induction false} AfterKeepsInv(s: System, moves: seq<Move>)
    requires WorkersInv(s)
    ensures WorkersInv(After(s, moves))
    decreases |moves|
  {
    if moves != [] {
      NextKeepsInv(s, moves[0]);
      AfterKeepsInv(Next(s, moves[0]), moves[1..]);
    }
  }

  /** No move takes a task straight from publishing, deploying or monitoring to queued or paused. */
  lemma EffectsAreNeverSilentlyRetried(moves: seq<Move>, m: Move, id: TaskId)
    requires id in After(START, moves).db.tasks && UnknownOutcome(After(START, moves).db.tasks[id].state)
    ensures id in Next(After(START, moves), m).db.tasks
    ensures var state := Next(After(START, moves), m).db.tasks[id].state; !state.Queued? && !state.Paused?
  {
    hide Apply;
    var s := After(START, moves);
    assert WorkersInv(START);
    AfterKeepsInv(START, moves);
    if StepOf(s, m).Some? {
      var step := StepOf(s, m).value;
      UnknownOutcomesRequeueOnlyByRelease(s.db, step, id);
      if step.ReleaseStep? {
        assert Tracks(s.db, m.name, s.workers[m.name]);
      }
    }
  }

  /** Ownership of a lease never comes back: epochs only rise and no step installs a lease of an old one. */
  lemma LostOwnershipStaysLost(db: Db, step: Step, lease: Lease)
    requires RowInv(db) && Issued(db, lease) && !Owns(db, lease)
    ensures !Owns(Apply(db, step), lease)
  {
    hide Apply, Writes;
    var id := lease.task;
    StepOnRow(db, step, id);
    var o := WriteTo(db, step, id);
    assert Shape(db.tasks[id]);
    if o.Some? && Owns(Apply(db, step), lease) {
      RowStateMoves(db.tasks[id], o.value, lease.worker, lease.epoch);
    }
  }

  /** The worker keeps its lease in hand, and has lost it. */
  ghost predicate Revoked(s: System, name: string, lease: Lease) {
    name in s.workers && s.workers[name].lease == lease && !Owns(s.db, lease)
  }

  lemma {:induction false} RevokedForGood(s: System, moves: seq<Move>, name: string, lease: Lease)
    requires WorkersInv(s) && Revoked(s, name, lease)
    ensures WorkersInv(After(s, moves)) && Revoked(After(s, moves), name, lease)
    decreases |moves|
  {
    hide RowInv, Apply, Issued, Owns;
    if moves != [] {
      var m := moves[0];
      NextKeepsInv(s, m);
      if StepOf(s, m).Some? {
        assert Tracks(s.db, name, s.workers[name]);
        LostOwnershipStaysLost(s.db, StepOf(s, m).value, lease);
      }
      RevokedForGood(Next(s, m), moves[1..], name, lease);
    }
  }

  /** A worker that has lost its lease, to control, expiry or supersession, changes nothing for ever after. */
  lemma RevokedWorkersFinishNothing(moves: seq<Move>, later: seq<Move>, m: Move, name: string)
    requires name in After(START, moves).workers
    requires !Owns(After(START, moves).db, After(START, moves).workers[name].lease)
    requires !m.Outside? && m.name == name
    ensures var s := After(After(START, moves), later);
            && name in s.workers && s.workers[name].lease == After(START, moves).workers[name].lease
            && !Owns(s.db, s.workers[name].lease)
            && Next(s, m).db == s.db
  {
    hide RowInv, Apply, Tracks, After, Next;
    var s := After(START, moves);
    assert WorkersInv(START) by { NobodyYet(); }
    AfterKeepsInv(START, moves);
    RevokedForGood(s, later, name, s.workers[name].lease);
    RevokedMove(After(s, later), m, name, s.workers[name].lease);
  }

  lemma NobodyYet()
    ensures WorkersInv(START)
  {
  }

  lemma RevokedMove(s: System, m: Move, name: string, lease: Lease)
    requires Revoked(s, name, lease) && !m.Outside? && m.name == name
    ensures Next(s, m).db == s.db
  {
  }

  /**
   How a worker leaves a task that is still its own, whatever others did since it looked: with a possible outside
   effect the task ends unresolved, with the worker's evidence; a worker that was told to stop queues it again;
   otherwise it failed, with the evidence.
   */
  lemma LeavingAnswers(moves: seq<Move>, m: Move)
    requires var s := After(START, moves);
             && m.Leaves? && m.name in s.workers && s.workers[m.name].phase.Confirmed?
             && Held(s.db, s.workers[m.name].lease, m.now)
             && s.db.tasks[s.workers[m.name].lease.task].state !in ENDED + {Paused}
    ensures var s := After(START, moves);
            var id := s.workers[m.name].lease.task;
            var was, next := s.db.tasks[id], Next(s, m);
            && id in next.db.tasks && next.workers[m.name].phase.Gone?
            && var row := next.db.tasks[id];
               && row.epoch == was.epoch && row.lease.None?
               && if was.state in EFFECTFUL then row.state == Unresolved && row.result == Some(Reported(m.evidence))
                  else if m.stopped then row.state == Queued && row.result == was.result
                  else row.state == Failed && row.result == Some(Reported(m.evidence))
  {
    hide Apply, RowInv, Issued, StoreSpec.Move, Release, Held, Writes1, After, Run;
    var s := After(START, moves);
    assert WorkersInv(START) by { NobodyYet(); }
    AfterKeepsInv(START, moves);
    var w := s.workers[m.name];
    assert Tracks(s.db, m.name, w);
    HeldIsOwned(s.db, w.lease, m.now);
    var step := StepOf(s, m).value;
    LeftBy(s.db, step);
  }

  lemma HeldIsOwned(db: Db, lease: Lease, now: real)
    requires Held(db, lease, now)
    ensures Owns(db, lease)
  {
  }

  /** A release or a transition of the holder that goes through. */
  lemma LeftBy(db: Db, step: Step)
    requires step.ReleaseStep? || (step.MoveStep? && step.state in ENDED)
    requires Held(db, step.lease, step.now) && db.tasks[step.lease.task].state !in ENDED + {Paused}
    ensures var id := step.lease.task;
            && id in Apply(db, step).tasks
            && var was, row := db.tasks[id], Apply(db, step).tasks[id];
               && row.epoch == was.epoch && row.lease.None?
               && if step.MoveStep? then row.state == step.state && row.result == Some(Reported(step.details))
                  else row.state == Queued && row.result == was.result
  {
    hide StoreSpec.Move, Release;
    if step.MoveStep? {
      MoveAnswers(db, step.lease, step.state, step.details, step.now);
    } else {
      ReleaseAnswers(db, step.lease, step.now);
    }
  }
}
