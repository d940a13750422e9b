/**
 The event log explains the table: folding a task's events rebuilds its row. With it, what every
 stored row keeps over all runs.
 */
module StoreLog {
  import opened Wrappers
  import opened Rows
  import opened StoreSpec
  import opened StoreRuns

  /** Folds the events of one task, oldest first. */
  function Replay(log: seq<Event>, id: TaskId): Option<View>
    decreases |log|
  {
    if log == [] then None
    else
      var before := Replay(log[..|log| - 1], id);
      var last := log[|log| - 1];
      if last.task == id then Advance(before, last) else before
  }

  function ViewAt(db: Db, id: TaskId): Option<View> {
    if id in db.tasks then Some(ViewOf(db.tasks[id])) else None
  }

  ghost predicate LogExplains(db: Db) {
    forall id :: Replay(db.log, id) == ViewAt(db, id)
  }

  ghost predicate RowsShaped(db: Db) {
    forall id :: id in db.tasks ==> Shape(db.tasks[id])
  }

  ghost predicate EpochsRise(db: Db) {
    && (forall i :: 0 <= i < |db.log| ==>
          db.log[i].task in db.tasks && db.log[i].epoch <= db.tasks[db.log[i].task].epoch)
    && (forall i, j :: 0 <= i <= j < |db.log| && db.log[i].task == db.log[j].task ==>
          db.log[i].epoch <= db.log[j].epoch)
  }

  ghost predicate RowInv(db: Db) {
    RowsShaped(db) && LogExplains(db) && EpochsRise(db)
  }

  /** What `LegalKeeps` promises of one write. */
  ghost predicate Explained(before: Option<Task>, w: Write) {
    && Shape(w.row)
    && w.event.task == w.id
    && w.event.epoch == w.row.epoch
    && (before.Some? ==> before.value.epoch <= w.row.epoch)
    && Advance(if before.Some? then Some(ViewOf(before.value)) else None, w.event) == Some(ViewOf(w.row))
  }

  lemma ReplayOfAppended(log: seq<Event>, event: Event, id: TaskId)
    ensures Replay(log + [event], id) == if event.task == id then Advance(Replay(log, id), event) else Replay(log, id)
  {
    assert (log + [event])[..|log + [event]| - 1] == log;
  }

  lemma ExplainedKeepsLog(db: Db, w: Write)
    requires LogExplains(db) && Explained(RowOf(db, w.id), w)
    ensures LogExplains(Put(db, w))
  {
    forall id ensures Replay(Put(db, w).log, id) == ViewAt(Put(db, w), id) {
      ReplayOfAppended(db.log, w.event, id);
      assert Replay(db.log, id) == ViewAt(db, id);
    }
  }

  lemma ExplainedKeepsEpochs(db: Db, w: Write)
    requires EpochsRise(db) && w.event.task == w.id && w.event.epoch == w.row.epoch
    requires w.id in db.tasks ==> db.tasks[w.id].epoch <= w.row.epoch
    ensures EpochsRise(Put(db, w))
  {
  }

  lemma PutKeepsRows(db: Db, w: Write)
    requires RowInv(db) && Legal(RowOf(db, w.id), w)
    ensures RowInv(Put(db, w))
  {
    assert Explained(RowOf(db, w.id), w) by { LegalKeeps(RowOf(db, w.id), w); }
    ExplainedKeepsLog(db, w);
    ExplainedKeepsEpochs(db, w);
  }

  lemma {:induction false} BatchKeepsRows(db: Db, ws: seq<Write>)
    requires RowInv(db) && Batch(db, ws)
    ensures RowInv(PutAll(db, ws))
    decreases |ws|
  {
    if ws != [] {
      PutKeepsRows(db, ws[0]);
      var mid := Put(db, ws[0]);
      forall i | 0 <= i < |ws[1..]| ensures Legal(RowOf(mid, ws[1..][i].id), ws[1..][i]) {
        assert ws[1..][i] == ws[i + 1];
        assert ws[0].id != ws[i + 1].id;
      }
      BatchKeepsRows(mid, ws[1..]);
    }
  }

  lemma StepKeepsRows(db: Db, step: Step)
    requires RowInv(db)
    ensures RowInv(Apply(db, step))
  {
    StepIsBatched(db, step);
    BatchKeepsRows(db, Writes(db, step));
  }

  lemma {:induction false} RunKeepsRows(db: Db, steps: seq<Step>)
    requires RowInv(db)
    ensures RowInv(Run(db, steps))
    decreases |steps|
  {
    if steps != [] {
      StepKeepsRows(db, steps[0]);
      RunKeepsRows(Apply(db, steps[0]), steps[1..]);
    }
  }

  // ----- main results -----

  /** After any run the log rebuilds state, epoch, lease, instructions and result of every task. */
  lemma LogRefinesTable(steps: seq<Step>, id: TaskId)
    ensures Replay(Run(EMPTY, steps).log, id) == ViewAt(Run(EMPTY, steps), id)
  {
    RunKeepsRows(EMPTY, steps);
  }

  /** Epochs of one task never fall along its log. */
  lemma EventEpochsNeverFall(steps: seq<Step>, i: nat, j: nat)
    requires i <= j < |Run(EMPTY, steps).log|
    requires Run(EMPTY, steps).log[i].task == Run(EMPTY, steps).log[j].task
    ensures Run(EMPTY, steps).log[i].epoch <= Run(EMPTY, steps).log[j].epoch
  {
    RunKeepsRows(EMPTY, steps);
  }

  /** Row shape over all runs. */
  lemma ReachableRowsShaped(steps: seq<Step>, id: TaskId)
    requires id in Run(EMPTY, steps).tasks
    ensures var row := Run(EMPTY, steps).tasks[id];
            && (Terminal(row.state) || row.state.Paused? ==> row.lease.None?)
            && (row.lease.None? ==> Terminal(row.state) || row.state.Paused? || row.state.Queued?)
            && (row.lease.Some? ==> row.lease.value.epoch == row.epoch)
            && (row.result.Some? <==> Terminal(row.state))
  {
    RunKeepsRows(EMPTY, steps);
  }

  /** What one step may do to a stored row. */
  lemma StepOnRow(db: Db, step: Step, id: TaskId)
    requires RowInv(db) && id in db.tasks
    ensures id in Apply(db, step).tasks
    ensures var before, after := db.tasks[id], Apply(db, step).tasks[id];
            && before.epoch <= after.epoch
            && before.instructions <= after.instructions
            && after.repository == before.repository && after.payload == before.payload
            && after.key == before.key && after.createdAt == before.createdAt
            && (Terminal(before.state) ==> after == before)
  {
    StepIsBatched(db, step);
    var ws := Writes(db, step);
    BatchAt(db, ws, id);
    if w :| w in ws && w.id == id && RowOf(PutAll(db, ws), id) == Some(w.row) && Legal(RowOf(db, id), w) {
      assert Shape(db.tasks[id]);
      LegalKeeps(RowOf(db, id), w);
    }
  }

  lemma {:induction false} RunOnRow(db: Db, steps: seq<Step>, id: TaskId)
    requires RowInv(db) && id in db.tasks
    ensures id in Run(db, steps).tasks
    ensures db.tasks[id].epoch <= Run(db, steps).tasks[id].epoch
    ensures db.tasks[id].instructions <= Run(db, steps).tasks[id].instructions
    ensures Run(db, steps).tasks[id].repository == db.tasks[id].repository
    ensures Terminal(db.tasks[id].state) ==> Run(db, steps).tasks[id] == db.tasks[id]
    decreases |steps|
  {
    if steps != [] {
      StepOnRow(db, steps[0], id);
      StepKeepsRows(db, steps[0]);
      RunOnRow(Apply(db, steps[0]), steps[1..], id);
    }
  }

  /** A row that ended never changes again, column for column, whatever happens later. */
  lemma TerminalRowsAreFinal(first: seq<Step>, later: seq<Step>, id: TaskId)
    requires id in Run(EMPTY, first).tasks && Terminal(Run(EMPTY, first).tasks[id].state)
    ensures id in Run(EMPTY, first + later).tasks
    ensures Run(EMPTY, first + later).tasks[id] == Run(EMPTY, first).tasks[id]
  {
    RunKeepsRows(EMPTY, first);
    RunOnRow(Run(EMPTY, first), later, id);
    RunAppend(EMPTY, first, later);
  }

  /** The log is only ever appended to. */
  lemma {:induction false} LogOnlyGrows(db: Db, steps: seq<Step>)
    ensures db.log <= Run(db, steps).log
    decreases |steps|
  {
    if steps != [] {
      StepIsBatched(db, steps[0]);
      PutAllLog(db, Writes(db, steps[0]));
      LogOnlyGrows(Apply(db, steps[0]), steps[1..]);
    }
  }

  // ----- the AI budget -----

  /** Reservations of a task carry the numbers 1, 2, ... in log order. */
  ghost predicate CallsNumbered(log: seq<Event>) {
    forall i :: 0 <= i < |log| && log[i].kind.AiCallReserved? ==>
      log[i].kind.call == Reservations(log[..i], log[i].task) + 1 <= log[i].kind.limit
  }

  lemma StepKeepsNumbers(db: Db, step: Step)
    requires CallsNumbered(db.log)
    ensures CallsNumbered(Apply(db, step).log)
  {
    hide Apply, Writes, Batch, Legal, PutAll;
    StepIsBatched(db, step);
    var ws := Writes(db, step);
    PutAllLog(db, ws);
    var next := db.log + Events(ws);
    forall i | 0 <= i < |next| && next[i].kind.AiCallReserved?
      ensures next[i].kind.call == Reservations(next[..i], next[i].task) + 1 <= next[i].kind.limit
    {
      if i < |db.log| {
        assert next[..i] == db.log[..i];
      } else {
        ReservedOnlyByReserving(db, step, i - |db.log|);
        assert next[..i] == db.log;
      }
    }
  }

  lemma ReservedOnlyByReserving(db: Db, step: Step, i: nat)
    requires i < |Writes(db, step)| && Writes(db, step)[i].event.kind.AiCallReserved?
    ensures step.ReserveStep? && i == 0
    ensures var event := Writes(db, step)[i].event;
            event.kind.call == Reservations(db.log, event.task) + 1 <= event.kind.limit == step.limit
  {
    match step {
      case IngestStep(_, _, _) =>
      case RecoverStep(_) =>
      case _ =>
    }
  }

  lemma {:induction false} RunKeepsNumbers(db: Db, steps: seq<Step>)
    requires CallsNumbered(db.log)
    ensures CallsNumbered(Run(db, steps).log)
    decreases |steps|
  {
    if steps != [] {
      StepKeepsNumbers(db, steps[0]);
      RunKeepsNumbers(Apply(db, steps[0]), steps[1..]);
    }
  }

  ghost predicate LimitsBelow(log: seq<Event>, limit: nat) {
    forall i :: 0 <= i < |log| && log[i].kind.AiCallReserved? ==> log[i].kind.limit <= limit
  }

  /** The count of a task's reservations, if any, is the number of its latest one. */
  lemma {:induction false} LatestCallIsTheCount(log: seq<Event>, id: TaskId, limit: nat)
    requires CallsNumbered(log)
    requires LimitsBelow(log, limit)
    ensures Reservations(log, id) <= limit
    decreases |log|
  {
    if log != [] {
      var shorter := log[..|log| - 1];
      forall i | 0 <= i < |shorter| && shorter[i].kind.AiCallReserved?
        ensures shorter[i].kind.call == Reservations(shorter[..i], shorter[i].task) + 1 <= shorter[i].kind.limit
      {
        assert shorter[..i] == log[..i];
      }
      LatestCallIsTheCount(shorter, id, limit);
      assert log[..|log| - 1] == shorter;
    }
  }

  lemma {:induction false} LimitsLogged(db: Db, steps: seq<Step>, limit: nat)
    requires forall s :: s in steps && s.ReserveStep? ==> s.limit == limit
    requires LimitsBelow(db.log, limit)
    ensures LimitsBelow(Run(db, steps).log, limit)
    decreases |steps|
  {
    if steps != [] {
      var step, ws := steps[0], Writes(db, steps[0]);
      StepIsBatched(db, step);
      PutAllLog(db, ws);
      forall i | 0 <= i < |ws| && ws[i].event.kind.AiCallReserved? ensures ws[i].event.kind.limit <= limit {
        ReservedOnlyByReserving(db, step, i);
        assert step in steps;
      }
      assert forall s :: s in steps[1..] ==> s in steps;
      LimitsLogged(Apply(db, step), steps[1..], limit);
    }
  }

  /** With one configured limit no task is ever charged more calls, over any claims, retries and epochs. */
  lemma BudgetSurvivesEpochs(steps: seq<Step>, id: TaskId, limit: nat)
    requires forall s :: s in steps && s.ReserveStep? ==> s.limit == limit
    ensures Reservations(Run(EMPTY, steps).log, id) <= limit
    ensures CallsNumbered(Run(EMPTY, steps).log)
  {
    RunKeepsNumbers(EMPTY, steps);
    LimitsLogged(EMPTY, steps, limit);
    LatestCallIsTheCount(Run(EMPTY, steps).log, id, limit);
  }
}
