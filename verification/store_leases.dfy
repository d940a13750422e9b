/**
 Leases over runs. A step carries the stamp its caller read, in most operations before the write lock
 was taken; `Timed` adds the moment it commits. Stamps may be older than the commit but not newer.
 */
module StoreLeases {
  import opened Wrappers
  import opened Rows
  import opened StoreSpec
  import opened StoreRuns
  import opened StoreLog

  datatype Timed = Timed(step: Step, committed: real)

  ghost function RunTimed(db: Db, steps: seq<Timed>): Db
    decreases |steps|
  {
    if steps == [] then db else RunTimed(Apply(db, steps[0].step), steps[1..])
  }

  /** Commits are ordered in time and nobody reads the clock after committing. */
  ghost predicate WellTimed(from: real, steps: seq<Timed>)
    decreases |steps|
  {
    steps == [] ||
    (from <= steps[0].committed && steps[0].step.now <= steps[0].committed && WellTimed(steps[0].committed, steps[1..]))
  }

  /** The premise of the stated guarantee: every stamp is the commit time. */
  ghost predicate StampedAtCommit(steps: seq<Timed>) {
    forall t :: t in steps ==> t.step.now == t.committed
  }

  ghost predicate TokenValid(db: Db, token: Lease, now: real) {
    token.task in db.tasks && ValidLease(db.tasks[token.task], token, now)
  }

  /** A claim returned this token earlier: its epoch is not ahead of the row. */
  ghost predicate Issued(db: Db, token: Lease) {
    token.task in db.tasks && token.epoch <= db.tasks[token.task].epoch
  }

  lemma WritesAreStamped(db: Db, step: Step)
    ensures forall w :: w in Writes(db, step) ==> w.event.at == step.now
  {
    match step {
      case IngestStep(_, _, _) =>
      case RecoverStep(_) =>
      case _ =>
    }
  }

  /** A write of the step, as it lands in the table. */
  ghost predicate Wrote(db: Db, step: Step, w: Write) {
    && w in Writes(db, step)
    && w.event.at == step.now
    && RowOf(Apply(db, step), w.id) == Some(w.row)
    && Legal(RowOf(db, w.id), w)
  }

  /** Finds the write, if any, that a step makes to one row. */
  lemma WriteTo(db: Db, step: Step, id: TaskId) returns (o: Option<Write>)
    ensures o.None? ==> RowOf(Apply(db, step), id) == RowOf(db, id)
    ensures o.Some? ==> o.value.id == id && Wrote(db, step, o.value)
  {
    StepIsBatched(db, step);
    WritesAreStamped(db, step);
    BatchAt(db, Writes(db, step), id);
    o := None;
    if w :| w in Writes(db, step) && w.id == id && RowOf(PutAll(db, Writes(db, step)), id) == Some(w.row)
            && Legal(RowOf(db, id), w) {
      o := Some(w);
    }
  }

  lemma OnlyClaimsClaim(db: Db, step: Step, w: Write)
    requires w in Writes(db, step)
    ensures w.event.kind.Claimed? ==>
              && step.ClaimStep? && step.task == w.id && step.task in db.tasks
              && !RepositoryBusy(db, step.task, db.tasks[step.task].repository, step.now)
    ensures w.event.kind.LeaseRenewed? ==>
              && step.RenewStep? && step.lease.task == w.id
              && TokenValid(db, step.lease, step.now) && 0 < step.ttl
              && w.row.lease.Some? && w.row.lease.value.expires == step.now + step.ttl as real
    ensures w.event.kind.Released? ==>
        step.ReleaseStep? && step.lease.task == w.id && TokenValid(db, step.lease, step.now)
  {
    match step {
      case IngestStep(_, _, _) =>
      case RecoverStep(_) =>
      case _ =>
    }
  }

  // ----- claims and lost tokens -----

  /** Every claim takes an epoch above all earlier ones of the task. */
  lemma ClaimRaisesEpoch(db: Db, id: TaskId, worker: string, now: real, ttl: int)
    requires Claim(db, id, worker, now, ttl).Done?
    ensures var o := Claim(db, id, worker, now, ttl);
            && o.value.epoch == db.tasks[id].epoch + 1
            && Issued(o.db, o.value)
            && TokenValid(o.db, o.value, now)
            && forall earlier :: Issued(db, earlier) && earlier.task == id ==> earlier.epoch < o.value.epoch
  {
  }

  lemma IssuedStays(db: Db, steps: seq<Step>, token: Lease)
    requires RowInv(db) && Issued(db, token)
    ensures Issued(Run(db, steps), token)
  {
    RunOnRow(db, steps, token.task);
  }

  /** Two claims of one task in one run: the later epoch is strictly larger. */
  lemma ClaimsIssueRisingEpochs(
      before: seq<Step>, id: TaskId, first: string, t1: real, ttl1: int, between: seq<Step>, second: string, t2: real,
        ttl2: int)
    requires Claim(Run(EMPTY, before), id, first, t1, ttl1).Done?
    requires var mid := Claim(Run(EMPTY, before), id, first, t1, ttl1).db;
             Claim(Run(mid, between), id, second, t2, ttl2).Done?
    ensures var one := Claim(Run(EMPTY, before), id, first, t1, ttl1);
            one.value.epoch < Claim(Run(one.db, between), id, second, t2, ttl2).value.epoch
  {
    RunKeepsRows(EMPTY, before);
    var db := Run(EMPTY, before);
    var one := Claim(db, id, first, t1, ttl1);
    assert one.db == Apply(db, ClaimStep(id, first, t1, ttl1));
    StepKeepsRows(db, ClaimStep(id, first, t1, ttl1));
    IssuedStays(one.db, between, one.value);
  }

  /** The step extends the life of a lease that its stamp still saw but that is over by now. */
  ghost predicate LateRenewal(db: Db, step: Step, token: Lease, now: real) {
    && step.RenewStep?
    && step.lease.task == token.task && step.lease.worker == token.worker && step.lease.epoch == token.epoch
    && 0 < step.ttl
    && TokenValid(db, token, step.now)
    && step.now + step.ttl as real > now
  }

  /** On one row: a lost token is valid again only through a renewal of its own lease. */
  lemma RowTokenIff(before: Task, w: Write, token: Lease, lost: real, now: real)
    requires Legal(Some(before), w) && Shape(before)
    requires token.epoch <= before.epoch && !ValidLease(before, token, lost) && lost <= now && w.event.at <= now
    ensures ValidLease(w.row, token, now) <==>
              && w.event.kind.LeaseRenewed?
              && w.event.kind.worker == token.worker && before.epoch == token.epoch
              && w.row.lease.value.expires > now
  {
  }

  /** A lost token comes back exactly when a renewal stamped before the loss commits after it. */
  lemma TokenRevivesIff(db: Db, step: Step, token: Lease, lost: real, now: real)
    requires RowInv(db) && Issued(db, token)
    requires !TokenValid(db, token, lost) && lost <= now && step.now <= now
    ensures Issued(Apply(db, step), token)
    ensures TokenValid(Apply(db, step), token, now) <==> LateRenewal(db, step, token, now)
  {
    StepOnRow(db, step, token.task);
    if LateRenewal(db, step, token, now) {
      assert Apply(db, step).tasks[token.task]
        == RenewedRow(db.tasks[token.task], step.now + step.ttl as real, step.now);
    } else {
      NotLateNotRevived(db, step, token, lost, now);
    }
  }

  lemma NotLateNotRevived(db: Db, step: Step, token: Lease, lost: real, now: real)
    requires RowInv(db) && Issued(db, token)
    requires !TokenValid(db, token, lost) && lost <= now && step.now <= now
    requires !LateRenewal(db, step, token, now)
    ensures !TokenValid(Apply(db, step), token, now)
  {
    var o := WriteTo(db, step, token.task);
    var before := db.tasks[token.task];
    assert Shape(before);
    if o.Some? {
      var w := o.value;
      OnlyClaimsClaim(db, step, w);
      RowTokenIff(before, w, token, lost, now);
    }
  }

  /** The token fails validation at every commit of the run. */
  ghost predicate InvalidThroughout(db: Db, steps: seq<Timed>, token: Lease)
    decreases |steps|
  {
    steps == [] ||
    (var next := Apply(db, steps[0].step);
     !TokenValid(next, token, steps[0].committed) && InvalidThroughout(next, steps[1..], token))
  }

  ghost predicate NeverRenewedLate(db: Db, steps: seq<Timed>, token: Lease)
    decreases |steps|
  {
    steps == [] ||
    (!LateRenewal(db, steps[0].step, token, steps[0].committed)
     && NeverRenewedLate(Apply(db, steps[0].step), steps[1..], token))
  }

  /** Over whole runs: a lost token stays lost exactly without late renewals of its own lease. */
  lemma {:induction false} LostTokensStayLostIff(db: Db, steps: seq<Timed>, token: Lease, lost: real)
    requires RowInv(db) && Issued(db, token) && !TokenValid(db, token, lost) && WellTimed(lost, steps)
    ensures InvalidThroughout(db, steps, token) <==> NeverRenewedLate(db, steps, token)
    decreases |steps|
  {
    hide RowInv, Issued, TokenValid, LateRenewal, Apply;
    if steps != [] {
      var t := steps[0];
      TokenRevivesIff(db, t.step, token, lost, t.committed);
      if !TokenValid(Apply(db, t.step), token, t.committed) {
        StepKeepsRows(db, t.step);
        LostTokensStayLostIff(Apply(db, t.step), steps[1..], token, t.committed);
      }
    }
  }

  /** No lease comes back to life: lost at some moment, lost at every later one. */
  lemma {:induction false} NoLeaseRevives(db: Db, steps: seq<Timed>, token: Lease, lost: real, now: real)
    requires RowInv(db) && Issued(db, token) && !TokenValid(db, token, lost)
    requires lost <= now && WellTimed(lost, steps) && StampedAtCommit(steps)
    requires forall t :: t in steps ==> t.committed <= now
    ensures !TokenValid(RunTimed(db, steps), token, now)
    decreases |steps|
  {
    if steps != [] {
      var t := steps[0];
      assert t in steps;
      TokenRevivesIff(db, t.step, token, lost, t.committed);
      TokenDeadLater(db, token, lost, t.step.now);
      StepKeepsRows(db, t.step);
      forall u | u in steps[1..] ensures u in steps {}
      NoLeaseRevives(Apply(db, t.step), steps[1..], token, t.committed, now);
    }
  }

  lemma TokenDeadLater(db: Db, token: Lease, lost: real, now: real)
    requires !TokenValid(db, token, lost) && lost <= now
    ensures !TokenValid(db, token, now)
  {
  }

  // ----- one live lease per repository -----

  ghost predicate Exclusive(db: Db, now: real) {
    forall a, b :: a in db.tasks && b in db.tasks && a != b && db.tasks[a].repository == db.tasks[b].repository ==>
      !(LiveAt(db.tasks[a], now) && LiveAt(db.tasks[b], now))
  }

  /** A renewal that commits after its lease was over and another task of the repository took its place. */
  ghost predicate Overtaken(db: Db, step: Step, now: real) {
    && step.RenewStep?
    && LateRenewal(db, step, step.lease, now)
    && !LiveAt(db.tasks[step.lease.task], now)
    && RepositoryBusy(db, step.lease.task, db.tasks[step.lease.task].repository, now)
  }

  lemma RowLiveBecause(before: Option<Task>, w: Write, now: real)
    requires Legal(before, w) && LiveAt(w.row, now)
    ensures before.Some?
    ensures LiveAt(before.value, now) || w.event.kind.Claimed? || w.event.kind.LeaseRenewed?
    ensures w.event.kind.LeaseRenewed? ==> w.row.lease.value.expires == w.event.kind.expires
  {
  }

  /** A row that is live after a step was live before, or the step claimed or renewed it. */
  lemma LiveBecause(db: Db, step: Step, id: TaskId, now: real)
    requires RowInv(db) && step.now <= now
    requires id in Apply(db, step).tasks && LiveAt(Apply(db, step).tasks[id], now)
    ensures id in db.tasks
    ensures || LiveAt(db.tasks[id], now)
            || (step.ClaimStep? && step.task == id && !RepositoryBusy(db, id, db.tasks[id].repository, step.now))
            || (step.RenewStep? && step.lease.task == id && LateRenewal(db, step, step.lease, now))
  {
    var o := WriteTo(db, step, id);
    if o.Some? {
      var w := o.value;
      RowLiveBecause(RowOf(db, id), w, now);
      OnlyClaimsClaim(db, step, w);
    }
  }

  lemma StepKeepsExclusion(db: Db, step: Step, now: real)
    requires RowInv(db) && Exclusive(db, now) && step.now <= now && !Overtaken(db, step, now)
    ensures Exclusive(Apply(db, step), now)
  {
    var next := Apply(db, step);
    forall a, b | a in next.tasks && b in next.tasks && a != b && next.tasks[a].repository == next.tasks[b].repository
      ensures !(LiveAt(next.tasks[a], now) && LiveAt(next.tasks[b], now))
    {
      if LiveAt(next.tasks[a], now) && LiveAt(next.tasks[b], now) {
        LiveBecause(db, step, a, now);
        LiveBecause(db, step, b, now);
        StepOnRow(db, step, a);
        StepOnRow(db, step, b);
      }
    }
  }

  /** For every state and step: exclusion survives exactly when the step is not an overtaken renewal. */
  lemma ExclusionBreaksIff(db: Db, step: Step, now: real)
    requires RowInv(db) && Exclusive(db, now) && step.now <= now
    ensures Exclusive(Apply(db, step), now) <==> !Overtaken(db, step, now)
  {
    if Overtaken(db, step, now) {
      var id := step.lease.task;
      var other :| other in db.tasks && other != id && db.tasks[other].repository == db.tasks[id].repository
                   && LiveAt(db.tasks[other], now);
      var next := Apply(db, step);
      assert next.tasks[other] == db.tasks[other];
      assert LiveAt(next.tasks[id], now);
    } else {
      StepKeepsExclusion(db, step, now);
    }
  }

  ghost predicate ExclusiveThroughout(db: Db, steps: seq<Timed>)
    decreases |steps|
  {
    steps == [] ||
    (var next := Apply(db, steps[0].step); Exclusive(next, steps[0].committed) && ExclusiveThroughout(next, steps[1..]))
  }

  ghost predicate NeverOvertaken(db: Db, steps: seq<Timed>)
    decreases |steps|
  {
    steps == [] ||
    (!Overtaken(db, steps[0].step, steps[0].committed) && NeverOvertaken(Apply(db, steps[0].step), steps[1..]))
  }

  /** Over whole runs: one live lease per repository at every commit, exactly without overtaken renewals. */
  lemma {:induction false} RepositoryExclusionIff(db: Db, from: real, steps: seq<Timed>)
    requires RowInv(db) && Exclusive(db, from) && WellTimed(from, steps)
    ensures ExclusiveThroughout(db, steps) <==> NeverOvertaken(db, steps)
    decreases |steps|
  {
    if steps != [] {
      var t := steps[0];
      ExclusiveLater(db, from, t.committed);
      ExclusionBreaksIff(db, t.step, t.committed);
      if Exclusive(Apply(db, t.step), t.committed) {
        StepKeepsRows(db, t.step);
        RepositoryExclusionIff(Apply(db, t.step), t.committed, steps[1..]);
      }
    }
  }

  lemma ExclusiveLater(db: Db, from: real, now: real)
    requires Exclusive(db, from) && from <= now
    ensures Exclusive(db, now)
  {
  }

  lemma {:induction false} CommitStampsAreNeverOvertaken(db: Db, steps: seq<Timed>)
    requires StampedAtCommit(steps)
    ensures NeverOvertaken(db, steps)
    decreases |steps|
  {
    if steps != [] {
      assert steps[0] in steps;
      forall u | u in steps[1..] ensures u in steps {}
      CommitStampsAreNeverOvertaken(Apply(db, steps[0].step), steps[1..]);
    }
  }

  /** Under the premise that stamps never go back, two tasks of a repository never hold live leases together. */
  lemma RepositoryMutualExclusion(from: real, steps: seq<Timed>)
    requires WellTimed(from, steps) && StampedAtCommit(steps)
    ensures ExclusiveThroughout(EMPTY, steps)
  {
    CommitStampsAreNeverOvertaken(EMPTY, steps);
    RepositoryExclusionIff(EMPTY, from, steps);
  }

  /** Two tasks of one repository; worker "a" lost the first, worker "b" took the second. */
  const CONTENDED := Db(
    map[1 := ClaimedRow(NewRow("r", "{}", None, Queued, 0.0), "a", 10.0, 0.0),
        2 := ClaimedRow(NewRow("r", "{}", None, Queued, 0.0), "b", 21.0, 11.0)],
    [Event(1, Created(None, false), Queued, 0, 0.0), Event(2, Created(None, false), Queued, 0, 0.0),
     Event(1, Claimed("a", 10.0, None), Queued, 1, 0.0), Event(2, Claimed("b", 21.0, None), Queued, 1, 11.0)],
    EMPTY.files)

  const CONTENTION := [
    CreateStep(1, "r", "{}", None, 0.0), CreateStep(2, "r", "{}", None, 0.0),
    ClaimStep(1, "a", 0.0, 10), ClaimStep(2, "b", 11.0, 10)]

  lemma ContendedIsReachable()
    ensures Run(EMPTY, CONTENTION) == CONTENDED
  {
    var queued := NewRow("r", "{}", None, Queued, 0.0);
    var d1 := EMPTY.(tasks := map[1 := queued], log := CONTENDED.log[..1]);
    var d2 := EMPTY.(tasks := map[1 := queued, 2 := queued], log := CONTENDED.log[..2]);
    var d3 := EMPTY.(tasks := map[1 := ClaimedRow(queued, "a", 10.0, 0.0), 2 := queued], log := CONTENDED.log[..3]);
    assert Apply(EMPTY, CONTENTION[0]) == d1 by { NotBlank(); }
    assert Apply(d1, CONTENTION[1]) == d2 by { NotBlank(); }
    assert Apply(d2, CONTENTION[2]) == d3 by { NotBlank(); }
    assert Apply(d3, CONTENTION[3]) == CONTENDED by { NotBlank(); }
    RunFour(EMPTY, CONTENTION);
  }

  lemma NotBlank()
    ensures !Blank("r") && !Blank("a") && !Blank("b")
  {
    assert "r"[0] == 'r' && "a"[0] == 'a' && "b"[0] == 'b';
  }

  lemma RunFour(db: Db, steps: seq<Step>)
    requires |steps| == 4
    ensures Run(db, steps) == Apply(Apply(Apply(Apply(db, steps[0]), steps[1]), steps[2]), steps[3])
  {
    var r1, r2, r3 := steps[1..], steps[2..], steps[3..];
    assert r1[1..] == r2 && r2[1..] == r3 && r3[1..] == [];
    var d1 := Apply(db, steps[0]);
    var d2 := Apply(d1, r1[0]);
    var d3 := Apply(d2, r2[0]);
    assert Run(d3, r3) == Run(Apply(d3, r3[0]), []);
    assert Run(d2, r2) == Run(d3, r3);
    assert Run(d1, r1) == Run(d2, r2);
  }

  const LATE_RENEWAL := RenewStep(Lease(1, "a", 1, 10.0), 9.0, 60)

  /** The premise is needed: a renewal stamped at 9 that gets the write lock at 12 ends exclusion. */
  lemma LateRenewalBreaksExclusion()
    ensures Run(EMPTY, CONTENTION) == CONTENDED
    ensures Exclusive(CONTENDED, 12.0) && !Exclusive(Apply(CONTENDED, LATE_RENEWAL), 12.0)
  {
    ContendedIsReachable();
    ContendedIsExclusive();
    LateRenewalCommits();
  }

  lemma ContendedIsExclusive()
    ensures Exclusive(CONTENDED, 12.0)
  {
    assert !LiveAt(CONTENDED.tasks[1], 12.0);
  }

  lemma LateRenewalCommits()
    ensures !Exclusive(Apply(CONTENDED, LATE_RENEWAL), 12.0)
  {
    var after := Apply(CONTENDED, LATE_RENEWAL);
    assert after.tasks == CONTENDED.tasks[1 := RenewedRow(CONTENDED.tasks[1], 69.0, 9.0)];
    assert LiveAt(after.tasks[1], 12.0) && LiveAt(after.tasks[2], 12.0);
    assert after.tasks[1].repository == after.tasks[2].repository;
  }

  // ----- stages with possible external effects -----

  /** On one row: how a task with a possible external effect may change. */
  lemma RowUnknownIff(before: Task, w: Write)
    requires Legal(Some(before), w) && Shape(before) && UnknownOutcome(before.state)
    ensures w.row.state.Queued? || w.row.state.Paused? <==> w.event.kind.Released?
    ensures w.event.kind.Controlled? || w.event.kind.LeaseExpired? || w.event.kind.Superseded? ==>
              w.row.state.Unresolved? && w.row.lease.None? && w.row.result.Some?
  {
  }

  lemma ReleaseCommits(db: Db, step: Step)
    requires RowInv(db) && step.ReleaseStep? && TokenValid(db, step.lease, step.now)
    ensures step.lease.task in Apply(db, step).tasks && Apply(db, step).tasks[step.lease.task].state.Queued?
  {
    assert Shape(db.tasks[step.lease.task]);
  }

  /** From publishing, deploying or monitoring a task returns to the queue only through `release`. */
  lemma UnknownOutcomesRequeueOnlyByRelease(db: Db, step: Step, id: TaskId)
    requires RowInv(db) && id in db.tasks && UnknownOutcome(db.tasks[id].state)
    ensures id in Apply(db, step).tasks
    ensures var after := Apply(db, step).tasks[id].state;
            (after.Queued? || after.Paused?) <==>
              step.ReleaseStep? && step.lease.task == id && TokenValid(db, step.lease, step.now)
  {
    hide Apply, Writes;
    StepOnRow(db, step, id);
    var o := WriteTo(db, step, id);
    assert Shape(db.tasks[id]);
    if o.Some? {
      OnlyClaimsClaim(db, step, o.value);
      RowUnknownIff(db.tasks[id], o.value);
    }
    if step.ReleaseStep? && step.lease.task == id && TokenValid(db, step.lease, step.now) {
      ReleaseCommits(db, step);
    }
  }

  /** Operator control, expiry and supersession end such a task as unresolved, awaiting reconciliation. */
  lemma InterruptedEffectsEndUnresolved(db: Db, step: Step, id: TaskId)
    requires RowInv(db) && id in db.tasks && UnknownOutcome(db.tasks[id].state)
    requires step.ControlStep? || step.RecoverStep? || step.IngestStep?
    ensures id in Apply(db, step).tasks
    ensures var after := Apply(db, step).tasks[id];
            after == db.tasks[id] || (after.state.Unresolved? && after.lease.None? && after.result.Some?)
  {
    hide Apply, Writes;
    StepOnRow(db, step, id);
    var o := WriteTo(db, step, id);
    assert Shape(db.tasks[id]);
    if o.Some? {
      InterruptionKinds(db, step, o.value);
      RowUnknownIff(db.tasks[id], o.value);
    }
  }

  lemma InterruptionKinds(db: Db, step: Step, w: Write)
    requires step.ControlStep? || step.RecoverStep? || step.IngestStep?
    requires w in Writes(db, step)
    ensures w.event.kind.Controlled? || w.event.kind.LeaseExpired? || w.event.kind.Superseded? || w.event.kind.Created?
  {
  }

  /** On one row: how a paused task may change. */
  lemma RowPausedIff(before: Task, w: Write)
    requires Legal(Some(before), w) && Shape(before) && before.state.Paused?
    ensures w.event.kind.Controlled? || w.event.kind.Superseded?
    ensures w.row.lease.None?
    ensures w.row.state.Queued? <==>
        w.event.kind.Controlled? && (w.event.kind.action.Resume? || w.event.kind.action.Steer?)
    ensures w.row.state.Queued? || w.row.state.Paused? || Terminal(w.row.state)
  {
  }

  lemma PausedKinds(db: Db, step: Step, w: Write)
    requires w in Writes(db, step)
    ensures w.event.kind.Controlled? ==>
        step.ControlStep? && step.task == w.id && ControlShape(step.action, step.instruction)
                                         && w.event.kind.action == step.action
    ensures w.event.kind.Superseded? ==> step.IngestStep?
  {
    match step {
      case IngestStep(_, _, _) =>
      case RecoverStep(_) =>
      case _ =>
    }
  }

  /** A paused task cannot be claimed, and only an operator or a newer delivery moves it. */
  lemma PausedTasksWait(db: Db, step: Step, id: TaskId)
    requires RowInv(db) && id in db.tasks && db.tasks[id].state.Paused?
    ensures id in Apply(db, step).tasks
    ensures Apply(db, step).tasks[id].lease.None?
    ensures Apply(db, step).tasks[id].state.Queued? ==>
              step.ControlStep? && step.task == id && (step.action.Resume? || step.action.Steer?)
    ensures var state := Apply(db, step).tasks[id].state; state.Queued? || state.Paused? || Terminal(state)
    ensures Apply(db, step).tasks[id] != db.tasks[id] ==> step.ControlStep? || step.IngestStep?
  {
    StepOnRow(db, step, id);
    var o := WriteTo(db, step, id);
    assert Shape(db.tasks[id]);
    if o.Some? {
      RowPausedIff(db.tasks[id], o.value);
      PausedKinds(db, step, o.value);
    }
  }

  /** Resuming or steering a paused task always queues it. */
  lemma ResumeOrSteerQueues(db: Db, id: TaskId, action: Action, instruction: Option<string>, now: real)
    requires id in db.tasks && db.tasks[id].state.Paused?
    requires ControlShape(action, instruction) && (action.Resume? || action.Steer?)
    ensures id in Apply(db, ControlStep(id, action, instruction, now)).tasks
    ensures Apply(db, ControlStep(id, action, instruction, now)).tasks[id].state.Queued?
  {
  }

  /** The operator lets a paused task go on. */
  predicate LetsGo(step: Step, id: TaskId) {
    step.ControlStep? && step.task == id && (step.action.Resume? || step.action.Steer?)
  }

  predicate OnHold(db: Db, id: TaskId) {
    id in db.tasks && (db.tasks[id].state.Paused? || Terminal(db.tasks[id].state)) && db.tasks[id].lease.None?
  }

  /** A paused task is paused or ended, and has no lease, until an operator resumes or steers it. */
  lemma {:induction false} PausedUntilLetGo(db: Db, steps: seq<Step>, id: TaskId)
    requires RowInv(db) && OnHold(db, id)
    requires forall i :: 0 <= i < |steps| ==> !LetsGo(steps[i], id)
    ensures OnHold(Run(db, steps), id)
    decreases |steps|
  {
    hide RowInv, Apply;
    if steps != [] {
      StepKeepsRows(db, steps[0]);
      StepOnRow(db, steps[0], id);
      if db.tasks[id].state.Paused? {
        PausedTasksWait(db, steps[0], id);
        assert !LetsGo(steps[0], id);
        HeldRowHasNoLease(Apply(db, steps[0]), id);
      }
      PausedUntilLetGo(Apply(db, steps[0]), steps[1..], id);
    }
  }

  lemma HeldRowHasNoLease(db: Db, id: TaskId)
    requires RowInv(db) && id in db.tasks && (db.tasks[id].state.Paused? || Terminal(db.tasks[id].state))
    ensures OnHold(db, id)
  {
    assert Shape(db.tasks[id]);
  }

  lemma HeldTasksAreNotClaimed(db: Db, id: TaskId, worker: string, now: real, ttl: int)
    requires OnHold(db, id)
    ensures Claim(db, id, worker, now, ttl).Rejected?
  {
  }
}
