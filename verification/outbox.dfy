/**
 The comment outbox: one task's report row, its comments on the pull request, and any number of
 reporters that take the row, list comments, write and settle. Bodies stand for their digests.
 */
module Outbox {
  import opened Wrappers

  const LOCK_SECONDS := 300.0
  const SETTLED_SECONDS := 15.0
  const REQUEST_SECONDS := 20.0
  const MAX_PAGES := 10
  const PAGE_SIZE := 100

  datatype RowState = Pending | Retrying | Posted | Superseded | Disabled

  datatype Row = Row(
    target: string, body: string, sent: Option<string>, state: RowState,
    comment: Option<nat>, attempts: nat, next: real, locked: real)

  // ----- the transactions of the outbox -----

  /** `collect`: insert, or replace the body of a row with the same target. */
  function Collected(row: Option<Row>, target: string, body: string): Row {
    if row.None? then Row(target, body, None, Pending, None, 0, 0.0, 0.0)
    else if row.value.target != target then row.value
    else
      var state := if row.value.body != body && !row.value.state.Superseded? then Pending else row.value.state;
      row.value.(body := body, state := state)
  }

  /** What the selection of `tick` asks of a row. */
  predicate Eligible(row: Row, now: real) {
    && row.sent != Some(row.body) && !row.state.Superseded? && !row.state.Disabled?
    && row.next <= now && row.locked <= now
  }

  function Locked(row: Row, now: real): Row { row.(locked := now + LOCK_SECONDS) }

  /** A confirmed write of the body as it was when the row was taken. */
  function Settled(row: Row, taken: Row, state: RowState, comment: Option<nat>, now: real): Row {
    row.(sent := Some(taken.body), state := if row.body == taken.body then state else Pending,
         comment := comment, attempts := 0, next := now + SETTLED_SECONDS, locked := 0.0)
  }

  function Power(n: nat): nat { if n == 0 then 1 else 2 * Power(n - 1) }

  function Backoff(attempts: nat): nat {
    var delay := 15 * Power(if attempts < 5 then attempts else 5);
    if delay < 300 then delay else 300
  }

  function Retried(row: Row, taken: Row, now: real): Row {
    row.(state := Retrying, attempts := row.attempts + 1, next := now + Backoff(taken.attempts) as real, locked := 0.0)
  }

  function Dropped(row: Row): Row { row.(state := Disabled, locked := 0.0) }

  lemma BackoffGrowsToTheCap(a: nat, b: nat)
    requires a <= b
    ensures 15 <= Backoff(a) <= Backoff(b) <= 300 && (a >= 5 <==> Backoff(a) == 300)
  {
    assert Power(0) == 1 && Power(1) == 2 && Power(2) == 4;
    assert Power(3) == 8 && Power(4) == 16 && Power(5) == 32;
    assert a == 0 || a == 1 || a == 2 || a == 3 || a == 4 || a >= 5;
    assert b == 0 || b == 1 || b == 2 || b == 3 || b == 4 || b >= 5;
  }

  // ----- the system -----

  /** A comment of this account that carries the task's marker. */
  datatype Comment = Comment(id: nat, body: string)

  /** A reporter between its transactions. */
  datatype Phase =
    | Taken(row: Row, since: real)
    | Listed(row: Row, since: real, found: Option<Comment>, stale: bool)
    | Ended(row: Row, since: real, outcome: Option<RowState>, comment: Option<nat>)   // no outcome: an exception

  datatype System = System(row: Option<Row>, remote: seq<Comment>, reporters: map<string, Phase>, clock: real)

  const START := System(None, [], map[], 0.0)

  datatype Step =
    | Collect(target: string, body: string, now: real)
    | Take(reporter: string, now: real)
    | Disable(reporter: string, now: real)
    | List(reporter: string, stale: bool, now: real)
    | Fail(reporter: string, now: real)
    | Write(reporter: string, id: nat, effect: bool, reply: bool, now: real)
    | Settle(reporter: string, now: real)
    | Crash(reporter: string, now: real)

  function Moved(s: System, reporter: string, phase: Phase, now: real): System {
    s.(reporters := s.reporters[reporter := phase], clock := now)
  }

  function Finished(s: System, reporter: string, row: Row, now: real): System {
    s.(row := Some(row), reporters := s.reporters - {reporter}, clock := now)
  }

  /** The body a reporter wants to see: the report, or the notice that the head has moved on. */
  function Wanted(p: Phase, notice: string): string
    requires p.Listed?
  {
    if p.stale then notice else p.row.body
  }

  /** Whether `upsert` sends a write, and what the comments are when it took effect. */
  predicate Sends(p: Phase, notice: string)
    requires p.Listed?
  {
    if p.found.None? then !p.stale else p.found.value.body != Wanted(p, notice)
  }

  function WithWrite(remote: seq<Comment>, p: Phase, id: nat, notice: string): seq<Comment>
    requires p.Listed?
  {
    if p.found.None? then remote + [Comment(id, p.row.body)]
    else Patched(remote, p.found.value.id, Wanted(p, notice))
  }

  function Patched(remote: seq<Comment>, id: nat, body: string): seq<Comment> {
    seq(|remote|, i requires 0 <= i < |remote| => if remote[i].id == id then Comment(id, body) else remote[i])
  }

  function Next(s: System, step: Step, notice: string): System {
    match step
    case Collect(target, body, now) => s.(row := Some(Collected(s.row, target, body)), clock := now)
    case Take(r, now) =>
      if s.row.Some? && Eligible(s.row.value, now) && r !in s.reporters
      then Moved(s.(row := Some(Locked(s.row.value, now))), r, Taken(s.row.value, now), now)
      else s.(clock := now)
    case Disable(r, now) =>
      if r in s.reporters && s.reporters[r].Taken? && s.row.Some? then Finished(s, r, Dropped(s.row.value), now)
      else s.(clock := now)
    case List(r, stale, now) =>
      if r in s.reporters && s.reporters[r].Taken? then
        var p := s.reporters[r];
        Moved(s, r, if |s.remote| > 1 then Ended(p.row, p.since, None, None)
                    else Listed(p.row, p.since, if s.remote == [] then None else Some(s.remote[0]), stale), now)
      else s.(clock := now)
    case Fail(r, now) =>
      if r in s.reporters then Moved(s, r, Ended(s.reporters[r].row, s.reporters[r].since, None, None), now)
      else s.(clock := now)
    case Write(r, id, effect, reply, now) =>
      if r in s.reporters && s.reporters[r].Listed? then
        var p := s.reporters[r];
        var sends := Sends(p, notice);
        var comment := if p.found.Some? then Some(p.found.value.id) else if sends then Some(id) else None;
        var outcome := if sends && !(effect && reply) then None else Some(if p.stale then Superseded else Posted);
        Moved(s.(remote := if sends && effect then WithWrite(s.remote, p, id, notice) else s.remote),
              r, Ended(p.row, p.since, outcome, comment), now)
      else s.(clock := now)
    case Settle(r, now) =>
      if r in s.reporters && s.reporters[r].Ended? && s.row.Some? then
        var p := s.reporters[r];
        Finished(s, r, if p.outcome.Some? then Settled(s.row.value, p.row, p.outcome.value, p.comment, now)
                       else Retried(s.row.value, p.row, now), now)
      else s.(clock := now)
    case Crash(r, now) => s.(reporters := s.reporters - {r}, clock := now)
  }

  function Run(s: System, steps: seq<Step>, notice: string): System
    decreases |steps|
  {
    if steps == [] then s else Run(Next(s, steps[0], notice), steps[1..], notice)
  }

  function ActorOf(step: Step): Option<string> {
    match step
    case Collect(_, _, _) => None
    case Take(_, _) => None
    case Crash(_, _) => None
    case _ => Some(step.reporter)
  }

  /**
   The timing premises: clocks do not run backwards, and a reporter that has taken the row lists, writes
   and settles before its lock runs out.
   */
  predicate Timely(s: System, step: Step) {
    && s.clock <= step.now
    && (ActorOf(step).Some? && ActorOf(step).value in s.reporters ==>
          step.now < s.reporters[ActorOf(step).value].since + LOCK_SECONDS)
  }

  predicate WellTimed(s: System, steps: seq<Step>, notice: string)
    decreases |steps|
  {
    steps != [] ==> Timely(s, steps[0]) && WellTimed(Next(s, steps[0], notice), steps[1..], notice)
  }

  // ----- what well-timed runs keep -----

  predicate Live(s: System, reporter: string) {
    reporter in s.reporters && s.clock < s.reporters[reporter].since + LOCK_SECONDS
  }

  /** The live holder's lock is the row's, so there is one at most. */
  ghost predicate Exclusive(s: System) {
    && (forall r, q :: Live(s, r) && Live(s, q) ==> r == q)
    && (forall r :: Live(s, r) ==> s.row.Some? && s.row.value.locked == s.reporters[r].since + LOCK_SECONDS)
  }

  /** What the holder listed is still what is there. */
  ghost predicate ListingsHold(s: System) {
    forall r :: Live(s, r) && s.reporters[r].Listed? ==>
      s.reporters[r].found == if s.remote == [] then None else Some(s.remote[0])
  }

  predicate Shown(s: System, body: string) {
    |s.remote| == 1 && s.remote[0].body == body
  }

  /** A confirmed outcome says what the comment shows. */
  ghost predicate OutcomesHold(s: System) {
    forall r :: Live(s, r) && s.reporters[r].Ended? && s.reporters[r].outcome == Some(Posted) ==>
      Shown(s, s.reporters[r].row.body)
  }

  /** A posted row shows its newest body. */
  predicate PostedIsShown(s: System) {
    s.row.Some? && s.row.value.state.Posted? ==>
      s.row.value.sent == Some(s.row.value.body) && Shown(s, s.row.value.body)
  }

  /** The holder of a row took it in a state that can be sent, and nobody else settles it meanwhile. */
  ghost predicate HeldRowsOpen(s: System) {
    forall r :: Live(s, r) ==> s.row.Some? && (s.row.value.state.Pending? || s.row.value.state.Retrying?)
  }

  ghost predicate Inv(s: System) {
    && Exclusive(s) && ListingsHold(s) && OutcomesHold(s) && PostedIsShown(s) && HeldRowsOpen(s)
    && |s.remote| <= 1
    && (forall r :: r in s.reporters && s.reporters[r].Ended? && s.reporters[r].outcome.Some? ==>
          s.reporters[r].outcome.value.Posted? || s.reporters[r].outcome.value.Superseded?)
  }

  /** Time alone only ends holders. */
  lemma TimeKeeps(s: System, now: real)
    requires Inv(s) && s.clock <= now
    ensures Inv(s.(clock := now))
  {
    var n := s.(clock := now);
    assert forall r :: Live(n, r) ==> Live(s, r);
  }

  lemma CollectKeeps(s: System, target: string, body: string)
    requires Inv(s)
    ensures Inv(s.(row := Some(Collected(s.row, target, body))))
  {
    var n := s.(row := Some(Collected(s.row, target, body)));
    assert forall r :: Live(n, r) <==> Live(s, r);
  }

  lemma TakeKeeps(s: System, r: string, now: real)
    requires Inv(s) && s.row.Some? && Eligible(s.row.value, now) && r !in s.reporters && s.clock <= now
    ensures Inv(Moved(s.(row := Some(Locked(s.row.value, now))), r, Taken(s.row.value, now), now))
  {
    var n := Moved(s.(row := Some(Locked(s.row.value, now))), r, Taken(s.row.value, now), now);
    assert forall q :: Live(n, q) && q != r ==> Live(s, q);
    assert forall q :: Live(n, q) ==> q == r;
  }

  /** The holder moves on without touching row or comments. */
  lemma PhaseKeeps(s: System, r: string, phase: Phase)
    requires Inv(s) && Live(s, r) && phase.since == s.reporters[r].since
    requires phase.Listed? ==> phase.found == if s.remote == [] then None else Some(s.remote[0])
    requires phase.Ended? ==> phase.outcome.None?
    ensures Inv(s.(reporters := s.reporters[r := phase]))
  {
    var n := s.(reporters := s.reporters[r := phase]);
    assert forall q :: Live(n, q) <==> Live(s, q);
    assert forall q :: q in n.reporters && q != r ==> n.reporters[q] == s.reporters[q];
  }

  lemma WriteKeeps(s: System, r: string, id: nat, effect: bool, reply: bool, notice: string)
    requires Inv(s) && Live(s, r) && s.reporters[r].Listed?
    ensures Inv(Next(s, Write(r, id, effect, reply, s.clock), notice))
  {
    var n := Next(s, Write(r, id, effect, reply, s.clock), notice);
    assert forall q :: Live(n, q) <==> Live(s, q);
    assert forall q :: Live(n, q) ==> q == r;
    assert forall q :: q in n.reporters && q != r ==> n.reporters[q] == s.reporters[q];
    assert !s.row.value.state.Posted?;
  }

  lemma EndKeeps(s: System, r: string, row: Row)
    requires Inv(s) && Live(s, r)
    requires row.state.Posted? ==> row.sent == Some(row.body) && Shown(s, row.body)
    ensures Inv(s.(row := Some(row), reporters := s.reporters - {r}))
  {
    var n := s.(row := Some(row), reporters := s.reporters - {r});
    assert forall q :: Live(n, q) ==> Live(s, q) && q != r;
    assert forall q :: !Live(n, q);
  }

  lemma CrashKeeps(s: System, r: string)
    requires Inv(s)
    ensures Inv(s.(reporters := s.reporters - {r}))
  {
    var n := s.(reporters := s.reporters - {r});
    assert forall q :: Live(n, q) ==> Live(s, q);
  }

  lemma StepKeeps(s: System, step: Step, notice: string)
    requires Inv(s) && Timely(s, step)
    ensures Inv(Next(s, step, notice))
  {
    hide Inv, Eligible, Collected;
    var t := s.(clock := step.now);
    TimeKeeps(s, step.now);
    match step
    case Collect(target, body, now) => CollectKeeps(t, target, body);
    case Take(r, now) =>
      if s.row.Some? && Eligible(s.row.value, now) && r !in s.reporters { TakeKeeps(s, r, now); }
    case Disable(r, now) =>
      if r in s.reporters && s.reporters[r].Taken? && s.row.Some? { EndKeeps(t, r, Dropped(s.row.value)); }
    case List(r, stale, now) =>
      if r in s.reporters && s.reporters[r].Taken? {
        assert Next(s, step, notice) == t.(reporters := t.reporters[r := Next(s, step, notice).reporters[r]]);
        PhaseKeeps(t, r, Next(s, step, notice).reporters[r]);
      }
    case Fail(r, now) =>
      if r in s.reporters { PhaseKeeps(t, r, Ended(s.reporters[r].row, s.reporters[r].since, None, None)); }
    case Write(r, id, effect, reply, now) =>
      if r in s.reporters && s.reporters[r].Listed? { WriteKeeps(t, r, id, effect, reply, notice); }
    case Settle(r, now) =>
      if r in s.reporters && s.reporters[r].Ended? && s.row.Some? {
        SettleShows(t, r);
        EndKeeps(t, r, Next(s, step, notice).row.value);
      }
    case Crash(r, now) => CrashKeeps(t, r);
  }

  /** A settled row is posted only with its newest body, which the comment shows. */
  lemma SettleShows(s: System, r: string)
    requires Inv(s) && Live(s, r) && s.reporters[r].Ended? && s.row.Some?
    ensures var p, now := s.reporters[r], s.clock;
            var row := if p.outcome.Some? then Settled(s.row.value, p.row, p.outcome.value, p.comment, now)
                       else Retried(s.row.value, p.row, now);
            row.state.Posted? ==> row.sent == Some(row.body) && Shown(s, row.body)
  {
  }

  lemma {:induction false} RunKeeps(s: System, steps: seq<Step>, notice: string)
    requires Inv(s) && WellTimed(s, steps, notice)
    ensures Inv(Run(s, steps, notice))
    decreases |steps|
  {
    hide Inv, Next, Timely;
    if steps != [] {
      StepKeeps(s, steps[0], notice);
      RunKeeps(Next(s, steps[0], notice), steps[1..], notice);
    }
  }

  /**
   Through any collects, takes, crashes, failures and lost replies, however many reporters run: at most
   one comment with the task's marker, and a row that says posted shows its newest body.
   */
  lemma AtMostOneComment(steps: seq<Step>, notice: string)
    requires WellTimed(START, steps, notice)
    ensures |Run(START, steps, notice).remote| <= 1
    ensures PostedIsShown(Run(START, steps, notice))
  {
    RunKeeps(START, steps, notice);
  }

  // ----- no body is lost -----

  predicate TimersBounded(s: System) {
    s.row.Some? ==> s.row.value.next <= s.clock + 300.0 && s.row.value.locked <= s.clock + LOCK_SECONDS
  }

  lemma StepKeepsTimers(s: System, step: Step, notice: string)
    requires TimersBounded(s) && s.clock <= step.now && s.clock >= 0.0
    ensures TimersBounded(Next(s, step, notice)) && Next(s, step, notice).clock == step.now
  {
    hide WithWrite, Backoff;
    if step.Settle? && step.reporter in s.reporters {
      BackoffGrowsToTheCap(s.reporters[step.reporter].row.attempts, s.reporters[step.reporter].row.attempts);
    }
  }

  lemma {:induction false} RunKeepsTimers(s: System, steps: seq<Step>, notice: string)
    requires TimersBounded(s) && WellTimed(s, steps, notice) && s.clock >= 0.0
    ensures TimersBounded(Run(s, steps, notice))
    decreases |steps|
  {
    hide TimersBounded, Next;
    if steps != [] {
      StepKeepsTimers(s, steps[0], notice);
      RunKeepsTimers(Next(s, steps[0], notice), steps[1..], notice);
    }
  }

  /**
   A body that differs from the last sent one can be taken 300 seconds later at the latest, at any moment of
   any run.
   */
  lemma UnsentBodiesAreTaken(steps: seq<Step>, notice: string, later: real)
    requires WellTimed(START, steps, notice) && later >= Run(START, steps, notice).clock + 300.0
    requires var s := Run(START, steps, notice);
             s.row.Some? && s.row.value.sent != Some(s.row.value.body)
             && !s.row.value.state.Superseded? && !s.row.value.state.Disabled?
    ensures Eligible(Run(START, steps, notice).row.value, later)
  {
    RunKeepsTimers(START, steps, notice);
  }

  /** What collects make of a row while nothing else changes it. */
  function CollectedAll(row: Row, steps: seq<Step>): (r: Row)
    ensures r.target == row.target && r.sent == row.sent
    ensures r.state.Superseded? <==> row.state.Superseded?
    decreases |steps|
  {
    if steps == [] then row
    else
      var s := steps[0];
      CollectedAll(if s.Collect? then Collected(Some(row), s.target, s.body) else row, steps[1..])
  }

  /** The reporter neither settles nor drops the row, and does not die. */
  predicate KeepsHold(step: Step, reporter: string) {
    (step.Settle? || step.Disable? || step.Crash?) ==> step.reporter != reporter
  }

  predicate AllKeepHold(steps: seq<Step>, reporter: string) {
    forall i :: 0 <= i < |steps| ==> KeepsHold(steps[i], reporter)
  }

  /** While a live reporter holds the row, a step changes nothing of the row but what a collect brings. */
  lemma HeldRowOnlyCollects(s: System, step: Step, reporter: string, notice: string)
    requires Inv(s) && Timely(s, step) && KeepsHold(step, reporter)
    requires reporter in s.reporters && s.row.Some? && step.now < s.reporters[reporter].since + LOCK_SECONDS
    ensures var n := Next(s, step, notice);
            && n.row == Some(if step.Collect? then Collected(s.row, step.target, step.body) else s.row.value)
            && reporter in n.reporters && n.clock == step.now
            && n.reporters[reporter].row == s.reporters[reporter].row
            && n.reporters[reporter].since == s.reporters[reporter].since
  {
    hide WithWrite, ListingsHold, OutcomesHold, PostedIsShown, HeldRowsOpen, Sends;
    assert Live(s, reporter);
    OthersExpired(s, reporter);
  }

  lemma OthersExpired(s: System, reporter: string)
    requires Exclusive(s) && Live(s, reporter)
    ensures forall q :: q in s.reporters && q != reporter ==> s.reporters[q].since + LOCK_SECONDS <= s.clock
  {
    assert forall q :: q in s.reporters && q != reporter ==> !Live(s, q);
  }

  lemma {:induction false} HeldThroughout(s: System, steps: seq<Step>, reporter: string, notice: string)
    requires Inv(s) && WellTimed(s, steps, notice) && AllKeepHold(steps, reporter)
    requires reporter in s.reporters && s.row.Some?
    requires Run(s, steps, notice).clock < s.reporters[reporter].since + LOCK_SECONDS
    ensures var n := Run(s, steps, notice);
            && Inv(n) && s.clock <= n.clock && n.row == Some(CollectedAll(s.row.value, steps))
            && reporter in n.reporters && n.reporters[reporter].row == s.reporters[reporter].row
            && n.reporters[reporter].since == s.reporters[reporter].since
    decreases |steps|
  {
    hide Inv, Next, Timely, Collected;
    if steps != [] {
      ClocksRise(s, steps, notice);
      TimelyStep(s, steps[0]);
      HeldRowOnlyCollects(s, steps[0], reporter, notice);
      StepKeeps(s, steps[0], notice);
      HeldThroughout(Next(s, steps[0], notice), steps[1..], reporter, notice);
    }
  }

  lemma TimelyStep(s: System, step: Step)
    requires Timely(s, step)
    ensures s.clock <= step.now
  {
  }

  lemma StepSetsClock(s: System, step: Step, notice: string)
    ensures Next(s, step, notice).clock == step.now
  {
    hide WithWrite, Sends;
  }

  lemma {:induction false} ClocksRise(s: System, steps: seq<Step>, notice: string)
    requires WellTimed(s, steps, notice)
    ensures s.clock <= Run(s, steps, notice).clock
    ensures steps != [] ==> s.clock <= steps[0].now <= Run(s, steps, notice).clock
    decreases |steps|
  {
    hide Next, Timely;
    if steps != [] {
      TimelyStep(s, steps[0]);
      StepSetsClock(s, steps[0], notice);
      ClocksRise(Next(s, steps[0], notice), steps[1..], notice);
    }
  }

  predicate AllCollects(steps: seq<Step>) {
    forall i :: 0 <= i < |steps| ==> steps[i].Collect?
  }

  lemma {:induction false} CollectsOnly(s: System, steps: seq<Step>, notice: string)
    requires s.row.Some? && AllCollects(steps)
    ensures Run(s, steps, notice).row == Some(CollectedAll(s.row.value, steps))
    decreases |steps|
  {
    hide Collected;
    if steps != [] { CollectsOnly(Next(s, steps[0], notice), steps[1..], notice); }
  }

  /** Bodies are replaced alike whatever else the rows say. */
  lemma {:induction false} SameBodies(a: Row, b: Row, steps: seq<Step>)
    requires a.target == b.target && a.body == b.body
    ensures CollectedAll(a, steps).body == CollectedAll(b, steps).body
    decreases |steps|
  {
    if steps != [] {
      var s := steps[0];
      SameBodies(if s.Collect? then Collected(Some(a), s.target, s.body) else a,
                 if s.Collect? then Collected(Some(b), s.target, s.body) else b, steps[1..]);
    }
  }

  /** Nothing collected stops or postpones a row that is neither superseded nor disabled. */
  lemma {:induction false} CollectedState(row: Row, steps: seq<Step>)
    ensures var r := CollectedAll(row, steps);
            && (r.state.Disabled? ==> row.state.Disabled?) && (row.state.Pending? ==> r.state.Pending?)
            && r.next == row.next && r.locked == row.locked
    decreases |steps|
  {
    if steps != [] {
      var s := steps[0];
      CollectedState(if s.Collect? then Collected(Some(row), s.target, s.body) else row, steps[1..]);
    }
  }

  /**
   Bodies collected around a write, from the moment the row is taken, in any phase, until after the write has
   been settled. The row will be taken again exactly if the newest body is not the one recorded as sent (a
   confirmed write records its own body, an unconfirmed one leaves the record as it was), unless the write
   superseded the row, whose body had not changed by then.
   */
  lemma MidWriteBodyIsTakenIff(
      s: System, before: seq<Step>, reporter: string, now: real, after: seq<Step>, notice: string)
    requires Inv(s) && reporter in s.reporters && s.row.Some? && 0.0 <= s.clock
    requires AllKeepHold(before, reporter) && AllCollects(after) && WellTimed(s, before, notice)
    requires var t := Run(s, before, notice);
             && reporter in t.reporters && t.reporters[reporter].Ended?
             && t.clock <= now < s.reporters[reporter].since + LOCK_SECONDS
    ensures var t := Run(s, before, notice);
            var p, row := t.reporters[reporter], s.row.value;
            var n := Run(Next(t, Settle(reporter, now), notice), after, notice);
            var body := CollectedAll(CollectedAll(row, before), after).body;
            var recorded := if p.outcome.Some? then Some(p.row.body) else row.sent;
            && p.row == s.reporters[reporter].row
            && n.row.Some? && n.row.value.body == body && n.row.value.sent == recorded
            && ((exists later :: Eligible(n.row.value, later)) <==>
                  && recorded != Some(body)
                  && !(p.outcome == Some(Superseded) && CollectedAll(row, before).body == p.row.body))
            && ((exists later :: Eligible(n.row.value, later)) ==> Eligible(n.row.value, now + 300.0))
            && (p.outcome.Some? && CollectedAll(row, before).body != p.row.body && body != p.row.body ==>
                  n.row.value.state.Pending? && Eligible(n.row.value, now + SETTLED_SECONDS))
  {
    hide Inv, CollectedAll, Next, Timely;
    HeldThroughout(s, before, reporter, notice);
    var t := Run(s, before, notice);
    var p := t.reporters[reporter];
    var settled := Next(t, Settle(reporter, now), notice);
    SettledRow(t, reporter, now, notice);
    CollectsOnly(settled, after, notice);
    SameBodies(settled.row.value, t.row.value, after);
    CollectedState(settled.row.value, after);
    var row := Run(settled, after, notice).row.value;
    var late := if row.next < row.locked then row.locked else row.next;
    assert Eligible(row, late) <==> row.sent != Some(row.body) && !row.state.Superseded? && !row.state.Disabled?;
  }

  /** What settling makes of the row. */
  lemma SettledRow(t: System, reporter: string, now: real, notice: string)
    requires Inv(t) && Live(t, reporter) && t.reporters[reporter].Ended? && t.row.Some?
    ensures var p := t.reporters[reporter];
            var n := Next(t, Settle(reporter, now), notice);
            && n.row.Some? && n.row.value.body == t.row.value.body && n.row.value.target == t.row.value.target
            && n.row.value.sent == (if p.outcome.Some? then Some(p.row.body) else t.row.value.sent)
            && !n.row.value.state.Disabled? && n.row.value.locked == 0.0
            && n.row.value.next <= now + (if p.outcome.Some? then SETTLED_SECONDS else 300.0)
            && (p.outcome.Some? && t.row.value.body != p.row.body ==> n.row.value.state.Pending?)
            && (n.row.value.state.Superseded? <==> p.outcome == Some(Superseded) && t.row.value.body == p.row.body)
  {
    hide ListingsHold, OutcomesHold, PostedIsShown, Exclusive;
    BackoffGrowsToTheCap(t.reporters[reporter].row.attempts, t.reporters[reporter].row.attempts);
  }

  // ----- the row follows the reports -----

  /** The last body reported for this target, if any was. */
  function LastReport(steps: seq<Step>, target: string): Option<string> {
    if steps == [] then None
    else
      var last := steps[|steps| - 1];
      if last.Collect? && last.target == target then Some(last.body) else LastReport(steps[..|steps| - 1], target)
  }

  /** In every run, timely or not, a row keeps its target and holds the last body reported for that target. */
  lemma {:induction false} BodiesFollowReports(s: System, steps: seq<Step>, notice: string)
    requires s.row.Some?
    ensures var row := Run(s, steps, notice).row;
            var last := LastReport(steps, s.row.value.target);
            && row.Some? && row.value.target == s.row.value.target
            && row.value.body == (if last.Some? then last.value else s.row.value.body)
    decreases |steps|
  {
    hide Next;
    if steps != [] {
      StepFollows(s, steps[0], notice);
      BodiesFollowReports(Next(s, steps[0], notice), steps[1..], notice);
      LastReportFrom(steps, s.row.value.target);
    }
  }

  lemma StepFollows(s: System, step: Step, notice: string)
    requires s.row.Some?
    ensures var row := Next(s, step, notice).row;
            && row.Some? && row.value.target == s.row.value.target
            && row.value.body == (if step.Collect? && step.target == s.row.value.target then step.body
                                  else s.row.value.body)
  {
    hide Sends, WithWrite, Backoff;
  }

  lemma {:induction false} LastReportFrom(steps: seq<Step>, target: string)
    requires steps != []
    ensures var rest := LastReport(steps[1..], target);
            LastReport(steps, target) == if rest.Some? then rest
                                         else if steps[0].Collect? && steps[0].target == target then Some(steps[0].body)
                                         else None
    decreases |steps|
  {
    var n := |steps| - 1;
    if n > 0 {
      LastReportFrom(steps[..n], target);
      assert steps[1..][..n - 1] == steps[..n][1..];
    } else {
      assert steps[1..] == [] && steps[..n] == [];
    }
  }

  // ----- superseded is final -----

  lemma {:induction false} SupersededIsFinal(s: System, steps: seq<Step>, notice: string)
    requires Inv(s) && WellTimed(s, steps, notice) && s.row.Some? && s.row.value.state.Superseded?
    ensures Run(s, steps, notice).row == Some(CollectedAll(s.row.value, steps))
    ensures Run(s, steps, notice).row.value.state.Superseded?
    ensures Run(s, steps, notice).remote == s.remote
    decreases |steps|
  {
    hide Next, Inv, Collected;
    if steps != [] {
      StepKeeps(s, steps[0], notice);
      SupersededStays(s, steps[0], notice);
      SupersededIsFinal(Next(s, steps[0], notice), steps[1..], notice);
    }
  }

  lemma SupersededStays(s: System, step: Step, notice: string)
    requires Inv(s) && Timely(s, step) && s.row.Some? && s.row.value.state.Superseded?
    ensures Next(s, step, notice).row
         == Some(if step.Collect? then Collected(s.row, step.target, step.body) else s.row.value)
    ensures Next(s, step, notice).row.value.state.Superseded?
    ensures Next(s, step, notice).remote == s.remote
  {
    hide ListingsHold, OutcomesHold, PostedIsShown, Exclusive, WithWrite;
    assert forall r :: r in s.reporters ==> s.clock >= s.reporters[r].since + LOCK_SECONDS by {
      assert forall r :: r in s.reporters ==> !Live(s, r);
    }
  }

  // ----- what the remote comment shows -----

  /** No reporter dies and the head stays where it was. */
  predicate Steady(step: Step) {
    !step.Crash? && (step.List? ==> !step.stale)
  }

  /** Without failed attempts since, the last sent body is shown until a write of the next one ends. */
  ghost predicate SentIsShown(s: System) {
    && ((s.row.Some? && s.row.value.sent.Some? && s.row.value.attempts == 0
         && forall r :: r in s.reporters ==> !s.reporters[r].Ended?) ==> Shown(s, s.row.value.sent.value))
    && (forall r :: r in s.reporters && s.reporters[r].Listed? ==> !s.reporters[r].stale)
    && (forall r :: r in s.reporters && s.reporters[r].Ended? && s.reporters[r].outcome.Some? ==>
          s.reporters[r].outcome.value.Posted?)
  }

  lemma SteadyKeeps(s: System, step: Step, notice: string)
    requires Inv(s) && Timely(s, step) && Steady(step) && SentIsShown(s)
    ensures SentIsShown(Next(s, step, notice))
  {
    hide WithWrite, Eligible, Exclusive, PostedIsShown, HeldRowsOpen;
    var n := Next(s, step, notice);
    match step
    case Collect(_, _, _) =>
    case Take(r, _) => TakenIsNotEnded(s, step, notice);
    case Disable(r, _) => assert forall q :: q in s.reporters && q !in n.reporters ==> s.reporters[q].Taken?;
    case List(r, _, _) => ListedIsNotEnded(s, step, notice);
    case Fail(r, _) => assert r in s.reporters ==> n.reporters[r].Ended?;
    case Write(r, _, _, _, _) => WroteIsEnded(s, step, notice);
    case Settle(r, _) =>
      if r in s.reporters && s.reporters[r].Ended? && s.row.Some? {
        assert Live(s, r);
      }
    case Crash(_, _) =>
  }

  lemma TakenIsNotEnded(s: System, step: Step, notice: string)
    requires step.Take? && SentIsShown(s)
    ensures SentIsShown(Next(s, step, notice))
  {
    var n := Next(s, step, notice);
    assert forall q :: q in s.reporters ==> q in n.reporters && n.reporters[q] == s.reporters[q];
  }

  lemma ListedIsNotEnded(s: System, step: Step, notice: string)
    requires step.List? && !step.stale && SentIsShown(s) && |s.remote| <= 1
    ensures SentIsShown(Next(s, step, notice))
  {
    var n := Next(s, step, notice);
    assert forall q :: q in s.reporters && q != step.reporter ==> n.reporters[q] == s.reporters[q];
  }

  lemma WroteIsEnded(s: System, step: Step, notice: string)
    requires step.Write? && SentIsShown(s)
    ensures SentIsShown(Next(s, step, notice))
  {
    hide WithWrite;
    var n := Next(s, step, notice);
    assert forall q :: q in s.reporters && q != step.reporter ==> n.reporters[q] == s.reporters[q];
    if step.reporter in s.reporters && s.reporters[step.reporter].Listed? {
      assert n.reporters[step.reporter].Ended?;
    }
  }

  predicate AllSteady(steps: seq<Step>) {
    forall i :: 0 <= i < |steps| ==> Steady(steps[i])
  }

  lemma {:induction false} SteadyRunKeeps(s: System, steps: seq<Step>, notice: string)
    requires Inv(s) && WellTimed(s, steps, notice) && AllSteady(steps) && SentIsShown(s)
    ensures SentIsShown(Run(s, steps, notice))
    decreases |steps|
  {
    hide Next, Inv, SentIsShown, Timely;
    if steps != [] {
      StepKeeps(s, steps[0], notice);
      SteadyKeeps(s, steps[0], notice);
      SteadyRunKeeps(Next(s, steps[0], notice), steps[1..], notice);
    }
  }

  /** At rest, with no failed attempt since the last success, the comment shows what was last sent. */
  lemma RestingRowsAreShown(steps: seq<Step>, notice: string)
    requires WellTimed(START, steps, notice) && AllSteady(steps)
    requires var s := Run(START, steps, notice);
             s.reporters == map[] && s.row.Some? && s.row.value.sent.Some? && s.row.value.attempts == 0
    ensures Shown(Run(START, steps, notice), Run(START, steps, notice).row.value.sent.value)
  {
    SteadyRunKeeps(START, steps, notice);
  }
}
