/**
 `CommentReporter`: the outbox table, updated row by row, and one tick. Other reporters and collects may
 change the table while a tick waits on the provider; `meanwhile` is the table they leave.
 */
module CommentReporter {
  import opened Wrappers
  import opened Outbox
  import GitHubComments

  type TaskId = nat
  type Table = map<TaskId, Row>

  /** `ORDER BY next_attempt, task_id`. */
  predicate Sooner(t: Table, a: TaskId, b: TaskId)
    requires a in t && b in t
  {
    t[a].next < t[b].next || (t[a].next == t[b].next && a <= b)
  }

  /** The row a tick takes at this time, if any. */
  ghost predicate Chosen(t: Table, now: real, choice: Option<TaskId>) {
    if choice.None? then forall k :: k in t ==> !Eligible(t[k], now)
    else
      && choice.value in t && Eligible(t[choice.value], now)
      && forall k :: k in t && Eligible(t[k], now) ==> Sooner(t, choice.value, k)
  }

  /** There is only one such choice. */
  lemma ChoiceIsUnique(t: Table, now: real, a: Option<TaskId>, b: Option<TaskId>)
    requires Chosen(t, now, a) && Chosen(t, now, b)
    ensures a == b
  {
    if a.Some? && b.Some? {
      assert Sooner(t, a.value, b.value) && Sooner(t, b.value, a.value);
    }
  }

  /** What a tick leaves of the row it took, given the row it finds at the end. */
  function Outcome(row: Row, taken: Row, confirmed: bool, result: GitHubComments.Result, now: real): Row {
    if !confirmed then Dropped(row)
    else if result.Published? then Settled(row, taken, result.state, result.comment, now)
    else Retried(row, taken, now)
  }

  /**
   What each end of a tick writes. A published body is on record as sent, and the row is pending again exactly if the
   body changed meanwhile; a failure counts and waits 15 seconds, doubled with every failure up to 300; a row whose
   task or target is gone is disabled. Every end unlocks the row and keeps its target and body.
   */
  lemma OutcomesAnswer(row: Row, taken: Row, confirmed: bool, result: GitHubComments.Result, now: real)
    ensures var next := Outcome(row, taken, confirmed, result, now);
            && next.locked == 0.0 && next.target == row.target && next.body == row.body
            && (!confirmed ==> next == row.(state := Disabled, locked := 0.0))
            && (confirmed && result.Published? ==>
                  && next.sent == Some(taken.body) && next.comment == result.comment && next.attempts == 0
                  && next.next == now + 15.0
                  && next.state == (if row.body == taken.body then result.state else Pending))
            && (confirmed && result.Raised? ==>
                  && next.state == Retrying && next.sent == row.sent && next.comment == row.comment
                  && next.attempts == row.attempts + 1
                  && next.next == now + [15.0, 30.0, 60.0, 120.0, 240.0, 300.0]
                                        [if taken.attempts < 5 then taken.attempts else 5])
  {
    assert Power(0) == 1 && Power(1) == 2 && Power(2) == 4;
    assert Power(3) == 8 && Power(4) == 16 && Power(5) == 32;
    var n := taken.attempts;
    assert n == 0 || n == 1 || n == 2 || n == 3 || n == 4 || n >= 5;
  }

  /** A row is taken exactly while its body is unsent, it is neither superseded nor disabled, due and not locked. */
  lemma EligibleMeans(row: Row, now: real)
    ensures Eligible(row, now) <==>
              && (row.sent.None? || row.sent.value != row.body) && row.state in {Pending, Retrying, Posted}
              && row.next <= now && row.locked <= now
    ensures Locked(row, now) == row.(locked := now + 300.0)
  {
  }

  class Reporter {
    var rows: Table
    const client: GitHubComments.Client

    constructor ()
      ensures rows == map[] && fresh(client)
    {
      rows := map[];
      client := new GitHubComments.Client();
    }

    /** One task of `collect`. */
    method Collect(id: TaskId, target: string, body: string)
      modifies this`rows
      ensures rows == old(rows)[id := Collected(if id in old(rows) then Some(old(rows)[id]) else None, target, body)]
    {
      if id !in rows {
        rows := rows[id := Row(target, body, None, Pending, None, 0, 0.0, 0.0)];
      } else if rows[id].target == target {
        var row := rows[id];
        var state := if row.body != body && !row.state.Superseded? then Pending else row.state;
        rows := rows[id := row.(body := body, state := state)];
      } else {
        assert rows[id := rows[id]] == rows;
      }
    }

    /** The first transaction of `tick`. */
    method Take(now: real) returns (choice: Option<TaskId>)
      modifies this`rows
      ensures Chosen(old(rows), now, choice)
      ensures rows == if choice.Some? then old(rows)[choice.value := Locked(old(rows)[choice.value], now)]
          else old(rows)
    {
      choice := None;
      var left := rows.Keys;
      while left != {}
        invariant left <= rows.Keys && rows == old(rows)
        invariant choice.None? ==> forall k :: k in rows.Keys - left ==> !Eligible(rows[k], now)
        invariant choice.Some? ==> choice.value in rows && Eligible(rows[choice.value], now)
        invariant choice.Some? ==> forall k :: k in rows.Keys - left && Eligible(rows[k], now) ==>
            Sooner(rows, choice.value, k)
        decreases left
      {
        var k :| k in left;
        left := left - {k};
        if Eligible(rows[k], now) && (choice.None? || Sooner(rows, k, choice.value)) { choice := Some(k); }
      }
      if choice.Some? { rows := rows[choice.value := Locked(rows[choice.value], now)]; }
    }

    /**
     `tick` after its collect. `confirmed` is whether task, target and policy still are those of the row;
     the table at the end differs from what others left in the taken row only.
     */
    method Tick(now: real, confirmed: bool, target: GitHubComments.Target, replies: GitHubComments.Replies,
                meanwhile: Table, later: real)
      returns (choice: Option<TaskId>, sent: GitHubComments.Sent, requests: nat)
      requires |replies.pages| == MAX_PAGES && this as object != client as object
      requires forall k :: k in rows ==> k in meanwhile
      modifies this`rows, client
      ensures Chosen(old(rows), now, choice) && requests <= 4 + MAX_PAGES
      ensures choice.None? ==> rows == old(rows) && sent.Nothing?
      ensures choice.Some? ==>
                var (result, wrote) :=
                  if confirmed then GitHubComments.Upserted(target, replies)
                    else (GitHubComments.Raised, GitHubComments.Nothing);
                && sent == wrote
                && rows == meanwhile[choice.value :=
                     Outcome(meanwhile[choice.value], old(rows)[choice.value], confirmed, result, later)]
    {
      var before := rows;
      choice := Take(now);
      sent, requests := GitHubComments.Nothing, 0;
      if choice.None? { return; }
      var id := choice.value;
      var taken := before[id];
      var result: GitHubComments.Result := GitHubComments.Raised;
      if confirmed {
        result, sent, requests := client.Upsert(target, replies);
      }
      rows := meanwhile;
      var row := rows[id];
      if !confirmed {
        rows := rows[id := row.(state := Disabled, locked := 0.0)];
      } else if result.Published? {
        var state := if row.body == taken.body then result.state else Pending;
        rows := rows[id := row.(sent := Some(taken.body), state := state, comment := result.comment,
                                attempts := 0, next := later + SETTLED_SECONDS, locked := 0.0)];
      } else {
        rows := rows[id := row.(state := Retrying, attempts := row.attempts + 1,
                                next := later + Backoff(taken.attempts) as real, locked := 0.0)];
      }
      assert rows == meanwhile[id := Outcome(meanwhile[id], taken, confirmed, result, later)];
    }
  }

  // ----- one tick as steps of the outbox -----

  /** When a tick's requests begin and end, when it lists and writes, and when it settles. */
  datatype Timing = Timing(begin: real, ends: seq<real>, listed: real, wrote: real, later: real)

  /** At most fourteen requests within their timeouts, and less than 20 seconds for everything else. */
  predicate InTime(now: real, t: Timing) {
    var last := GitHubComments.LastOf(t.begin, t.ends);
    && |t.ends| <= 4 + MAX_PAGES && GitHubComments.Paced(t.begin, t.ends)
    && now <= t.begin <= t.listed <= t.wrote <= last <= t.later
    && (t.begin - now) + (t.later - last) < 20.0
  }

  /** What the provider answers of a call: what it says and whether a write takes effect, under which id. */
  datatype Call = Call(confirmed: bool, target: GitHubComments.Target, replies: GitHubComments.Replies, effect: bool,
    id: nat)

  function Answered(c: Call): (GitHubComments.Result, GitHubComments.Sent) {
    if c.confirmed then GitHubComments.Upserted(c.target, c.replies)
      else (GitHubComments.Raised, GitHubComments.Nothing)
  }

  /** The owned comments of the listing are the task's comments, and a confirmed write took effect. */
  predicate Truthful(c: Call, remote: seq<Comment>) {
    var (result, sent) := Answered(c);
    var listed := GitHubComments.ListFrom(c.replies.pages, 0);
    && (listed.Some? && c.replies.user.Some? ==>
          Shows(GitHubComments.Own(listed.value, c.replies.user.value, c.target.marker), remote))
    && (result.Published? && !sent.Nothing? ==> c.effect && (sent.Post? ==> result.comment == Some(c.id)))
  }

  predicate Shows(owned: seq<GitHubComments.Item>, remote: seq<Comment>) {
    |owned| == |remote| && forall i :: 0 <= i < |owned| ==> remote[i] == Comment(owned[i].id, owned[i].body)
  }

  function StepsOf(reporter: string, now: real, c: Call, t: Timing): seq<Step> {
    var (result, sent) := Answered(c);
    if !c.confirmed then [Outbox.Take(reporter, now), Disable(reporter, t.later)]
    else if result.Raised? && sent.Nothing? then
      [Outbox.Take(reporter, now), Fail(reporter, t.wrote), Settle(reporter, t.later)]
    else
      [Outbox.Take(reporter, now), List(reporter, GitHubComments.Stale(c.replies, c.target), t.listed),
       Write(reporter, c.id, c.effect, result.Published?, t.wrote), Settle(reporter, t.later)]
  }

  function Rewritten(remote: seq<Comment>, c: Call): seq<Comment> {
    match Answered(c).1
    case Nothing => remote
    case Post(body) => if c.effect then remote + [Comment(c.id, body)] else remote
    case Patch(id, body) => if c.effect then Patched(remote, id, body) else remote
  }

  /** After a tick: the row as its outcome leaves it, the comment as its write left it, and no reporter more. */
  function Ticked(s: System, now: real, c: Call, t: Timing): System
    requires s.row.Some?
  {
    var row := s.row.value;
    System(Some(Outcome(Locked(row, now), row, c.confirmed, Answered(c).0, t.later)), Rewritten(s.remote, c),
      s.reporters, t.later)
  }

  lemma TimelyAll(s: System, now: real, t: Timing)
    requires InTime(now, t)
    ensures now <= t.listed <= t.wrote <= t.later < now + LOCK_SECONDS
  {
    GitHubComments.PacedEnds(t.begin, t.ends);
  }

  /**
   A tick nobody interferes with is a well-timed run of outbox steps that ends with the row the tick writes:
   the timing premise of the outbox holds of every tick whose requests keep to their timeouts.
   */
  lemma TicksAreTimelyRuns(s: System, reporter: string, now: real, c: Call, t: Timing)
    requires s.row.Some? && Eligible(s.row.value, now) && reporter !in s.reporters && s.clock <= now
    requires s.row.value.body == c.target.body && InTime(now, t) && Truthful(c, s.remote)
    ensures WellTimed(s, StepsOf(reporter, now, c, t), c.target.notice)
    ensures Run(s, StepsOf(reporter, now, c, t), c.target.notice) == Ticked(s, now, c, t)
  {
    hide InTime, Truthful, GitHubComments.Upserted;
    TimelyAll(s, now, t);
    var (result, sent) := Answered(c);
    if !c.confirmed {
      DisabledRun(s, reporter, now, c, t);
    } else if result.Raised? && sent.Nothing? {
      FailedRun(s, reporter, now, c, t);
    } else {
      WrittenRun(s, reporter, now, c, t);
    }
  }

  lemma TwoSteps(s: System, a: Step, b: Step, notice: string)
    requires Timely(s, a) && Timely(Next(s, a, notice), b)
    ensures WellTimed(s, [a, b], notice) && Run(s, [a, b], notice) == Next(Next(s, a, notice), b, notice)
  {
    hide Next, Timely;
    assert [a, b][1..] == [b] && [b][1..] == [];
    assert Run(Next(s, a, notice), [b], notice) == Next(Next(s, a, notice), b, notice);
    assert WellTimed(Next(s, a, notice), [b], notice);
  }

  lemma OneMoreStep(s: System, a: Step, rest: seq<Step>, notice: string)
    requires Timely(s, a) && WellTimed(Next(s, a, notice), rest, notice)
    ensures WellTimed(s, [a] + rest, notice) && Run(s, [a] + rest, notice) == Run(Next(s, a, notice), rest, notice)
  {
    hide Next, Timely;
    assert ([a] + rest)[1..] == rest;
  }

  lemma DisabledRun(s: System, reporter: string, now: real, c: Call, t: Timing)
    requires s.row.Some? && Eligible(s.row.value, now) && reporter !in s.reporters && s.clock <= now
    requires now <= t.later < now + LOCK_SECONDS && !c.confirmed
    ensures WellTimed(s, StepsOf(reporter, now, c, t), c.target.notice)
    ensures Run(s, StepsOf(reporter, now, c, t), c.target.notice) == Ticked(s, now, c, t)
  {
    hide Eligible;
    var taken := Next(s, Outbox.Take(reporter, now), c.target.notice);
    assert taken.reporters - {reporter} == s.reporters;
    TwoSteps(s, Outbox.Take(reporter, now), Disable(reporter, t.later), c.target.notice);
  }

  lemma FailedRun(s: System, reporter: string, now: real, c: Call, t: Timing)
    requires s.row.Some? && Eligible(s.row.value, now) && reporter !in s.reporters && s.clock <= now
    requires now <= t.wrote <= t.later < now + LOCK_SECONDS && c.confirmed
    requires Answered(c) == (GitHubComments.Raised, GitHubComments.Nothing)
    ensures WellTimed(s, StepsOf(reporter, now, c, t), c.target.notice)
    ensures Run(s, StepsOf(reporter, now, c, t), c.target.notice) == Ticked(s, now, c, t)
  {
    hide Eligible, Answered;
    var notice := c.target.notice;
    var taken := Next(s, Outbox.Take(reporter, now), notice);
    var failed := Next(taken, Fail(reporter, t.wrote), notice);
    assert failed.reporters - {reporter} == s.reporters;
    TwoSteps(taken, Fail(reporter, t.wrote), Settle(reporter, t.later), notice);
    OneMoreStep(s, Outbox.Take(reporter, now), [Fail(reporter, t.wrote), Settle(reporter, t.later)], notice);
    assert StepsOf(reporter, now, c, t)
      == [Outbox.Take(reporter, now)] + [Fail(reporter, t.wrote), Settle(reporter, t.later)];
  }

  /** What a call that sends or publishes says, against the phase of the reporter that listed. */
  lemma CallIsWrite(s: System, row: Row, c: Call, since: real)
    requires c.confirmed && row.body == c.target.body && Truthful(c, s.remote)
    requires !(Answered(c).0.Raised? && Answered(c).1.Nothing?)
    ensures c.replies.first.Some? && c.replies.latest.Some? && |s.remote| <= 1
    ensures var (result, sent) := Answered(c);
            var stale := GitHubComments.Stale(c.replies, c.target);
            var p := Listed(row, since, if s.remote == [] then None else Some(s.remote[0]), stale);
            && (Sends(p, c.target.notice) <==> !sent.Nothing?)
            && (sent.Nothing? ==> result.Published?)
            && (result.Published? ==> result.state == if stale then Superseded else Posted)
            && (result.Published? ==>
                  result.comment == if p.found.Some? then Some(p.found.value.id)
                                    else if !sent.Nothing? then Some(c.id) else None)
            && (result.Published? && !sent.Nothing? ==> c.effect)
            && (!c.effect || sent.Nothing? ==> Rewritten(s.remote, c) == s.remote)
            && (c.effect && !sent.Nothing? ==> WithWrite(s.remote, p, c.id, c.target.notice) == Rewritten(s.remote, c))
  {
    hide GitHubComments.Own, GitHubComments.ListFrom;
  }

  /** The reporter lists, and nothing else changes. */
  lemma ListedNext(s: System, reporter: string, row: Row, since: real, stale: bool, at: real, notice: string)
    requires |s.remote| <= 1
    ensures var p := Listed(row, since, if s.remote == [] then None else Some(s.remote[0]), stale);
            Next(s.(reporters := s.reporters[reporter := Taken(row, since)]), List(reporter, stale, at), notice)
            == s.(reporters := s.reporters[reporter := p], clock := at)
  {
    assert s.reporters[reporter := Taken(row, since)][reporter := Listed(row, since, None, stale)]
        == s.reporters[reporter := Listed(row, since, None, stale)];
  }

  /** The reporter writes what its call sends, and settles. */
  lemma WroteNext(s: System, reporter: string, p: Phase, c: Call, t: Timing)
    requires reporter !in s.reporters && s.row.Some?
    requires p.Listed? && p.found == if s.remote == [] then None else Some(s.remote[0])
    requires c.confirmed && p.row.body == c.target.body && Truthful(c, s.remote)
    requires !(Answered(c).0.Raised? && Answered(c).1.Nothing?) && p.stale == GitHubComments.Stale(c.replies, c.target)
    ensures var write := Write(reporter, c.id, c.effect, Answered(c).0.Published?, t.wrote);
            Next(Next(s.(reporters := s.reporters[reporter := p]), write, c.target.notice), Settle(reporter, t.later),
              c.target.notice)
            == System(Some(Outcome(s.row.value, p.row, true, Answered(c).0, t.later)), Rewritten(s.remote, c),
              s.reporters, t.later)
  {
    hide Answered, Truthful, Sends, WithWrite, Rewritten, GitHubComments.Stale;
    CallIsWrite(s, p.row, c, p.since);
    var write := Write(reporter, c.id, c.effect, Answered(c).0.Published?, t.wrote);
    var wrote := Next(s.(reporters := s.reporters[reporter := p]), write, c.target.notice);
    assert reporter in wrote.reporters && wrote.reporters[reporter].Ended?;
    assert wrote.reporters - {reporter} == s.reporters;
  }

  lemma WrittenRun(s: System, reporter: string, now: real, c: Call, t: Timing)
    requires s.row.Some? && Eligible(s.row.value, now) && reporter !in s.reporters && s.clock <= now
    requires now <= t.listed <= t.wrote <= t.later < now + LOCK_SECONDS && c.confirmed
    requires s.row.value.body == c.target.body && Truthful(c, s.remote)
    requires !(Answered(c).0.Raised? && Answered(c).1.Nothing?)
    ensures WellTimed(s, StepsOf(reporter, now, c, t), c.target.notice)
    ensures Run(s, StepsOf(reporter, now, c, t), c.target.notice) == Ticked(s, now, c, t)
  {
    var notice, row := c.target.notice, s.row.value;
    CallIsWrite(s, row, c, now);
    hide Answered, Truthful, Rewritten, Outcome, GitHubComments.Stale, Eligible;
    var stale := GitHubComments.Stale(c.replies, c.target);
    var p := Listed(row, now, if s.remote == [] then None else Some(s.remote[0]), stale);
    var list := List(reporter, stale, t.listed);
    var write := Write(reporter, c.id, c.effect, Answered(c).0.Published?, t.wrote);
    var taken := s.(row := Some(Locked(row, now)), clock := now);
    assert Next(s, Outbox.Take(reporter, now), notice) == taken.(reporters := s.reporters[reporter := Taken(row, now)]);
    ListedNext(taken, reporter, row, now, stale, t.listed, notice);
    var listed := taken.(clock := t.listed);
    WroteNext(listed, reporter, p, c, t);
    var start, seen := taken.(reporters := s.reporters[reporter := Taken(row, now)]),
      listed.(reporters := s.reporters[reporter := p]);
    assert Timely(s, Outbox.Take(reporter, now)) && Timely(start, list) && Timely(seen, write);
    WrittenInTime(seen, reporter, write, t, notice);
    FourSteps(s, Outbox.Take(reporter, now), start, list, seen, write, Settle(reporter, t.later), notice);
  }

  lemma FourSteps(s: System, a: Step, s1: System, b: Step, s2: System, c: Step, d: Step, notice: string)
    requires Timely(s, a) && s1 == Next(s, a, notice) && Timely(s1, b) && s2 == Next(s1, b, notice)
    requires Timely(s2, c) && Timely(Next(s2, c, notice), d)
    ensures WellTimed(s, [a, b, c, d], notice)
    ensures Run(s, [a, b, c, d], notice) == Next(Next(s2, c, notice), d, notice)
  {
    hide Next, Timely;
    TwoSteps(s2, c, d, notice);
    OneMoreStep(s1, b, [c, d], notice);
    OneMoreStep(s, a, [b] + [c, d], notice);
    assert [a, b, c, d] == [a] + ([b] + [c, d]);
  }

  lemma WrittenInTime(s: System, reporter: string, write: Step, t: Timing, notice: string)
    requires reporter in s.reporters && s.reporters[reporter].Listed? && write.Write? && write.reporter == reporter
    requires write.now == t.wrote <= t.later < s.reporters[reporter].since + LOCK_SECONDS
    ensures Timely(Next(s, write, notice), Settle(reporter, t.later))
  {
    hide Sends, WithWrite;
  }
}
