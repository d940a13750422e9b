/**
 Execution of one check, hook or probe: as a process, or isolated in a fresh container that is journaled
 before it is asked for and removed again. A Docker call may take effect without a good reply. The unique
 name of a container is its number in the journal.
 */
module CheckExecutor {
  import opened Wrappers
  import opened EvidenceGate
  import opened Outside

  datatype Reply = Good | Bad | Raised

  /** One call of the Docker command line. */
  datatype Call = Call(effect: bool, reply: Reply)

  /** The status of an ended program: stopped, failed, or what its report says. */
  function StatusOf(kind: Kind, body: Body, report: Report): (s: Status)
    ensures s == Passed ==> body == Exited(0) && (kind.Test? ==> report.status == Passed)
    ensures body == Exited(0) && (kind.Test? ==> report.status == Passed) ==> s == Passed
    ensures s == Cancelled <==> body == StoppedAs(Cancelled) || body.Interrupted?
  {
    match body
    case Exited(code) => if code != 0 then Failed else if kind.Test? then report.status else Passed
    case StoppedAs(status) => status
    case Interrupted => Cancelled
    case Broken => Errored
  }

  function Reported(check: Check, status: Status, body: Body, report: Report): (r: Result)
    ensures r.id == check.id && r.status == status
  {
    var exit := if body.Exited? then Some(body.code) else None;
    Result(check.id, status, exit, if check.kind.Test? then Some(report) else None)
  }

  /** What a program that ran has to be reported as. */
  function Outcome(check: Check, ran: Ran): Result
    requires ran.Ran?
  {
    Reported(check, StatusOf(check.kind, ran.body, ran.report), ran.body, ran.report)
  }

  /** How each end of a program is reported, with its exit code if it has one and a test's report. */
  lemma OutcomesMean(check: Check, ran: Ran)
    requires ran.Ran?
    ensures var r := Outcome(check, ran);
            var clean := ran.body == Exited(0);
            && r.id == check.id
            && (r.exit.Some? <==> ran.body.Exited?) && (ran.body.Exited? ==> r.exit == Some(ran.body.code))
            && r.evidence == (if check.kind == Test then Some(ran.report) else None)
            && (r.status == Passed <==> clean && (check.kind == Test ==> ran.report.status == Passed))
            && (r.status == Failed <==>
                  ran.body.Exited? && (!clean || (check.kind == Test && ran.report.status == Failed)))
            && (r.status == Cancelled <==> ran.body == StoppedAs(Cancelled) || ran.body.Interrupted?)
            && (r.status == TimedOut <==> ran.body == StoppedAs(TimedOut))
            && (r.status == Errored <==> ran.body == StoppedAs(Errored) || ran.body.Broken?)
            && (r.status in {MissingEvidence, InvalidEvidence, NoTests, Skipped} <==>
                  && clean && check.kind == Test
                  && ran.report.status in {MissingEvidence, InvalidEvidence, NoTests, Skipped}
                  && r.status == ran.report.status)
  {
  }

  /** A pass is backed by exit code 0 and, for a test, by a passing report. */
  predicate Backed(check: Check, r: Result) {
    && r.id == check.id
    && (r.status == Passed ==>
          r.exit == Some(0) && (check.kind.Test? ==> TestsPassed(r.evidence)))
  }

  /** A stretch of the world's fault counter. */
  datatype Span = Span(from: nat, to: nat)

  predicate Flawless(s: Span) { s.from == s.to }

  /** The stretches follow one another without gaps. */
  predicate Adjacent(spans: seq<Span>) {
    && (forall i :: 0 <= i < |spans| ==> spans[i].from <= spans[i].to)
    && (forall i :: 0 < i < |spans| ==> spans[i - 1].to == spans[i].from)
  }

  /** Every fault in between is charged to exactly one of the stretches. */
  predicate Chained(spans: seq<Span>, from: nat, to: nat) {
    && Adjacent(spans)
    && (if spans == [] then from == to else spans[0].from == from && spans[|spans| - 1].to == to)
  }

  /**
   One execution that was asked for: whether the executor was able to run it, the faults it met itself, whether
   it found a request to cancel before it started, which program it took, and what it returned.
   */
  datatype Trial = Trial(
    check: Check, folder: Folder, able: bool, span: Span, stopped: bool, taken: Option<Ran>, result: Option<Result>)

  predicate Launched(t: Trial) { t.taken.Some? && t.taken.value.Ran? }

  /**
   Without a fault of its own an execution is stopped by a request to cancel, or its program ran and is reported
   as it ended; nothing passes or ends otherwise without having run.
   */
  predicate Fair(t: Trial) {
    Accounted(t.check, t.able, Flawless(t.span), t.stopped, t.taken, t.result)
  }

  predicate Accounted(
      check: Check, able: bool, flawless: bool, stopped: bool, taken: Option<Ran>, result: Option<Result>)
  {
    var launched := taken.Some? && taken.value.Ran?;
    && (result.Some? ==> Backed(check, result.value))
    && (flawless ==> result.Some?)
    && (stopped ==> taken.None?)
    && (result.Some? && !launched ==>
          result.value.status == Errored || (result.value.status == Cancelled && stopped))
    && (able && flawless ==>
          if stopped then result == Some(Result(check.id, Cancelled, None, None))
          else launched && result == Some(Outcome(check, taken.value)))
  }

  /** A container's end, perhaps overruled by trouble with its removal, is a fair report. */
  lemma ReportedFairly(
      check: Check, body: Body, report: Report, safe: bool, status: Status, flawless: bool, taken: Option<Ran>)
    requires if taken.Some? && taken.value.Ran? then taken.value == Ran(body, report, safe) else body.Broken?
    requires status == StatusOf(check.kind, body, report) || (status == Errored && !flawless)
    requires flawless ==> taken == Some(Ran(body, report, safe))
    ensures Accounted(check, true, flawless, false, taken, Some(Reported(check, status, body, report)))
  {
  }

  lemma RaisedFairly(check: Check, able: bool, taken: Option<Ran>)
    ensures Accounted(check, able, false, false, taken, None)
  {
  }

  lemma Raising(
      check: Check, able: bool, flawless: bool, stopped: bool, taken: Option<Ran>, result: Option<Result>)
    requires flawless ==> Accounted(check, able, flawless, stopped, taken, result)
    ensures result.None? ==> !flawless
  {
  }

  function Spans(trials: seq<Trial>): (r: seq<Span>)
    ensures |r| == |trials| && forall i :: 0 <= i < |trials| ==> r[i] == trials[i].span
  {
    seq(|trials|, i requires 0 <= i < |trials| => trials[i].span)
  }

  function ToSeq(taken: Option<Ran>): seq<Ran> {
    if taken.Some? then [taken.value] else []
  }

  /** The programs that the executions took, in order. */
  function Taken(trials: seq<Trial>): seq<Ran>
    decreases |trials|
  {
    if trials == [] then [] else Taken(trials[..|trials| - 1]) + ToSeq(trials[|trials| - 1].taken)
  }

  lemma TakenNext(trials: seq<Trial>, t: Trial)
    ensures Taken(trials + [t]) == Taken(trials) + ToSeq(t.taken)
  {
    assert (trials + [t])[..|trials|] == trials;
  }

  lemma NoSpans(at: nat)
    ensures Chained([], at, at)
  {
  }

  lemma ChainedIsAdjacent(spans: seq<Span>, from: nat, to: nat)
    requires Chained(spans, from, to)
    ensures Adjacent(spans)
  {
  }

  /** A stretch lies between the ends of its chain. */
  lemma {:induction false} SpanWithin(spans: seq<Span>, from: nat, to: nat, i: nat)
    requires Chained(spans, from, to) && i < |spans|
    ensures from <= spans[i].from <= spans[i].to <= to
    decreases |spans|
  {
    var n := |spans| - 1;
    if n > 0 {
      var front := spans[..n];
      assert Chained(front, from, spans[n].from) by {
        assert front[n - 1] == spans[n - 1];
      }
      if i < n {
        assert front[i] == spans[i];
        SpanWithin(front, from, spans[n].from, i);
      } else {
        SpanWithin(front, from, spans[n].from, 0);
      }
    }
  }

  lemma ChainedNext(spans: seq<Span>, from: nat, mid: nat, to: nat)
    requires Chained(spans, from, mid) && mid <= to
    ensures Chained(spans + [Span(mid, to)], from, to)
  {
  }

  /** One more try to remove a container, and the faults it met. */
  datatype Removal = Removal(container: nat, span: Span)

  function RemovalSpans(removals: seq<Removal>): (r: seq<Span>)
    ensures |r| == |removals| && forall i :: 0 <= i < |removals| ==> r[i] == removals[i].span
  {
    seq(|removals|, i requires 0 <= i < |removals| => removals[i].span)
  }

  /** The containers among the first `n` that are not marked as removed, in order. */
  function Left(removed: seq<bool>, n: nat): (r: seq<nat>)
    requires n <= |removed|
    ensures forall i :: 0 <= i < n ==> (i in r <==> !removed[i])
    ensures forall i :: 0 <= i < |r| ==> r[i] < n
    ensures forall i, j :: 0 <= i < j < |r| ==> r[i] < r[j]
  {
    if n == 0 then []
    else
      var shorter := Left(removed, n - 1);
      assert forall i :: 0 <= i < |shorter| ==> shorter[i] in shorter;
      shorter + if removed[n - 1] then [] else [n - 1]
  }

  /** The containers left were tried once each, in order, and each is gone unless its own try met a fault. */
  ghost predicate Retried(before: seq<bool>, after: seq<bool>, n: nat, removals: seq<Removal>)
    requires n <= |before| == |after|
  {
    && |removals| == |Left(before, n)|
    && (forall i :: 0 <= i < |removals| ==>
          && removals[i].container == Left(before, n)[i] < |after|
          && (Flawless(removals[i].span) ==> after[removals[i].container]))
    && forall i :: 0 <= i < |before| && before[i] ==> after[i]
  }

  /** Every container that exists is journaled and not yet marked as removed. */
  ghost predicate Journaled(containers: set<nat>, removed: seq<bool>) {
    forall i :: i in containers ==> i < |removed| && !removed[i]
  }

  predicate AllRemoved(removed: seq<bool>) {
    forall i :: 0 <= i < |removed| ==> removed[i]
  }

  lemma NothingRetried(removed: seq<bool>)
    ensures Retried(removed, removed, 0, [])
  {
  }

  lemma AlreadyRemoved(start: seq<bool>, now: seq<bool>, n: nat, removals: seq<Removal>)
    requires n < |start| == |now| && start[n] && Retried(start, now, n, removals)
    ensures Retried(start, now, n + 1, removals)
  {
  }

  lemma RetriedNext(
      start: seq<bool>, before: seq<bool>, after: seq<bool>, n: nat, removals: seq<Removal>, span: Span)
    requires n < |start| == |before| == |after| && !start[n] && !before[n] && Retried(start, before, n, removals)
    requires after == before || after == before[n := true]
    requires Flawless(span) ==> after[n]
    ensures Retried(start, after, n + 1, removals + [Removal(n, span)])
  {
    assert Left(start, n + 1) == Left(start, n) + [n];
    hide Left;
  }

  class Executor {
    const world: World
    const isolated: bool
    var calls: seq<Call>
    var containers: set<nat>
    var removed: seq<bool>
    var errors: seq<string>
    var ready: bool

    /** Everything that was ever asked for, in order. */
    ghost var trials: seq<Trial>

    constructor (world: World, isolated: bool, calls: seq<Call>)
      ensures this.world == world && this.isolated == isolated
      ensures Sound() && !ready && errors == [] && removed == [] && containers == {} && trials == []
    {
      this.world, this.isolated, this.calls := world, isolated, calls;
      containers, removed, errors, ready, trials := {}, [], [], false, [];
    }

    /** No container escapes the journal, and one that was left behind is on record as an error. */
    ghost predicate Sound()
      reads this
    {
      && Journaled(containers, removed) && (errors == [] ==> AllRemoved(removed))
      && forall i :: 0 <= i < |trials| ==> Fair(trials[i])
    }

    /** The next call, and whether it had to have an effect to be of use. */
    method Ask(acts: bool) returns (c: Call)
      modifies this`calls, world`faults
      ensures c == if old(calls) == [] then Call(false, Raised) else old(calls)[0]
      ensures calls == if old(calls) == [] then [] else old(calls)[1..]
      ensures world.faults == old(world.faults) + if c.reply.Good? && (acts ==> c.effect) then 0 else 1
    {
      c := Call(false, Raised);
      if calls != [] { c, calls := calls[0], calls[1..]; }
      if !(c.reply.Good? && (acts ==> c.effect)) { world.faults := world.faults + 1; }
    }

    /** `docker inspect`: whether the container exists, or nothing when that cannot be known. */
    method Inspect(i: nat) returns (present: Option<bool>)
      modifies this`calls, world`faults
      ensures present.Some? ==> present.value == (i in containers)
      ensures world.faults == old(world.faults) + if present.Some? then 0 else 1
    {
      var c := Ask(false);
      present := if c.reply.Good? then Some(i in containers) else None;
    }

    /** `prepare` of the isolation: daemon, image and source snapshot. */
    method Prepare() returns (ok: bool)
      requires Sound()
      modifies this`ready, this`errors, world`writes, world`faults
      ensures Sound() && ok == ready && old(errors) <= errors
      ensures world.faults == old(world.faults) + if ok then 0 else 1
    {
      ok := world.Write();
      if !ok { errors := errors + ["preparation failed"]; }
      ready := ok;
    }

    /** `remember`: an error on record; whether it could be persisted. */
    method Remember(message: string) returns (ok: bool)
      modifies this`errors, world`writes, world`faults
      ensures errors == old(errors) + [message]
      ensures world.faults == old(world.faults) + if ok then 0 else 1
    {
      errors := errors + [message];
      ok := world.Write();
    }

    /** `_remove`: marked as removed only once the daemon has said that the container is gone. */
    method Remove(i: nat) returns (ok: bool)
      requires Journaled(containers, removed) && i < |removed| && !removed[i]
      modifies this`calls, this`containers, this`removed, world`writes, world`faults
      ensures Journaled(containers, removed) && containers <= old(containers)
      ensures removed == old(removed) || removed == old(removed)[i := true]
      ensures ok ==> removed[i]
      ensures old(world.faults) <= world.faults && (world.faults == old(world.faults) ==> ok)
    {
      var present := Inspect(i);
      if present.None? { return false; }
      if present == Some(true) {
        var c := Ask(true);
        if c.effect { containers := containers - {i}; }
        if c.reply.Raised? || (c.reply.Bad? && i in containers) { return false; }
        if c.reply.Good? {
          var still := Inspect(i);
          if still != Some(false) { return false; }
        }
      }
      removed := removed[i := true];
      ok := world.Write();
    }

    /** Journal the container, then create and verify it; whether it can be run. */
    method Launch() returns (launched: bool)
      requires Journaled(containers, removed)
      modifies this`calls, this`containers, this`removed, world`writes, world`faults
      ensures Journaled(containers, removed) && removed == old(removed) + [false]
      ensures old(world.faults) <= world.faults && (world.faults == old(world.faults) ==> launched)
    {
      removed := removed + [false];
      var saved := world.Write();
      if !saved { return false; }
      var c := Ask(true);
      if c.effect { containers := containers + {|removed| - 1}; }
      if !c.reply.Good? || !c.effect { return false; }
      saved := world.Write();
      if !saved { return false; }
      var present := Inspect(|removed| - 1);
      launched := present == Some(true);
    }

    /** The next program. */
    method Start(signal: Signal) returns (ran: Ran, ghost taken: Option<Ran>)
      modifies world`runs, world`faults, signal, signal.marker
      ensures old(world.runs) == ToSeq(taken) + world.runs && ran == if taken.Some? then taken.value else Threw
      ensures world.faults == old(world.faults) + if ran.Ran? then 0 else 1
      ensures signal.Stays() && (!ran.Ran? ==> signal.event == old(signal.event))
      ensures ran.Ran? && (ran.body == StoppedAs(Cancelled) || ran.body.Interrupted?) ==> signal.Raised()
    {
      ran, taken := world.NextRun();
      if ran.Ran? {
        if ran.body.Interrupted? {
          signal.Set();
        } else if ran.body == StoppedAs(Cancelled) && !signal.event {
          signal.marker.Notice();
        }
      }
    }

    /** The container's end and report, `Broken` where they cannot be read, and whether trouble could be recorded. */
    method RunContained(signal: Signal)
      returns (body: Body, report: Report, safe: bool, kept: bool, ghost taken: Option<Ran>)
      requires Journaled(containers, removed)
      modifies this`calls, this`containers, this`removed, this`errors
      modifies world`writes, world`runs, world`faults, signal, signal.marker
      ensures Journaled(containers, removed) && removed == old(removed) + [false]
      ensures old(errors) <= errors && (body.Exited? ==> errors == old(errors))
      ensures old(world.runs) == ToSeq(taken) + world.runs && old(world.faults) <= world.faults
      ensures if taken.Some? && taken.value.Ran? then taken.value == Ran(body, report, safe)
              else body.Broken? && safe && signal.event == old(signal.event)
      ensures signal.Stays()
      ensures body == StoppedAs(Cancelled) || body.Interrupted? ==> signal.Raised()
      ensures world.faults == old(world.faults) ==> kept && taken == Some(Ran(body, report, safe))
    {
      body, report, safe, kept, taken := Broken, Evidence(MissingEvidence, 0, 0, 0, 0), true, true, None;
      var launched := Launch();
      if launched {
        var next;
        next, taken := Start(signal);
        if next.Ran? { body, report, safe := next.body, next.report, next.safe; }
      }
      if body.Broken? || body == StoppedAs(Errored) { kept := Remember("execution failed"); }
    }

    /** The end of an execution: remove and record the container, or record an error and fail the check. */
    method Dispose(i: nat, status: Status) returns (s: Status, ok: bool)
      requires Journaled(containers, removed) && i < |removed| && !removed[i]
      modifies this`calls, this`containers, this`removed, this`errors, world`writes, world`faults
      ensures Journaled(containers, removed) && old(errors) <= errors && |removed| == |old(removed)|
      ensures removed == old(removed) || removed == old(removed)[i := true]
      ensures if removed[i] && errors == old(errors) then s == status else s == Errored && errors != old(errors)
      ensures old(world.faults) <= world.faults && (world.faults == old(world.faults) ==> ok && errors == old(errors))
    {
      s, ok := status, true;
      var gone := Remove(i);
      if !gone {
        ok := Remember("container cleanup failed");
        s := Errored;
      }
      var saved := world.Write();
      if !saved {
        var noted := Remember("cannot persist container state");
        s, ok := Errored, ok && noted;
      }
    }

    /** The container of one check, from its journal entry to its removal, which may overrule its status. */
    method RunAndRemove(kind: Kind, signal: Signal)
      returns (body: Body, report: Report, safe: bool, status: Status, ok: bool, ghost taken: Option<Ran>)
      requires Sound()
      modifies this`calls, this`containers, this`removed, this`errors
      modifies world`writes, world`runs, world`faults, signal, signal.marker
      ensures Sound() && old(errors) <= errors
      ensures status == Passed ==> errors == old(errors) && removed == old(removed) + [true]
      ensures status == StatusOf(kind, body, report) || (status == Errored && world.faults != old(world.faults))
      ensures old(world.runs) == ToSeq(taken) + world.runs && old(world.faults) <= world.faults
      ensures if taken.Some? && taken.value.Ran? then taken.value == Ran(body, report, safe)
              else body.Broken? && signal.event == old(signal.event)
      ensures signal.Stays() && (status == Cancelled ==> signal.Raised())
      ensures world.faults == old(world.faults) ==> ok && taken == Some(Ran(body, report, safe))
    {
      hide Fair;
      var at := |removed|;
      var kept, noted;
      body, report, safe, kept, taken := RunContained(signal);
      status, noted := Dispose(at, StatusOf(kind, body, report));
      ok := kept && noted;
    }

    /** The report of one container, collected and turned into a result. */
    method RunAndReport(check: Check, signal: Signal) returns (r: Option<Result>, ghost taken: Option<Ran>)
      requires Sound()
      modifies this`calls, this`containers, this`removed, this`errors
      modifies world`writes, world`runs, world`faults, signal, signal.marker
      ensures Sound() && old(errors) <= errors && Executed(check, true, false, taken, r, signal)
      ensures r.Some? && r.value.status == Passed ==> errors == old(errors) && removed == old(removed) + [true]
    {
      hide Accounted, StatusOf, Reported, Fair;
      var body, report, safe, status, ok;
      body, report, safe, status, ok, taken := RunAndRemove(check.kind, signal);
      RaisedFairly(check, true, taken);
      if !ok { return None, taken; }
      var collected := Collect(check, report, safe);
      if !collected { return None, taken; }
      ReportedFairly(check, body, report, safe, status, world.faults == old(world.faults), taken);
      r := Some(Reported(check, status, body, report));
    }

    /** A report that cannot be collected safely is an error on record. */
    method Collect(check: Check, report: Report, safe: bool) returns (ok: bool)
      modifies this`errors, world`writes, world`faults
      ensures old(errors) <= errors && (check.kind.Test? && report.status == Passed ==> errors == old(errors))
      ensures !check.kind.Test? ==> errors == old(errors)
      ensures old(world.faults) <= world.faults && (world.faults == old(world.faults) ==> ok)
    {
      ok := true;
      if check.kind.Test? && !safe && report.status.InvalidEvidence? { ok := Remember("evidence collection failed"); }
    }

    /** One check in a container: `None` when it raises. A pass means the container ended with 0 and is gone. */
    method Contain(check: Check, signal: Signal)
      returns (r: Option<Result>, ghost stopped: bool, ghost taken: Option<Ran>)
      requires Sound()
      modifies this`calls, this`containers, this`removed, this`errors
      modifies world`writes, world`runs, world`faults, signal, signal.marker
      ensures Sound() && old(errors) <= errors && Executed(check, ready, stopped, taken, r, signal)
      ensures r.Some? && r.value.status == Passed ==> errors == old(errors) && removed == old(removed) + [true]
      ensures old(signal.Due()) ==> taken.None?
      ensures stopped ==> old(signal.Due()) && signal.Raised()
    {
      stopped, taken := false, None;
      if !ready { return Some(Result(check.id, Errored, None, None)), false, None; }
      var made := world.Write();
      if !made { return None, false, None; }
      made := world.Write();
      if !made {
        var kept := Remember("execution failed");
        if !kept { return None, false, None; }
        return Some(Reported(check, Errored, Broken, Evidence(MissingEvidence, 0, 0, 0, 0))), false, None;
      }
      var cancelled := signal.Found();
      if cancelled { return Some(Result(check.id, Cancelled, None, None)), true, None; }
      r, taken := RunAndReport(check, signal);
    }

    /** What an execution took from the world, and that it can be charged with its faults alone. */
    twostate predicate Executed(
        check: Check, able: bool, stopped: bool, new taken: Option<Ran>, new r: Option<Result>, signal: Signal)
      reads world, signal, signal.marker
    {
      && Accounted(check, able, world.faults == old(world.faults), stopped, taken, r)
      && old(world.faults) <= world.faults && old(world.runs) == ToSeq(taken) + world.runs
      && (taken.None? || !taken.value.Ran? ==> signal.event == old(signal.event))
      && (r.Some? ==> r.value.id == check.id && (r.value.status == Cancelled ==> signal.Raised()))
      && signal.Stays()
    }

    /** `execute_check`, with the event and marker file it is handed. */
    method Execute(check: Check, signal: Signal)
      returns (r: Option<Result>, ghost stopped: bool, ghost taken: Option<Ran>)
      requires Sound()
      modifies this`calls, this`containers, this`removed, this`errors
      modifies world`writes, world`runs, world`faults, signal, signal.marker
      ensures Sound() && old(errors) <= errors
      ensures Executed(check, isolated ==> ready, stopped, taken, r, signal)
      ensures !isolated ==> errors == old(errors) && removed == old(removed)
      ensures old(signal.Due()) ==> taken.None?
      ensures stopped ==> old(signal.Due()) && signal.Raised()
    {
      stopped, taken := false, None;
      if isolated {
        r, stopped, taken := Contain(check, signal);
        return;
      }
      var saved := world.Write();
      if !saved { return None, false, None; }
      var cancelled := signal.Found();
      if cancelled { return Some(Result(check.id, Cancelled, None, None)), true, None; }
      var ran;
      ran, taken := Start(signal);
      match ran
      case Threw => r := None;
      case Refused(evidence) =>
        r := Some(Result(check.id, Errored, None, if check.kind.Test? then evidence else None));
      case Ran(_, _, _) => r := Some(Outcome(check, ran));
    }

    /** A new folder and an execution in it; on record with the faults it met. */
    method Attempt(check: Check, folder: Folder, signal: Signal) returns (r: Option<Result>)
      requires Sound()
      modifies this`calls, this`containers, this`removed, this`errors, this`trials
      modifies world`writes, world`runs, world`faults, signal, signal.marker
      ensures Sound() && old(errors) <= errors
      ensures |trials| == |old(trials)| + 1 && trials[..|old(trials)|] == old(trials)
      ensures var t := trials[|old(trials)|];
              && t.check == check && t.folder == folder && t.able == (isolated ==> ready) && t.result == r
              && t.span == Span(old(world.faults), world.faults) && t.span.from <= t.span.to
              && (old(signal.Due()) ==> t.taken.None?)
              && (t.stopped ==> old(signal.Due()) && signal.Raised())
              && (!Launched(t) ==> signal.event == old(signal.event))
      ensures r.Some? ==> r.value.id == check.id && (r.value.status == Cancelled ==> signal.Raised())
      ensures r.None? ==> world.faults > old(world.faults)
      ensures Taken(trials) + world.runs == old(Taken(trials) + world.runs)
      ensures signal.Stays()
      ensures !isolated ==> errors == old(errors) && removed == old(removed)
    {
      hide Taken, Journaled, AllRemoved, Accounted;
      RaisedFairly(check, isolated ==> ready, None);
      ghost var from := world.faults;
      ghost var stopped, taken := false, None;
      r := None;
      var made := world.Write();
      if made {
        r, stopped, taken := Execute(check, signal);
        Raising(check, isolated ==> ready, world.faults == from, stopped, taken, r);
      }
      ghost var t := Trial(check, folder, isolated ==> ready, Span(from, world.faults), stopped, taken, r);
      TakenNext(trials, t);
      trials := trials + [t];
    }

    /** One more try to remove a container; a failure is an error on record. */
    method Retry(i: nat) returns (gone: bool, kept: bool)
      requires Journaled(containers, removed) && i < |removed| && !removed[i]
      modifies this`calls, this`containers, this`removed, this`errors, world`writes, world`faults
      ensures Journaled(containers, removed) && old(errors) <= errors && old(world.faults) <= world.faults
      ensures removed == old(removed) || removed == old(removed)[i := true]
      ensures (gone ==> removed[i]) && (errors == old(errors) <==> gone)
      ensures world.faults == old(world.faults) ==> gone && kept
    {
      kept := true;
      gone := Remove(i);
      if !gone { kept := Remember("container cleanup failed"); }
    }

    /**
     `cleanup`: every container not yet removed is tried once more, whatever happened to the others, and a
     failure is an error on record.
     */
    method Cleanup() returns (ok: bool, ghost removals: seq<Removal>)
      requires Sound()
      modifies this`calls, this`containers, this`removed, this`errors, world`writes, world`faults
      ensures Sound() && old(errors) <= errors && old(world.faults) <= world.faults
      ensures |removed| == |old(removed)| && Retried(old(removed), removed, |removed|, removals)
      ensures Chained(RemovalSpans(removals), old(world.faults), world.faults)
      ensures world.faults == old(world.faults) ==> ok && AllRemoved(removed) && errors == old(errors)
      ensures AllRemoved(removed) ==> containers == {}
    {
      hide Fair, Retried, Chained, Left;
      ok, removals := true, [];
      assert Retried(removed, removed, 0, []) by { NothingRetried(removed); }
      assert Chained(RemovalSpans([]), world.faults, world.faults) by { NoSpans(world.faults); }
      for i := 0 to |removed|
        invariant Journaled(containers, removed) && |removed| == |old(removed)| && old(errors) <= errors
        invariant old(world.faults) <= world.faults
        invariant errors == [] ==> forall k :: 0 <= k < i ==> removed[k]
        invariant forall k :: i <= k < |removed| ==> removed[k] == old(removed)[k]
        invariant Retried(old(removed), removed, i, removals)
        invariant Chained(RemovalSpans(removals), old(world.faults), world.faults)
        invariant world.faults == old(world.faults) ==>
                    ok && errors == old(errors) && forall k :: 0 <= k < i ==> removed[k]
      {
        if !removed[i] {
          ghost var from := world.faults;
          ghost var before := removed;
          var gone, kept := Retry(i);
          if !kept { ok := false; }
          RetriedNext(old(removed), before, removed, i, removals, Span(from, world.faults));
          ChainedNext(RemovalSpans(removals), old(world.faults), from, world.faults);
          assert RemovalSpans(removals + [Removal(i, Span(from, world.faults))])
              == RemovalSpans(removals) + [Span(from, world.faults)];
          removals := removals + [Removal(i, Span(from, world.faults))];
        } else {
          AlreadyRemoved(old(removed), removed, i, removals);
        }
      }
    }
  }
}
