/**
 `run_plan`: preparation, checks and cleanup under cancellation and exceptions, folded into one gate that
 is rewritten at every checkpoint. `None` stands for an exception that leaves a method.
 */
module RunPlan {
  import opened Wrappers
  import opened EvidenceGate
  import opened Outside
  import opened CheckExecutor
  import Env = EnvironmentSession

  datatype RunState = Running | CancelledRun | Completed

  /** The part of `run.json` that readers act on. */
  datatype Saved = Saved(state: RunState, passed: bool)

  class Runner {
    const checks: seq<Check>
    const executor: Executor

    /** The run's own request to cancel: its event and `cancel.request`. */
    const signal: Signal

    /** The environment session, used when the plan has an environment. */
    const managed: bool
    const session: Env.Session

    var results: seq<Result>
    var executionError: bool
    var saved: Option<Saved>

    constructor (checks: seq<Check>, environment: Option<Env.EnvironmentPlan>, world: World, signal: Signal,
        marker: Marker,
                 isolated: bool, calls: seq<Call>)
      requires marker != signal.marker
      ensures Fresh() && this.checks == checks && managed == environment.Some? && this.signal == signal
      ensures environment.Some? ==> session.plan == environment.value
      ensures session.marker == marker
      ensures executor.world == world && executor.isolated == isolated && fresh(executor) && fresh(session)
    {
      this.checks, managed, this.signal := checks, environment.Some?, signal;
      var e := new Executor(world, isolated, calls);
      executor := e;
      var plan := if environment.Some? then environment.value else Env.EnvironmentPlan([], None, []);
      session := new Env.Session(plan, e, marker);
      results, executionError, saved := [], false, None;
    }

    /** Before `run_plan` starts. */
    ghost predicate Fresh()
      reads this, session, executor
    {
      && session.executor == executor && session.marker != signal.marker
      && session.Untouched() && executor.Sound()
      && results == [] && !executionError && saved.None?
      && executor.removed == [] && executor.errors == [] && executor.trials == []
    }

    ghost predicate Wired()
      reads this, session, executor
    {
      session.executor == executor && session.marker != signal.marker && session.Sound()
    }

    /** Nothing a checkpoint looks at speaks against the run. */
    ghost predicate NothingAgainst()
      reads this, session, executor
    {
      && Complete(checks, results) && !executionError
      && (managed ==> session.ready && session.cleanupComplete)
      && (executor.isolated ==> executor.ready && executor.errors == [] && AllRemoved(executor.removed))
    }

    /** `checkpoint`: the gate, and whether it could be written. */
    method Checkpoint(state: RunState) returns (gate: Saved, written: bool)
      modifies this`saved, executor.world`writes, executor.world`missed
      ensures old(executor.world.missed) <= executor.world.missed
      ensures written <==> executor.world.missed == old(executor.world.missed)
      ensures gate == Saved(state, gate.passed) && (gate.passed <==> state.Completed? && NothingAgainst())
      ensures saved == if written then Some(gate) else old(saved)
    {
      var verdict := EvaluateGate(checks, results);
      var passed := verdict.passed;
      if managed && (!session.ready || !session.cleanupComplete) { passed := false; }
      if executionError { passed := false; }
      if executor.isolated {
        var complete := AllRemoved(executor.removed);
        if !executor.ready || !complete || executor.errors != [] { passed := false; }
      }
      gate := Saved(state, passed && state.Completed?);
      written := executor.world.Checkpoint();
      if written { saved := Some(gate); }
    }

    /** One check: cancelled, not executed, or executed in a new folder; `None` when it raises. */
    method RunCheck(index: nat, ready: bool) returns (r: Option<Result>)
      requires index < |checks| && executor.Sound()
      modifies executor`calls, executor`containers, executor`removed, executor`errors, executor`trials
      modifies executor.world`writes, executor.world`runs, executor.world`faults, signal, signal.marker
      ensures executor.Sound() && signal.Stays() && old(executor.errors) <= executor.errors
      ensures Taken(executor.trials) + executor.world.runs == old(Taken(executor.trials) + executor.world.runs)
      ensures if !old(signal.Due()) && ready then
                && |executor.trials| == |old(executor.trials)| + 1
                && executor.trials[..|old(executor.trials)|] == old(executor.trials)
                && var t := executor.trials[|old(executor.trials)|];
                   && t.check == checks[index] && t.folder == Folder(ToCheck, index, checks[index].id)
                   && t.result == r && t.able == (executor.isolated ==> executor.ready)
                   && t.span == Span(old(executor.world.faults), executor.world.faults) && t.span.from <= t.span.to
                   && (t.stopped ==> signal.Raised())
              else
                && executor.trials == old(executor.trials) && executor.world.faults == old(executor.world.faults)
                && r == Some(Unrun(checks[index], old(signal.Due())))
      ensures r.Some? ==> Backed(checks[index], r.value) && (r.value.status == Cancelled ==> signal.event)
      ensures old(signal.Due()) ==> signal.event
    {
      hide Taken, Fair;
      var check := checks[index];
      var cancelled := signal.Found();
      if cancelled {
        signal.Set();
        return Some(Result(check.id, Cancelled, None, None));
      }
      if !ready { return Some(Result(check.id, Errored, None, None)); }
      r := executor.Attempt(check, Folder(ToCheck, index, check.id), signal);
      FairIsBacked(executor.trials[|executor.trials| - 1]);
      if r.Some? && r.value.status == Cancelled { signal.Set(); }
    }

    /**
     The checks in order. In a ready run each is executed until a request to cancel is found; the rest are
     recorded as cancelled. Otherwise nothing is executed. It stops short only where an execution raises or a
     checkpoint cannot be written.
     */
    method RunChecks(ready: bool) returns (ok: bool)
      requires Wired() && results == [] && NotPassing()
      modifies this`results, this`saved
      modifies executor`calls, executor`containers, executor`removed, executor`errors, executor`trials
      modifies executor.world, signal, signal.marker
      ensures Wired() && NotPassing() && session.Grows() && signal.Stays()
      ensures InOrder(results, checks) && (ok ==> |results| == |checks|)
      ensures var added := executor.trials[|old(executor.trials)|..];
              && Going(added, results, checks, ready, signal.Raised(), executor.isolated ==> executor.ready,
                       old(executor.world.faults), executor.world.faults)
              && (!ok ==> executor.world.missed > old(executor.world.missed)
                          || (added != [] && added[|added| - 1].result.None?))
    {
      hide Going, Fair, Taken, Env.AllAnswered, Env.NothingCleaned, Env.ResultsOf, Executor.Sound;
      ghost var before, faults := executor.trials, executor.world.faults;
      assert executor.trials[|before|..] == [];
      NoChecks(checks, ready, signal.Raised(), executor.isolated ==> executor.ready, faults);
      for index := 0 to |checks|
        invariant Wired() && NotPassing() && session.Grows() && signal.Stays()
        invariant |results| == index && InOrder(results, checks) && Progress(before, faults, ready)
        invariant ready && |executor.trials| < |before| + index ==> signal.event
        invariant |executor.trials| <= |before| + index
      {
        hide InOrder, Wired, Progress;
        ok := NextCheck(index, ready, before, faults);
        if !ok { return; }
      }
      ok := true;
    }

    /** What came of the checks so far, given what was on record before the first. */
    ghost predicate Progress(before: seq<Trial>, faults: nat, ready: bool)
      reads this, executor, executor.world, signal, signal.marker
    {
      && before <= executor.trials
      && Going(executor.trials[|before|..], results, checks, ready, signal.Raised(),
               executor.isolated ==> executor.ready, faults, executor.world.faults)
    }

    /** One check and the checkpoint after it. */
    method NextCheck(index: nat, ready: bool, ghost before: seq<Trial>, ghost faults: nat) returns (ok: bool)
      requires Wired() && NotPassing() && index == |results| < |checks| && InOrder(results, checks)
      requires Progress(before, faults, ready) && |executor.trials| <= |before| + index
      requires ready && |executor.trials| < |before| + index ==> signal.event
      modifies this`results, this`saved
      modifies executor`calls, executor`containers, executor`removed, executor`errors, executor`trials
      modifies executor.world, signal, signal.marker
      ensures Wired() && NotPassing() && session.Grows() && signal.Stays()
      ensures InOrder(results, checks) && Progress(before, faults, ready)
      ensures ok ==> |results| == index + 1 && |executor.trials| <= |before| + index + 1
      ensures ok && ready && |executor.trials| < |before| + index + 1 ==> signal.event
      ensures !ok ==>
                || executor.world.missed > old(executor.world.missed)
                || (executor.trials[|before|..] != [] && executor.trials[|executor.trials| - 1].result.None?)
    {
      hide Going, Fair, Taken, Env.AllAnswered, Env.NothingCleaned, Env.ResultsOf, Executor.Sound, Backed;
      hide Env.ProbedReady, Env.AllPassed, NothingAgainst, InOrder;
      ghost var now, at, raised, due := executor.trials, executor.world.faults, signal.Raised(), signal.Due();
      ghost var able := executor.isolated ==> executor.ready;
      var result := RunCheck(index, ready);
      if !due && ready {
        ghost var t := executor.trials[|now|];
        assert executor.trials[|before|..] == now[|before|..] + [t];
        GoingOn(now[|before|..], t, results, checks, raised, signal.Raised(), able, faults, at);
        Env.StillNothingCleaned(now, executor.trials);
      } else {
        PassedOver(now[|before|..], results, checks, ready, due, raised, signal.Raised(), able, faults, at);
      }
      Env.AnsweredStays(session.prepared, ToPrepare, now, executor.trials);
      Env.AnsweredStays(session.probes, ToProbe, now, executor.trials);
      if result.None? { return false; }
      InOrderNext(results, result.value, checks);
      results := results + [result.value];
      var gate;
      gate, ok := Checkpoint(Running);
    }

    /** Only checkpoints of the running state are on disk, and none of them passes. */
    predicate NotPassing()
      reads `saved
    {
      saved.None? || saved.value == Saved(Running, false)
    }

    /** The first checkpoint, the caller's start, and the isolation unless the run is cancelled by then. */
    method Open() returns (ok: bool)
      requires Fresh()
      modifies this`saved, executor`ready, executor`errors
      modifies executor.world`writes, executor.world`faults, executor.world`missed, signal.marker
      ensures executor.Sound() && NotPassing() && session.Grows() && signal.Stays()
      ensures ok && executor.isolated ==> executor.ready || signal.Due()
      ensures ok && executor.isolated && !executor.ready ==> signal.Raised()
      ensures !ok ==>
        || executor.world.faults > old(executor.world.faults)
        || executor.world.missed > old(executor.world.missed)
    {
      hide NothingAgainst, Executor.Sound, Taken;
      var gate, written := Checkpoint(Running);
      if !written { return false; }
      ok := executor.world.Checkpoint();
      if ok && executor.isolated {
        var cancelled := signal.Found();
        if !cancelled {
          ok := executor.Prepare();
          if ok { gate, ok := Checkpoint(Running); }
        }
      }
    }

    /** Everything before the checks; whether they may be executed, or `None` when it raises. */
    method GetReady() returns (ready: Option<bool>)
      requires Fresh()
      modifies this`saved, session, executor, executor.world, signal, signal.marker
      ensures Wired() && NotPassing() && session.Grows() && signal.Stays()
      ensures ready.Some? ==> ready.value == (managed ==> session.ready)
      ensures managed && session.started && executor.isolated ==> executor.ready
      ensures ready.Some? && executor.isolated && !executor.ready ==> signal.Raised()
      ensures old(signal.Due()) ==> !session.started
      ensures ready.None? ==> session.Disturbed()
      ensures ready == Some(false) ==> session.StoppedFor(signal)
    {
      assert Wired() && Env.NothingCleaned(executor.trials);
      hide Taken, Env.AllAnswered, Env.NothingCleaned, Env.ResultsOf, Env.ProbedReady, Executor.Sound, Env.Cause;
      var begun := Open();
      if !begun { return None; }
      ready := Some(true);
      if managed { ready := session.Prepare(signal); }
    }

    /** Everything before the cleanup; whether it ended without an exception. */
    method Body() returns (ok: bool)
      requires Fresh()
      modifies this`results, this`saved, session, executor, executor.world, signal, signal.marker
      ensures Wired() && NotPassing() && session.Grows() && signal.Stays()
      ensures InOrder(results, checks) && (ok ==> |results| == |checks|)
      ensures AllTold(executor.trials, results, checks, signal.Raised(), managed && !session.ready)
      ensures managed && session.started && executor.isolated ==> executor.ready
      ensures old(signal.Due()) ==> !session.started
      ensures Calm(old(executor.world.faults), old(executor.world.missed)) ==>
                ok && (executor.isolated ==> executor.ready) && AllEnded(executor.trials, results, checks)
      ensures managed && !session.ready && !session.Disturbed() ==> session.StoppedFor(signal)
    {
      hide Going, AllTold, AllEnded, Fair, Taken, InOrder, Env.Cause, Env.AllAnswered, Env.NothingCleaned;
      hide Env.ResultsOf, Env.ProbedReady, Executor.Sound, Fresh;
      assert results == [] by { FreshResults(); }
      var ready := GetReady();
      NothingTold(executor.trials, checks, signal.Raised(), managed && !session.ready);
      if ready.None? { return false; }
      ghost var before, faults := executor.trials, executor.world.faults;
      ghost var shown, raised := executor.world.shown, signal.Raised();
      ok := RunChecks(ready.value);
      if managed && !session.ready {
        Env.CauseStays(session.plan, session.prepared, session.probes, shown, raised, executor.world.shown,
          signal.Raised());
      }
      ChecksEnded(before, faults, ready.value);
    }

    /** Once the checks are over, every result is told, and in a calm run every check has ended. */
    lemma ChecksEnded(before: seq<Trial>, faults: nat, ready: bool)
      requires executor.Sound() && Progress(before, faults, ready)
      ensures AllTold(executor.trials, results, checks, signal.Raised(), !ready)
      ensures (&& ready && !signal.Raised() && executor.world.faults == faults
               && (executor.isolated ==> executor.ready)) ==>
                && (|results| == |checks| ==> AllEnded(executor.trials, results, checks))
                && (executor.trials[|before|..] != [] ==> executor.trials[|executor.trials| - 1].result.Some?)
    {
      hide ChecksTried, AllTold, AllEnded, Chained, Fair;
      TriedIsTold(before, executor.trials, results, checks, ready, signal.Raised());
      if ready && !signal.Raised() && executor.world.faults == faults && (executor.isolated ==> executor.ready) {
        forall i | |before| <= i < |executor.trials| ensures executor.trials[i].able && Fair(executor.trials[i]) {
          assert executor.trials[i] == executor.trials[|before|..][i - |before|];
        }
        TriedIsEnded(before, executor.trials, results, checks, faults);
      }
    }

    lemma FreshResults()
      requires Fresh()
      ensures results == []
    {
    }

    /** Nothing failed since then, nobody asked to cancel, and the environment, if there is one, became ready. */
    ghost predicate Calm(faults: nat, missed: nat)
      reads this, session, executor, executor.world, signal, signal.marker
    {
      && executor.world.faults == faults && executor.world.missed == missed
      && !signal.Raised() && (managed ==> session.ready)
    }

    /**
     The nested cleanup blocks: the executor is cleaned up even when the session's cleanup raises. Up to `mid`
     every fault is charged to a cleanup hook, after it to a container.
     */
    method CleanUp() returns (ok: bool, ghost removals: seq<Removal>, ghost mid: nat)
      requires Wired()
      modifies session, executor`calls, executor`containers, executor`removed, executor`errors, executor`trials
      modifies executor.world, session.marker
      ensures executor.Sound() && session.Grows() && session.executor == executor
      ensures managed ==> session.CleanedUp()
      ensures session.ready == old(session.ready) && session.started == old(session.started)
      ensures session.prepared == old(session.prepared) && session.probes == old(session.probes)
      ensures session.ready ==> session.Prepared()
      ensures |executor.trials| == |old(executor.trials)| + |session.cleaned|
      ensures Chained(Spans(executor.trials[|old(executor.trials)|..]), old(executor.world.faults), mid)
      ensures forall i :: |old(executor.trials)| <= i < |executor.trials| ==>
                executor.trials[i].able == (executor.isolated ==> executor.ready)
      ensures Chained(RemovalSpans(removals), mid, executor.world.faults)
      ensures old(executor.world.faults) <= mid <= executor.world.faults
      ensures executor.isolated ==> Disposed(executor.removed, removals)
      ensures executor.isolated && mid == executor.world.faults ==> AllRemoved(executor.removed)
      ensures executor.isolated && AllRemoved(executor.removed) ==> executor.containers == {}
      ensures executor.world.missed == old(executor.world.missed) && executor.world.faults == mid ==> ok
    {
      hide Chained, Fair, Taken, Env.AllAnswered, Env.NothingCleaned, Env.ResultsOf, Env.HooksTried, Adjacent;
      hide Executor.Sound, AllRemoved, Retried;
      ok, removals := true, [];
      Env.NoHooks(executor.trials, [], false, executor.world.faults);
      if managed {
        ok := session.Cleanup();
      }
      mid := executor.world.faults;
      NoSpans(mid);
      assert RemovalSpans([]) == [];
      if executor.isolated {
        ghost var before := executor.removed;
        var disposed;
        disposed, removals := executor.Cleanup();
        RetriedIsDisposed(before, executor.removed, removals);
        ok := ok && disposed;
      }
    }

    /** What a passing run means. */
    ghost predicate CompleteCleanRun()
      reads this, session, executor
    {
      && session.executor == executor
      && Complete(checks, results) && !executionError
      && (managed ==>
            session.started && session.Prepared() && session.cleanupComplete && Env.AllPassed(session.cleaned))
      && (executor.isolated ==> executor.ready && executor.errors == [] && executor.containers == {})
    }

    /** What is returned is what is on disk; a passing gate, on disk or returned, means a complete and clean run. */
    ghost predicate Concluded(outcome: Option<(Saved, bool)>)
      reads this, session, executor, signal, signal.marker
    {
      && (saved.Some? && saved.value.passed ==> CompleteCleanRun() && saved.value.state.Completed?)
      && (outcome.Some? ==>
            && |results| == |checks| && saved == Some(outcome.value.0) && !executionError
            && (outcome.value.0.passed <==> !outcome.value.1 && NothingAgainst())
            && outcome.value.1 == signal.Raised())
    }

    /**
     The gate passes exactly if the results are complete, the cleanup hooks passed, and no container left an
     error; with distinct ids and a required check they are complete exactly if every required check passed.
     */
    ghost predicate ResultsDecide(outcome: Option<(Saved, bool)>)
      reads this, session, executor
    {
      && outcome.Some? && !outcome.value.1
      && (outcome.value.0.passed <==>
            && Complete(checks, results) && (managed ==> Env.AllPassed(session.cleaned))
            && (executor.isolated ==> executor.errors == []))
      && (UniqueIds(checks) && HasRequired(checks) ==>
            (Complete(checks, results) <==> RequiredPassed(checks, results)))
    }

    /**
     Every cleanup hook of a started environment and every container left was tried, whatever happened to the
     others. Up to `mid` the faults since `from` are each charged to the one hook that met it, after it to the
     one container.
     */
    ghost predicate CleanedUp(removals: seq<Removal>, from: nat, mid: nat)
      reads this, session, executor, executor.world, session.marker
    {
      && executor.Sound() && session.executor == executor && (managed ==> session.CleanedUp())
      && |session.cleaned| <= |executor.trials|
      && Chained(Spans(executor.trials[|executor.trials| - |session.cleaned|..]), from, mid)
      && (forall i :: |executor.trials| - |session.cleaned| <= i < |executor.trials| ==>
            executor.trials[i].able == (executor.isolated ==> executor.ready))
      && Chained(RemovalSpans(removals), mid, executor.world.faults)
      && (executor.isolated ==> Disposed(executor.removed, removals))
      && (executor.isolated && AllRemoved(executor.removed) ==> executor.containers == {})
    }

    /** The last checkpoint and what `run_plan` returns. */
    method Conclude(ran: bool) returns (outcome: Option<(Saved, bool)>)
      requires session.executor == executor && NotPassing() && (ran ==> |results| == |checks| && !executionError)
      requires managed ==> (session.cleanupComplete <==> Env.AllPassed(session.cleaned))
      requires executor.isolated && AllRemoved(executor.removed) ==> executor.containers == {}
      requires session.marker != signal.marker && (session.ready ==> session.started && session.Prepared())
      modifies this`saved, executor.world`writes, executor.world`missed, signal.marker
      ensures old(executor.world.missed) <= executor.world.missed && signal.Stays() && Concluded(outcome)
      ensures outcome.None? ==> !ran || NotPassing()
      ensures ran && executor.world.missed == old(executor.world.missed) ==> outcome.Some?
    {
      hide Env.ResultsOf, Env.ProbedReady, Env.AllPassed, Complete, Env.Session.Prepared;
      var cancelled := signal.Found();
      var gate, written := Checkpoint(if cancelled then CancelledRun else Completed);
      if !ran || !written { return None; }
      outcome := Some((gate, cancelled));
    }

    /** The cleanup and the last checkpoint. */
    method End(ran: bool) returns (outcome: Option<(Saved, bool)>, ghost removals: seq<Removal>, ghost mid: nat)
      requires Wired() && NotPassing() && executionError == !ran && (ran ==> |results| == |checks|)
      modifies this`saved, this`executionError
      modifies session, executor`calls, executor`containers, executor`removed, executor`errors, executor`trials
      modifies executor.world, signal.marker, session.marker
      ensures CleanedUp(removals, old(executor.world.faults), mid) && session.Grows() && signal.Stays()
      ensures session.ready == old(session.ready) && session.started == old(session.started)
      ensures session.prepared == old(session.prepared) && session.probes == old(session.probes)
      ensures Concluded(outcome) && (outcome.None? ==> executionError || NotPassing())
      ensures (&& ran && Calm(old(executor.world.faults), old(executor.world.missed)) && InOrder(results, checks)
               && (executor.isolated ==> executor.ready)) ==>
                ResultsDecide(outcome)
    {
      hide Env.ResultsOf, Env.AllPassed, Env.ProbedReady, Env.AllAnswered, Env.NothingCleaned, Env.HooksTried;
      hide Chained, Adjacent, Fair, Taken, CompleteCleanRun, Executor.Sound, AllRemoved, Disposed;
      hide NothingAgainst, Complete, NotPassing, InOrder, UniqueIds, HasRequired, RequiredPassed;
      var cleaned;
      cleaned, removals, mid := CleanUp();
      if !cleaned { executionError := true; }
      outcome := Conclude(ran && cleaned);
      if ran && cleaned && mid == executor.world.faults && (managed ==> session.ready)
         && (executor.isolated ==> executor.ready) && InOrder(results, checks) {
        CalmDecides();
        if UniqueIds(checks) && HasRequired(checks) { RequiredOnes(); }
      }
    }

    /**
     `run_plan`. However it ends, cancelled or not, cleanup was carried out, and a passing gate means a complete
     and clean run that was not cancelled. Every result is told by an execution of its check. When nothing
     failed and nobody asked to cancel, every check was executed and is reported as its program ended, and the
     gate decides on these results alone.
     */
    method Run() returns (outcome: Option<(Saved, bool)>, ghost removals: seq<Removal>, ghost from: nat, ghost mid: nat)
      requires Fresh()
      modifies this, session, executor, executor.world, signal, signal.marker, session.marker
      ensures CleanedUp(removals, from, mid) && old(executor.world.faults) <= from
      ensures managed && session.started && executor.isolated ==> executor.ready
      ensures Taken(executor.trials) + executor.world.runs == old(executor.world.runs)
      ensures InOrder(results, checks)
      ensures AllTold(executor.trials, results, checks, signal.Raised(), managed && !session.ready)
      ensures Concluded(outcome) && (outcome.None? ==> executionError || NotPassing())
      ensures Calm(old(executor.world.faults), old(executor.world.missed)) ==>
                AllEnded(executor.trials, results, checks) && ResultsDecide(outcome)
      ensures managed && !session.ready && !session.Disturbed() ==> session.StoppedFor(signal)
    {
      hide Env.ResultsOf, Env.AllPassed, Env.ProbedReady, Env.AllAnswered, Env.NothingCleaned, Env.HooksTried;
      hide ResultsDecide, AllTold, AllEnded, Chained, Adjacent, Fair, Taken, InOrder, CompleteCleanRun,
        Executor.Sound, AllRemoved;
      hide Disposed, NothingAgainst, Complete, NotPassing, Fresh, CleanedUp, Env.Cause;
      assert !executionError && Taken(executor.trials) + executor.world.runs == executor.world.runs by { NothingYet(); }
      var ran := Body();
      if !ran {
        executionError := true;
        if managed { session.failed := true; }
      }
      from := executor.world.faults;
      ghost var before, raised, shown := executor.trials, signal.Raised(), executor.world.shown;
      outcome, removals, mid := End(ran);
      if managed && !session.ready && !session.Disturbed() {
        Env.CauseStays(session.plan, session.prepared, session.probes, shown, raised, executor.world.shown,
          signal.Raised());
      }
      ToldStays(before, executor.trials, results, checks, raised, managed && !session.ready);
      ToldRaised(executor.trials, results, checks, raised, signal.Raised(), managed && !session.ready);
    }

    lemma RequiredOnes()
      requires InOrder(results, checks) && |results| == |checks| && UniqueIds(checks) && HasRequired(checks)
      ensures Complete(checks, results) <==> RequiredPassed(checks, results)
    {
      hide Complete, UniqueIds, HasRequired, RequiredPassed;
      RequiredDecide(checks, results);
    }

    lemma NothingYet()
      requires Fresh()
      ensures !executionError && Taken(executor.trials) + executor.world.runs == executor.world.runs
    {
    }

    /** In a calm run only the results speak. */
    lemma CalmDecides()
      requires managed ==> session.ready && (session.cleanupComplete <==> Env.AllPassed(session.cleaned))
      requires !executionError
      requires executor.isolated ==> executor.ready && AllRemoved(executor.removed)
      ensures NothingAgainst() <==>
                && Complete(checks, results) && (managed ==> Env.AllPassed(session.cleaned))
                && (executor.isolated ==> executor.errors == [])
    {
    }
  }

  /** One result per check so far, in order, and each pass backed by its evidence. */
  predicate InOrder(results: seq<Result>, checks: seq<Check>) {
    |results| <= |checks| && forall i :: 0 <= i < |results| ==> Backed(checks[i], results[i])
  }

  lemma InOrderNext(results: seq<Result>, r: Result, checks: seq<Check>)
    requires InOrder(results, checks) && |results| < |checks| && Backed(checks[|results|], r)
    ensures InOrder(results + [r], checks)
  {
  }

  /** The result of a check that was not executed. */
  function Unrun(check: Check, cancelled: bool): Result {
    Result(check.id, if cancelled then Cancelled else Errored, None, None)
  }

  /**
   The first checks were executed, in order and each in its own folder, and are answered; the last of them may
   have raised. The others were not executed, which takes a request to cancel or an environment that is not ready.
   */
  ghost predicate ChecksTried(
      trials: seq<Trial>, results: seq<Result>, checks: seq<Check>, ready: bool, raised: bool)
  {
    && |results| <= |checks| && |trials| <= |checks|
    && (forall i :: 0 <= i < |trials| ==>
          && trials[i].check == checks[i] && trials[i].folder == Folder(ToCheck, i, checks[i].id)
          && (trials[i].stopped ==> raised)
          && trials[i].result == if i < |results| then Some(results[i]) else None)
    && (forall i :: |trials| <= i < |results| ==>
          (raised && results[i] == Unrun(checks[i], true)) || (!ready && results[i] == Unrun(checks[i], false)))
    && (ready && !raised ==> |results| <= |trials|)
    && (!ready ==> trials == []) && |trials| <= |results| + 1
  }

  /** So far: the checks that were tried, and every fault charged to the one check that met it. */
  ghost predicate Going(
      trials: seq<Trial>, results: seq<Result>, checks: seq<Check>, ready: bool, raised: bool, able: bool,
      from: nat, to: nat)
  {
    && ChecksTried(trials, results, checks, ready, raised) && Chained(Spans(trials), from, to)
    && forall i :: 0 <= i < |trials| ==> trials[i].able == able
  }

  lemma NoChecks(checks: seq<Check>, ready: bool, raised: bool, able: bool, at: nat)
    ensures Going([], [], checks, ready, raised, able, at, at)
  {
  }

  /** One more check is tried, and answered unless it raised. */
  lemma GoingOn(
      trials: seq<Trial>, t: Trial, results: seq<Result>, checks: seq<Check>, raised: bool, raisedNext: bool,
      able: bool, from: nat, at: nat)
    requires Going(trials, results, checks, true, raised, able, from, at) && |trials| == |results| < |checks|
    requires (raised ==> raisedNext) && (t.stopped ==> raisedNext)
    requires t.check == checks[|results|] && t.folder == Folder(ToCheck, |results|, checks[|results|].id)
    requires t.able == able && t.span.from == at <= t.span.to
    ensures var answered := if t.result.Some? then results + [t.result.value] else results;
            Going(trials + [t], answered, checks, true, raisedNext, able, from, t.span.to)
  {
    hide Chained, ChecksTried, Unrun;
    var answered := if t.result.Some? then results + [t.result.value] else results;
    CheckTried(trials, t, results, checks, raised, raisedNext);
    ChainedNext(Spans(trials), from, at, t.span.to);
    assert Spans(trials + [t]) == Spans(trials) + [Span(at, t.span.to)];
  }

  lemma CheckTried(
      trials: seq<Trial>, t: Trial, results: seq<Result>, checks: seq<Check>, raised: bool, raisedNext: bool)
    requires ChecksTried(trials, results, checks, true, raised) && |trials| == |results| < |checks|
    requires (raised ==> raisedNext) && (t.stopped ==> raisedNext)
    requires t.check == checks[|results|] && t.folder == Folder(ToCheck, |results|, checks[|results|].id)
    ensures var answered := if t.result.Some? then results + [t.result.value] else results;
            ChecksTried(trials + [t], answered, checks, true, raisedNext)
  {
  }

  /** One more check is passed over. */
  lemma PassedOver(
      trials: seq<Trial>, results: seq<Result>, checks: seq<Check>, ready: bool, due: bool, raised: bool,
      raisedNext: bool, able: bool, from: nat, to: nat)
    requires Going(trials, results, checks, ready, raised, able, from, to)
    requires |results| < |checks| && |trials| <= |results|
    requires (due || !ready) && (raised ==> raisedNext) && (due ==> raisedNext)
    ensures Going(trials, results + [Unrun(checks[|results|], due)], checks, ready, raisedNext, able, from, to)
  {
    hide Chained;
  }

  lemma FairIsBacked(t: Trial)
    requires Fair(t)
    ensures t.result.Some? ==> Backed(t.check, t.result.value)
  {
  }

  /** The result is the answer of the check's own execution, or says that it was not executed and why. */
  ghost predicate Told(trials: seq<Trial>, i: nat, check: Check, r: Result, raised: bool, unready: bool) {
    || Env.Answered(trials, Folder(ToCheck, i, check.id), r)
    || (raised && r == Unrun(check, true)) || (unready && r == Unrun(check, false))
  }

  ghost predicate AllTold(
      trials: seq<Trial>, results: seq<Result>, checks: seq<Check>, raised: bool, unready: bool)
  {
    |results| <= |checks| && forall i :: 0 <= i < |results| ==> Told(trials, i, checks[i], results[i], raised, unready)
  }

  /** The check's program ran in the check's own folder, and the result is how it ended. */
  ghost predicate Ended(trials: seq<Trial>, i: nat, check: Check, r: Result) {
    exists t :: t in trials && t.folder == Folder(ToCheck, i, check.id)
      && Launched(t) && r == Outcome(check, t.taken.value)
  }

  ghost predicate AllEnded(trials: seq<Trial>, results: seq<Result>, checks: seq<Check>) {
    |results| == |checks| && forall i :: 0 <= i < |results| ==> Ended(trials, i, checks[i], results[i])
  }

  lemma NothingTold(trials: seq<Trial>, checks: seq<Check>, raised: bool, unready: bool)
    ensures AllTold(trials, [], checks, raised, unready) && InOrder([], checks)
  {
  }

  lemma TriedIsTold(
      before: seq<Trial>, after: seq<Trial>, results: seq<Result>, checks: seq<Check>, ready: bool, raised: bool)
    requires before <= after && ChecksTried(after[|before|..], results, checks, ready, raised)
    ensures AllTold(after, results, checks, raised, !ready)
  {
    var added := after[|before|..];
    forall i | 0 <= i < |results| ensures Told(after, i, checks[i], results[i], raised, !ready) {
      if i < |added| {
        assert added[i] in after;
        assert Env.Answered(after, Folder(ToCheck, i, checks[i].id), results[i]);
      }
    }
  }

  /** Without faults and without a request to cancel every check ran and is reported as its program ended. */
  lemma TriedIsEnded(
      before: seq<Trial>, after: seq<Trial>, results: seq<Result>, checks: seq<Check>, faults: nat)
    requires before <= after && ChecksTried(after[|before|..], results, checks, true, false)
    requires Chained(Spans(after[|before|..]), faults, faults)
    requires forall i :: |before| <= i < |after| ==> after[i].able && Fair(after[i])
    ensures |results| == |checks| ==> AllEnded(after, results, checks)
    ensures after[|before|..] != [] ==> after[|after| - 1].result.Some?
  {
    var added := after[|before|..];
    forall i | 0 <= i < |added|
      ensures Launched(added[i]) && added[i].result == Some(Outcome(checks[i], added[i].taken.value))
    {
      SpanWithin(Spans(added), faults, faults, i);
      assert Fair(after[|before| + i]);
    }
    forall i | 0 <= i < |results| ensures Ended(after, i, checks[i], results[i]) {
      assert added[i] in after;
    }
  }

  lemma ToldStays(
      before: seq<Trial>, after: seq<Trial>, results: seq<Result>, checks: seq<Check>, raised: bool, unready: bool)
    requires before <= after
    ensures AllTold(before, results, checks, raised, unready) ==> AllTold(after, results, checks, raised, unready)
    ensures AllEnded(before, results, checks) ==> AllEnded(after, results, checks)
  {
    if AllTold(before, results, checks, raised, unready) {
      forall i | 0 <= i < |results| ensures Told(after, i, checks[i], results[i], raised, unready) {
        assert Told(before, i, checks[i], results[i], raised, unready);
        if t :| t in before && t.folder == Folder(ToCheck, i, checks[i].id) && t.result == Some(results[i]) {
          assert t in after;
        }
      }
    }
    if AllEnded(before, results, checks) {
      forall i | 0 <= i < |results| ensures Ended(after, i, checks[i], results[i]) {
        assert Ended(before, i, checks[i], results[i]);
        var t :| t in before && t.folder == Folder(ToCheck, i, checks[i].id) && Launched(t)
                 && results[i] == Outcome(checks[i], t.taken.value);
        assert t in after;
      }
    }
  }

  lemma ToldRaised(
      trials: seq<Trial>, results: seq<Result>, checks: seq<Check>, raised: bool, raisedNext: bool, unready: bool)
    requires AllTold(trials, results, checks, raised, unready) && (raised ==> raisedNext)
    ensures AllTold(trials, results, checks, raisedNext, unready)
  {
    forall i | 0 <= i < |results| ensures Told(trials, i, checks[i], results[i], raisedNext, unready) {
      assert Told(trials, i, checks[i], results[i], raised, unready);
    }
  }

  /** Every container is gone or its last try met a fault. */
  ghost predicate Disposed(removed: seq<bool>, removals: seq<Removal>) {
    forall i :: 0 <= i < |removed| && !removed[i] ==>
      exists k :: 0 <= k < |removals| && removals[k].container == i && !Flawless(removals[k].span)
  }

  lemma RetriedIsDisposed(before: seq<bool>, after: seq<bool>, removals: seq<Removal>)
    requires |before| == |after| && Retried(before, after, |before|, removals)
    ensures Disposed(after, removals)
  {
    var left := Left(before, |before|);
    forall i | 0 <= i < |after| && !after[i]
      ensures exists k :: 0 <= k < |removals| && removals[k].container == i && !Flawless(removals[k].span)
    {
      assert i in left && exists k :: 0 <= k < |left| && left[k] == i;
      var k :| 0 <= k < |left| && left[k] == i;
      assert removals[k].container == i;
    }
  }
}
