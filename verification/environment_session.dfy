/**
 `EnvironmentSession`: preparation hooks, readiness probes and cleanup hooks of one run. Preparation and
 probes listen to the run's request to cancel, every cleanup hook only to one of its own.
 */
module EnvironmentSession {
  import opened Wrappers
  import opened EvidenceGate
  import opened Outside
  import opened CheckExecutor

  datatype Readiness = Readiness(id: string, maxAttempts: nat, timeout: real, interval: real)

  datatype EnvironmentPlan = EnvironmentPlan(prepare: seq<string>, readiness: Option<Readiness>, cleanup: seq<string>)

  datatype Phase = Waiting | Stopped | Preparing | Probing | Ready | Cleaning | Finished

  predicate AllPassed(results: seq<Result>) {
    forall i :: 0 <= i < |results| ==> results[i].status == Passed
  }

  /** Results of the first hooks, in order. */
  predicate ResultsOf(results: seq<Result>, ids: seq<string>) {
    |results| <= |ids| && forall i :: 0 <= i < |results| ==> results[i].id == ids[i]
  }

  /** Probes stop at the first pass. */
  predicate ProbedReady(probes: seq<Result>, readiness: Readiness) {
    && 0 < |probes| <= readiness.maxAttempts
    && probes[|probes| - 1].status == Passed
    && forall i :: 0 <= i < |probes| - 1 ==> probes[i].status != Passed
  }

  function Hook(id: string): Check {
    Check(id, Command, true)
  }

  ghost predicate NothingCleaned(trials: seq<Trial>) {
    forall i :: 0 <= i < |trials| ==> !trials[i].folder.purpose.ToCleanUp?
  }

  /** Some execution in this folder was answered with this result. */
  ghost predicate Answered(trials: seq<Trial>, folder: Folder, r: Result) {
    exists t :: t in trials && t.folder == folder && t.result == Some(r)
  }

  /** Every result is that of an execution in its own folder. */
  ghost predicate AllAnswered(results: seq<Result>, purpose: Purpose, trials: seq<Trial>) {
    forall i :: 0 <= i < |results| ==> Answered(trials, Folder(purpose, i, results[i].id), results[i])
  }

  /** What cleanup records of a hook: its result, or an error when it raised. */
  function Kept(t: Trial): Result {
    if t.result.Some? then t.result.value else Result(t.check.id, Errored, None, None)
  }

  /**
   The hooks were tried once each and in order, whatever happened to the others, and are recorded. A hook that
   met no fault itself was stopped by the cleanup marker, or its program ran and is recorded as it ended. Once
   the marker has stopped one hook no later one starts.
   */
  ghost predicate HooksTried(trials: seq<Trial>, cleaned: seq<Result>, cleanup: seq<string>, asked: bool) {
    && |trials| == |cleaned| <= |cleanup|
    && (forall k :: 0 <= k < |trials| ==>
          && trials[k].check == Hook(cleanup[k]) && trials[k].folder == Folder(ToCleanUp, k, cleanup[k])
          && cleaned[k] == Kept(trials[k])
          && (trials[k].stopped ==> asked)
          && (trials[k].able && Flawless(trials[k].span) && !trials[k].stopped ==>
                Launched(trials[k]) && cleaned[k] == Outcome(Hook(cleanup[k]), trials[k].taken.value))
          && (cleaned[k].status == Passed ==> Launched(trials[k])))
    && forall j, k :: 0 <= j < k < |trials| && trials[j].stopped ==> trials[k].taken.None?
  }

  /**
   Why preparation may stop short without an exception: a request to cancel, a hook that did not pass, a probe
   that ended for good, or no attempt or time left for probes.
   */
  ghost predicate Cause(
      plan: EnvironmentPlan, prepared: seq<Result>, probes: seq<Result>, shown: seq<real>, raised: bool)
  {
    || raised
    || (prepared != [] && prepared[|prepared| - 1].status != Passed)
    || (probes != [] && (probes[|probes| - 1].status == Cancelled || probes[|probes| - 1].status == Errored))
    || (&& plan.readiness.Some? && |prepared| == |plan.prepare| && AllPassed(prepared)
        && (|probes| >= plan.readiness.value.maxAttempts || Elapsed(shown, plan.readiness.value.timeout)))
  }

  lemma AskedFor(plan: EnvironmentPlan, prepared: seq<Result>, probes: seq<Result>, shown: seq<real>)
    ensures Cause(plan, prepared, probes, shown, true)
  {
  }

  lemma CauseStays(
      plan: EnvironmentPlan, prepared: seq<Result>, probes: seq<Result>, shown: seq<real>, raised: bool,
      more: seq<real>, later: bool)
    requires Cause(plan, prepared, probes, shown, raised) && shown <= more && (raised ==> later)
    ensures Cause(plan, prepared, probes, more, later)
  {
    if plan.readiness.Some? && Elapsed(shown, plan.readiness.value.timeout) {
      ElapsedStays(shown, more, plan.readiness.value.timeout);
    }
  }

  class Session {
    const plan: EnvironmentPlan
    const executor: Executor

    /** `cleanup.cancel.request`. */
    const marker: Marker

    var phase: Phase
    var started: bool
    var ready: bool
    var cleanupComplete: bool
    var prepared: seq<Result>
    var probes: seq<Result>
    var cleaned: seq<Result>
    var failed: bool

    constructor (plan: EnvironmentPlan, executor: Executor, marker: Marker)
      ensures this.plan == plan && this.executor == executor && this.marker == marker && Untouched()
    {
      this.plan, this.executor, this.marker := plan, executor, marker;
      phase, started, ready, cleanupComplete, failed := Waiting, false, false, false, false;
      prepared, probes, cleaned := [], [], [];
    }

    predicate Untouched()
      reads this
    {
      && phase.Waiting? && !started && !ready && !cleanupComplete && !failed
      && prepared == [] && probes == [] && cleaned == []
    }

    /** Every preparation hook ran once, in order, and passed; then a probe passed within its budget. */
    ghost predicate Prepared()
      reads this, executor
    {
      && |prepared| == |plan.prepare| && ResultsOf(prepared, plan.prepare) && AllPassed(prepared)
      && AllAnswered(prepared, ToPrepare, executor.trials)
      && (if plan.readiness.Some? then ProbedReady(probes, plan.readiness.value) else probes == [])
      && AllAnswered(probes, ToProbe, executor.trials)
    }

    /** What holds from construction until cleanup begins. */
    ghost predicate Sound()
      reads this, executor
    {
      && executor.Sound()
      && (ready ==> started && Prepared())
      && (!started ==> prepared == [] && probes == [])
      && ResultsOf(prepared, plan.prepare)
      && AllAnswered(prepared, ToPrepare, executor.trials) && AllAnswered(probes, ToProbe, executor.trials)
      && cleaned == [] && !cleanupComplete
      && NothingCleaned(executor.trials)
    }

    /** Nothing that is recorded is ever taken back, and every program was taken by an execution on record. */
    twostate predicate Grows()
      reads executor, executor.world
    {
      && old(executor.errors) <= executor.errors && old(executor.trials) <= executor.trials
      && old(executor.world.faults) <= executor.world.faults && old(executor.world.missed) <= executor.world.missed
      && old(executor.world.shown) <= executor.world.shown
      && Taken(executor.trials) + executor.world.runs == old(Taken(executor.trials) + executor.world.runs)
    }

    /** What cleanup leaves: the tries of its hooks are the last ones, and no earlier one is of a cleanup hook. */
    ghost predicate CleanedUp()
      reads this, executor, marker
    {
      var n := |executor.trials| - |cleaned|;
      && ResultsOf(cleaned, plan.cleanup) && |cleaned| == (if started then |plan.cleanup| else 0)
      && 0 <= n && NothingCleaned(executor.trials[..n])
      && HooksTried(executor.trials[n..], cleaned, plan.cleanup, marker.seen)
      && Adjacent(Spans(executor.trials[n..]))
      && (cleanupComplete <==> AllPassed(cleaned))
    }

    /** Why preparation may have stopped short without an exception. */
    ghost predicate StoppedFor(signal: Signal)
      reads this, executor, executor.world, signal, signal.marker
    {
      Cause(plan, prepared, probes, executor.world.shown, signal.Raised())
    }

    /** Something failed: a checkpoint or anything else. */
    twostate predicate Disturbed()
      reads executor, executor.world
    {
      executor.world.faults > old(executor.world.faults) || executor.world.missed > old(executor.world.missed)
    }

    /** `_changed`: two writes, of which either may raise. */
    method Persist() returns (ok: bool)
      modifies executor.world`writes, executor.world`missed
      ensures old(executor.world.missed) <= executor.world.missed
      ensures ok <==> executor.world.missed == old(executor.world.missed)
    {
      ok := executor.world.Checkpoint();
      if ok { ok := executor.world.Checkpoint(); }
    }

    /** `prepare`: whether the environment is ready, or `None` when it raises. */
    method Prepare(signal: Signal) returns (ok: Option<bool>)
      requires Untouched() && executor.Sound() && NothingCleaned(executor.trials)
      modifies this, executor`calls, executor`containers, executor`removed, executor`errors, executor`trials
      modifies executor.world, signal, signal.marker
      ensures Sound() && Grows() && signal.Stays()
      ensures ok == Some(true) ==> ready
      ensures ready ==> ok != Some(false)
      ensures ready && ok.None? ==> executor.world.missed > old(executor.world.missed)
      ensures ok.None? ==> Disturbed()
      ensures ok == Some(false) ==> StoppedFor(signal)
      ensures old(signal.Due()) ==> !started && executor.trials == old(executor.trials)
    {
      assert Sound();
      hide AllAnswered, Taken, Fair, NothingCleaned, ResultsOf, AllPassed, ProbedReady, Executor.Sound;
      var cancelled := signal.Found();
      if cancelled {
        signal.Set();
        phase := Stopped;
        var saved := Persist();
        return if saved then Some(false) else None;
      }
      phase, started := Preparing, true;
      ok := SetUp(signal);
    }

    /** Hooks and probes of a started environment. */
    method SetUp(signal: Signal) returns (ok: Option<bool>)
      requires Sound() && started && !ready && prepared == [] && probes == []
      modifies this`phase, this`ready, this`prepared, this`probes, this`failed
      modifies executor`calls, executor`containers, executor`removed, executor`errors, executor`trials
      modifies executor.world, signal, signal.marker
      ensures Sound() && Grows() && signal.Stays()
      ensures ok == Some(true) ==> ready
      ensures ready ==> ok != Some(false)
      ensures ready && ok.None? ==> executor.world.missed > old(executor.world.missed)
      ensures ok.None? ==> Disturbed()
      ensures ok == Some(false) ==> StoppedFor(signal)
    {
      hide AllAnswered, Taken, Fair, NothingCleaned, ResultsOf, AllPassed, ProbedReady, Executor.Sound, Cause;
      var saved := Persist();
      if !saved { return None; }
      ok := RunHooks(signal);
      if ok != Some(true) { return; }
      if plan.readiness.Some? {
        ok := ProbeUntilReady(plan.readiness.value, signal);
        if ok != Some(true) { return; }
      }
      var cancelled := signal.Found();
      if cancelled {
        signal.Set();
        AskedFor(plan, prepared, probes, executor.world.shown);
        return Some(false);
      }
      ready, phase := true, Ready;
      saved := Persist();
      ok := if saved then Some(true) else None;
    }

    /** The preparation hooks, until one does not pass. */
    method RunHooks(signal: Signal) returns (ok: Option<bool>)
      requires Sound() && started && !ready && prepared == [] && probes == []
      modifies this`prepared, executor`calls, executor`containers, executor`removed, executor`errors, executor`trials
      modifies executor.world, signal, signal.marker
      ensures Sound() && Grows() && signal.Stays()
      ensures ok == Some(true) ==> |prepared| == |plan.prepare| && AllPassed(prepared)
      ensures ok == Some(false) ==> StoppedFor(signal)
      ensures ok.None? ==> Disturbed()
    {
      for index := 0 to |plan.prepare|
        invariant Sound() && Grows() && signal.Stays() && |prepared| == index && AllPassed(prepared)
      {
        hide Sound;
        ok := PrepareOne(index, signal);
        if ok != Some(true) { return; }
      }
      ok := Some(true);
    }

    /** One preparation hook. */
    method PrepareOne(index: nat, signal: Signal) returns (ok: Option<bool>)
      requires Sound() && started && !ready && index == |prepared| < |plan.prepare| && AllPassed(prepared)
      modifies this`prepared, executor`calls, executor`containers, executor`removed, executor`errors, executor`trials
      modifies executor.world, signal, signal.marker
      ensures Sound() && Grows() && signal.Stays()
      ensures ok == Some(true) ==> |prepared| == index + 1 && AllPassed(prepared)
      ensures ok == Some(false) ==> prepared != [] && prepared[|prepared| - 1].status != Passed
      ensures ok.None? ==> Disturbed()
    {
      hide AllAnswered, NothingCleaned, Executor.Sound, Taken, Fair;
      ghost var before := executor.trials;
      var hook := Hook(plan.prepare[index]);
      var result := executor.Attempt(hook, Folder(ToPrepare, index, hook.id), signal);
      StillNothingCleaned(before, executor.trials);
      AnsweredStays(prepared, ToPrepare, before, executor.trials);
      AnsweredStays(probes, ToProbe, before, executor.trials);
      if result.None? { return None; }
      AnsweredNext(prepared, result.value, ToPrepare, executor.trials);
      prepared := prepared + [result.value];
      var saved := Persist();
      if !saved { return None; }
      ok := Some(result.value.status == Passed);
    }

    /** Probes until one passes in time, the deadline or the attempt budget runs out, or the run is cancelled. */
    method ProbeUntilReady(readiness: Readiness, signal: Signal) returns (ok: Option<bool>)
      requires Sound() && started && !ready && probes == []
      requires plan.readiness == Some(readiness) && |prepared| == |plan.prepare| && AllPassed(prepared)
      modifies this`phase, this`probes, this`failed
      modifies executor`calls, executor`containers, executor`removed, executor`errors, executor`trials
      modifies executor.world, signal, signal.marker
      ensures Sound() && Grows() && signal.Stays()
      ensures ok == Some(true) ==> ProbedReady(probes, readiness)
      ensures ok == Some(false) ==> StoppedFor(signal)
      ensures ok.None? ==> Disturbed()
    {
      hide AllAnswered, Taken, Fair, NothingCleaned, ResultsOf, AllPassed, Executor.Sound, Began, Elapsed;
      phase := Probing;
      var saved := Persist();
      if !saved { return None; }
      var start := executor.world.Now();
      var deadline := start + readiness.timeout;
      BeganNow(executor.world.shown, readiness.timeout);
      while true
        invariant Sound() && Grows() && signal.Stays() && |probes| <= readiness.maxAttempts
        invariant Began(executor.world.shown, readiness.timeout, deadline)
        invariant forall i :: 0 <= i < |probes| ==> probes[i].status != Passed
        decreases readiness.maxAttempts - |probes|
      {
        var now := Look(readiness, deadline);
        if now >= deadline || |probes| >= readiness.maxAttempts {
          failed := true;
          return Some(false);
        }
        ok := Attempt(readiness, deadline, signal);
        if ok != Some(true) || probes[|probes| - 1].status == Passed { return; }
      }
    }

    /** The clock, against a deadline. */
    method Look(readiness: Readiness, deadline: real) returns (now: real)
      requires Began(executor.world.shown, readiness.timeout, deadline)
      modifies executor.world`ticks, executor.world`shown
      ensures Began(executor.world.shown, readiness.timeout, deadline)
      ensures old(executor.world.shown) <= executor.world.shown
      ensures now >= deadline ==> Elapsed(executor.world.shown, readiness.timeout)
    {
      ghost var before := executor.world.shown;
      now := executor.world.Now();
      BeganStays(before, executor.world.shown, readiness.timeout, deadline);
      if now >= deadline { TimeIsUp(before, now, readiness.timeout, deadline); }
    }

    /** One attempt and the delay after it: `Some(true)` when the probe passed in time or may be followed by another. */
    method Attempt(readiness: Readiness, deadline: real, signal: Signal) returns (ok: Option<bool>)
      requires Sound() && started && !ready && Began(executor.world.shown, readiness.timeout, deadline)
      requires plan.readiness == Some(readiness) && |prepared| == |plan.prepare| && AllPassed(prepared)
      modifies this`probes, this`failed
      modifies executor`calls, executor`containers, executor`removed, executor`errors, executor`trials
      modifies executor.world, signal, signal.marker
      ensures Sound() && Grows() && signal.Stays()
      ensures probes == old(probes) || (|probes| == |old(probes)| + 1 && probes[..|old(probes)|] == old(probes))
      ensures ok == Some(true) ==> |probes| == |old(probes)| + 1
      ensures ok == Some(true) ==> Began(executor.world.shown, readiness.timeout, deadline)
      ensures ok == Some(false) ==> StoppedFor(signal)
      ensures ok.None? ==> Disturbed()
    {
      hide Sound;
      var cancelled := signal.Found();
      if cancelled {
        signal.Set();
        return Some(false);
      }
      ok := ProbeOnce(readiness, deadline, signal);
      if ok != Some(true) || probes[|probes| - 1].status == Passed { return; }
      cancelled := Wait(signal);
      if cancelled { ok := Some(false); }
    }

    /** The delay between two probes, in which cancellation is looked for again and again. */
    method Wait(signal: Signal) returns (cancelled: bool)
      modifies executor.world`waits, signal, signal.marker
      ensures cancelled ==> signal.Raised()
      ensures signal.Stays()
    {
      var looks := executor.world.NextWait();
      for i := 0 to looks
        invariant signal.Stays()
      {
        cancelled := signal.Found();
        if cancelled {
          signal.Set();
          return;
        }
      }
      cancelled := false;
    }

    /** One probe: `Some(true)` when it passed in time or may be followed by another. */
    method ProbeOnce(readiness: Readiness, deadline: real, signal: Signal) returns (ok: Option<bool>)
      requires Sound() && started && !ready && Began(executor.world.shown, readiness.timeout, deadline)
      requires plan.readiness == Some(readiness) && |prepared| == |plan.prepare| && AllPassed(prepared)
      modifies this`probes, this`failed
      modifies executor`calls, executor`containers, executor`removed, executor`errors, executor`trials
      modifies executor.world, signal, signal.marker
      ensures Sound() && Grows() && signal.Stays()
      ensures probes == old(probes) || (|probes| == |old(probes)| + 1 && probes[..|old(probes)|] == old(probes))
      ensures ok == Some(true) ==> |probes| == |old(probes)| + 1
      ensures ok == Some(true) ==> Began(executor.world.shown, readiness.timeout, deadline)
      ensures ok == Some(false) ==> StoppedFor(signal)
      ensures ok.None? ==> Disturbed()
    {
      hide AllAnswered, NothingCleaned, ResultsOf, Executor.Sound, Taken, Fair;
      ghost var before, shown := executor.trials, executor.world.shown;
      var probe := Hook(readiness.id);
      var result := executor.Attempt(probe, Folder(ToProbe, |probes|, probe.id), signal);
      StillNothingCleaned(before, executor.trials);
      AnsweredStays(prepared, ToPrepare, before, executor.trials);
      AnsweredStays(probes, ToProbe, before, executor.trials);
      if result.None? { return None; }
      AnsweredNext(probes, result.value, ToProbe, executor.trials);
      probes := probes + [result.value];
      var saved := Persist();
      if !saved { return None; }
      if result.value.status == Passed {
        var now := Look(readiness, deadline);
        if now > deadline {
          failed := true;
          return Some(false);
        }
      }
      BeganStays(shown, executor.world.shown, readiness.timeout, deadline);
      ok := Some(result.value.status != Cancelled && result.value.status != Errored);
    }

    /**
     `cleanup`: once anything was started every cleanup hook is tried once and in order, whether or not the run
     was cancelled and whatever hooks and checkpoints do; see `HooksTried`. Every fault met on the way is
     charged to the one hook that met it. Complete means that all passed, and it raises exactly for a checkpoint
     that could not be written.
     */
    method Cleanup() returns (ok: bool)
      requires Sound()
      modifies this, executor`calls, executor`containers, executor`removed, executor`errors, executor`trials
      modifies executor.world, marker
      ensures executor.Sound() && Grows() && CleanedUp()
      ensures ready == old(ready) && started == old(started) && prepared == old(prepared) && probes == old(probes)
      ensures ready ==> Prepared()
      ensures |executor.trials| == |old(executor.trials)| + |cleaned|
      ensures Chained(Spans(executor.trials[|old(executor.trials)|..]), old(executor.world.faults),
          executor.world.faults)
      ensures forall i :: |old(executor.trials)| <= i < |executor.trials| ==>
                executor.trials[i].able == (executor.isolated ==> executor.ready)
      ensures ok <==> executor.world.missed == old(executor.world.missed)
      ensures !ok && started ==> failed
    {
      hide AllAnswered, ResultsOf, HooksTried, NothingCleaned, Chained, Adjacent, AllPassed, Taken, Fair, ProbedReady;
      hide Executor.Sound, Session.CleanedUp;
      ghost var before := executor.trials;
      if started {
        ok := CleanStarted();
        AnsweredStays(prepared, ToPrepare, before, executor.trials);
        AnsweredStays(probes, ToProbe, before, executor.trials);
      } else {
        cleanupComplete := true;
        NoHooks(executor.trials, plan.cleanup, marker.seen, executor.world.faults);
        assert executor.trials[..|before|] == before;
        assert CleanedUp() by { Assembled(|before|); }
        ok := Persist();
      }
    }

    /** The tries of the hooks are all that came after the first `n`. */
    lemma Assembled(n: nat)
      requires |executor.trials| == n + |cleaned| && NothingCleaned(executor.trials[..n])
      requires ResultsOf(cleaned, plan.cleanup) && |cleaned| == if started then |plan.cleanup| else 0
      requires HooksTried(executor.trials[n..], cleaned, plan.cleanup, marker.seen)
      requires Adjacent(Spans(executor.trials[n..])) && (cleanupComplete <==> AllPassed(cleaned))
      ensures CleanedUp()
    {
    }

    /** `cleanup` of a started environment. */
    method CleanStarted() returns (ok: bool)
      requires started && cleaned == [] && executor.Sound() && NothingCleaned(executor.trials)
      modifies this`phase, this`cleanupComplete, this`cleaned, this`failed
      modifies executor`calls, executor`containers, executor`removed, executor`errors, executor`trials
      modifies executor.world, marker
      ensures executor.Sound() && Grows() && CleanedUp()
      ensures |executor.trials| == |old(executor.trials)| + |cleaned|
      ensures Chained(Spans(executor.trials[|old(executor.trials)|..]), old(executor.world.faults),
          executor.world.faults)
      ensures forall i :: |old(executor.trials)| <= i < |executor.trials| ==>
                executor.trials[i].able == (executor.isolated ==> executor.ready)
      ensures ok <==> executor.world.missed == old(executor.world.missed)
      ensures !ok ==> failed
    {
      hide ResultsOf, HooksTried, NothingCleaned, Chained, Adjacent, AllPassed, Taken, Fair, Executor.Sound;
      hide Session.CleanedUp;
      ghost var before := executor.trials;
      phase := Cleaning;
      ok := Persist();
      if !ok { failed := true; }
      var cleaning := CleanEach();
      cleanupComplete := AllPassed(cleaned);
      phase := Finished;
      var saved := Persist();
      if !saved { failed := true; }
      ok := ok && cleaning && saved;
      assert executor.trials[..|before|] == before;
      ChainedIsAdjacent(Spans(executor.trials[|before|..]), old(executor.world.faults), executor.world.faults);
      Assembled(|before|);
    }

    /** One cleanup hook with a fresh event and the session's own marker, and a raising one recorded as an error. */
    method CleanOne(index: nat) returns (ok: bool)
      requires index < |plan.cleanup| && executor.Sound()
      modifies this`cleaned, this`failed
      modifies executor`calls, executor`containers, executor`removed, executor`errors, executor`trials
      modifies executor.world, marker
      ensures executor.Sound() && Grows()
      ensures |executor.trials| == |old(executor.trials)| + 1
      ensures var t := executor.trials[|old(executor.trials)|];
              && cleaned == old(cleaned) + [Kept(t)] && Kept(t).id == plan.cleanup[index] && Fair(t)
              && t.check == Hook(plan.cleanup[index]) && t.folder == Folder(ToCleanUp, index, plan.cleanup[index])
              && t.able == (executor.isolated ==> executor.ready)
              && t.span == Span(old(executor.world.faults), executor.world.faults)
              && (t.stopped ==> old(marker.Due()) && marker.seen) && (old(marker.Due()) ==> t.taken.None?)
      ensures (old(marker.seen) ==> marker.seen) && (old(marker.Due()) ==> marker.Due())
      ensures ok <==> executor.world.missed == old(executor.world.missed)
      ensures failed == (old(failed) || !ok)
    {
      hide Taken, Fair;
      var hook := Hook(plan.cleanup[index]);
      var signal := new Signal(marker);
      var result := executor.Attempt(hook, Folder(ToCleanUp, index, hook.id), signal);
      cleaned := cleaned + [if result.Some? then result.value else Result(hook.id, Errored, None, None)];
      ok := Persist();
      if !ok { failed := true; }
    }

    /** All cleanup hooks. */
    method CleanEach() returns (ok: bool)
      requires cleaned == [] && executor.Sound()
      modifies this`cleaned, this`failed
      modifies executor`calls, executor`containers, executor`removed, executor`errors, executor`trials
      modifies executor.world, marker
      ensures executor.Sound() && Grows()
      ensures |cleaned| == |plan.cleanup| && ResultsOf(cleaned, plan.cleanup)
      ensures |executor.trials| == |old(executor.trials)| + |cleaned|
      ensures var added := executor.trials[|old(executor.trials)|..];
              && HooksTried(added, cleaned, plan.cleanup, marker.seen)
              && Chained(Spans(added), old(executor.world.faults), executor.world.faults)
              && forall i :: 0 <= i < |added| ==> added[i].able == (executor.isolated ==> executor.ready)
      ensures ok <==> executor.world.missed == old(executor.world.missed)
      ensures failed == (old(failed) || !ok)
    {
      hide HooksTried, Chained, Taken, Fair, Executor.Sound;
      ok := true;
      ghost var before, faults := executor.trials, executor.world.faults;
      assert executor.trials[|before|..] == [];
      NoHooks(executor.trials, plan.cleanup, marker.seen, faults);
      for index := 0 to |plan.cleanup|
        invariant executor.Sound() && Grows()
        invariant |cleaned| == index && ResultsOf(cleaned, plan.cleanup)
        invariant |executor.trials| == |before| + index
        invariant HooksTried(executor.trials[|before|..], cleaned, plan.cleanup, marker.seen)
        invariant Chained(Spans(executor.trials[|before|..]), faults, executor.world.faults)
        invariant forall i :: |before| <= i < |executor.trials| ==>
                    executor.trials[i].able == (executor.isolated ==> executor.ready)
        invariant forall i :: |before| <= i < |executor.trials| && executor.trials[i].stopped ==> marker.Due()
        invariant ok <==> executor.world.missed == old(executor.world.missed)
        invariant failed == (old(failed) || !ok)
      {
        ghost var now, results, at, asked := executor.trials, cleaned, executor.world.faults, marker.seen;
        var saved := CleanOne(index);
        ghost var t := executor.trials[|now|];
        assert executor.trials[|before|..] == now[|before|..] + [t];
        HooksNext(now[|before|..], t, results, plan.cleanup, asked, marker.seen);
        ChainedNext(Spans(now[|before|..]), faults, at, executor.world.faults);
        assert Spans(now[|before|..] + [t]) == Spans(now[|before|..]) + [t.span];
        if !saved { ok := false; }
      }
    }
  }

  lemma StillNothingCleaned(before: seq<Trial>, after: seq<Trial>)
    requires NothingCleaned(before) && |after| == |before| + 1 && before == after[..|before|]
    requires !after[|before|].folder.purpose.ToCleanUp?
    ensures NothingCleaned(after)
  {
  }

  lemma AnsweredStays(results: seq<Result>, purpose: Purpose, before: seq<Trial>, after: seq<Trial>)
    requires AllAnswered(results, purpose, before) && before <= after
    ensures AllAnswered(results, purpose, after)
  {
    forall i | 0 <= i < |results| ensures Answered(after, Folder(purpose, i, results[i].id), results[i]) {
      assert Answered(before, Folder(purpose, i, results[i].id), results[i]);
    }
  }

  /** One more result, that of the last execution. */
  lemma AnsweredNext(results: seq<Result>, r: Result, purpose: Purpose, trials: seq<Trial>)
    requires AllAnswered(results, purpose, trials) && trials != []
    requires trials[|trials| - 1].folder == Folder(purpose, |results|, r.id) && trials[|trials| - 1].result == Some(r)
    ensures AllAnswered(results + [r], purpose, trials)
  {
    var next := results + [r];
    assert trials[|trials| - 1] in trials;
    forall i | 0 <= i < |next| ensures Answered(trials, Folder(purpose, i, next[i].id), next[i]) {
      if i < |results| { assert Answered(trials, Folder(purpose, i, results[i].id), results[i]); }
    }
  }

  lemma NoHooks(trials: seq<Trial>, cleanup: seq<string>, asked: bool, at: nat)
    ensures HooksTried([], [], cleanup, asked) && ResultsOf([], cleanup) && AllPassed([])
    ensures Chained(Spans([]), at, at) && Adjacent(Spans([])) && trials[|trials|..] == []
  {
  }

  lemma HooksNext(
      trials: seq<Trial>, t: Trial, cleaned: seq<Result>, cleanup: seq<string>, asked: bool, askedNext: bool)
    requires HooksTried(trials, cleaned, cleanup, asked) && |trials| < |cleanup| && (asked ==> askedNext)
    requires t.check == Hook(cleanup[|trials|]) && t.folder == Folder(ToCleanUp, |trials|, cleanup[|trials|]) && Fair(t)
    requires t.stopped ==> askedNext
    requires forall i :: 0 <= i < |trials| && trials[i].stopped ==> t.taken.None?
    ensures HooksTried(trials + [t], cleaned + [Kept(t)], cleanup, askedNext)
  {
  }
}
