/**
 Commands that are answered well end well, and how processes are stopped: the other half of what each
 command of the managed release machine promises.
 */
module DeploymentProgress {
  import opened Wrappers
  import opened DeploymentSpec
  import opened DeploymentFacts
  import opened DeploymentRuns
  import opened DeploymentAnswers

  // ----- commands that are answered well end well -----

  predicate Answers(h: Host, expected: seq<Answer>) {
    |expected| <= |h.answers| && h.answers[..|expected|] == expected
  }

  /** The supervisor is found after the launch and its child after the report. */
  predicate Launchable(h: Host, pid: Pid, child: Ident) {
    pid in Look(h).world.procs && Alive(Look(Look(h)).world, child)
  }

  /** The entry which such a launch leaves. */
  function NewEntry(h: Host, commit: string, digest: string, pid: Pid, child: Ident): Entry
    requires Launchable(h, pid, child)
  {
    Entry(commit, digest, h.world.boot, Look(h).world.procs[pid], child)
  }

  lemma AnsweredBy(h: Host, q: Question, expected: seq<Answer>)
    requires expected != [] && Answers(h, expected)
    ensures var (n, a) := Ask(h, q);
            a == expected[0] && Answers(n, expected[1..]) && n == h.(answers := n.answers, effects := n.effects)
  {
    assert h.answers[0] == h.answers[..|expected|][0];
    assert h.answers[1..][..|expected| - 1] == h.answers[..|expected|][1..];
  }

  /** Inspections depend on the process tables only. */
  lemma SameLook(h: Host, m: Host)
    requires m.world == h.world && m.future == h.future
    ensures Look(m).world == Look(h).world && Look(m).future == Look(h).future
  {
  }

  lemma LookBoot(h: Host)
    ensures Look(h).world.boot == h.world.boot
    ensures Look(h) == h.(world := Look(h).world, future := Look(h).future)
  {
  }

  lemma StartsWhenAnswered(
      h: Host, commit: string, digest: string, polls: nat, pid: Pid, child: Ident, rest: seq<Answer>)
    requires Launchable(h, pid, child) && Answers(h, [DeploymentSpec.Launched(pid, child), Yes] + rest)
    ensures var (n, launch) := Start(h, commit, digest, polls);
            && launch == Running(NewEntry(h, commit, digest, pid, child))
            && Answers(n, rest) && n.disk == h.disk
            && n.world == Look(Look(h)).world && n.future == Look(Look(h)).future
  {
    hide Look, Ask;
    var expected := [DeploymentSpec.Launched(pid, child), Yes] + rest;
    AnsweredBy(h, Spawn(commit), expected);
    var h1 := Ask(h, Spawn(commit)).0;
    SameLook(h, h1);
    LookBoot(h);
    LookBoot(h1);
    var h2 := Look(h1);
    assert expected[1..] == [Yes] + rest;
    AnsweredBy(h2, Report, expected[1..]);
    var h3 := Ask(h2, Report).0;
    SameLook(Look(h), h3);
    LookBoot(h3);
    assert expected[1..][1..] == rest;
  }

  lemma SavesWhenAnswered(h: Host, r: Registry, rest: seq<Answer>)
    requires Answers(h, [Yes] + rest)
    ensures var (n, end) := Save(h, r);
            && end.Ok? && Answers(n, rest) && n.disk == r && n.world == h.world && n.future == h.future
  {
    AnsweredBy(h, DeploymentSpec.Write(r), [Yes] + rest);
  }

  lemma TriesWhenAnswered(h: Host, q: Question, rest: seq<Answer>)
    requires Answers(h, [Yes] + rest)
    ensures var (n, end) := Try(h, q);
            && end.Ok? && Answers(n, rest) && n.disk == h.disk && n.world == h.world && n.future == h.future
  {
    AnsweredBy(h, q, [Yes] + rest);
  }

  lemma ProbesWhenAnswered(h: Host, e: Entry, rest: seq<Answer>)
    requires Answers(h, [Yes] + rest)
    ensures var (n, end) := Probe(h, e); end.Ok? && Answers(n, rest) && n.disk == h.disk
  {
    hide Look;
    LookBoot(h);
    TriesWhenAnswered(Look(h), Reach(e), rest);
  }

  lemma EstablishesWhenAnswered(h: Host, r: Registry, e: Entry, bad: Status, rest: seq<Answer>)
    requires Answers(h, [Yes, Yes] + rest)
    ensures var (n, end) := Establish(h, r, e, bad); end.Ok? && Answers(n, rest) && n.disk == r
  {
    hide Save, Probe;
    assert [Yes, Yes] + rest == [Yes] + ([Yes] + rest);
    SavesWhenAnswered(h, r, [Yes] + rest);
    ProbesWhenAnswered(Save(h, r).0, e, rest);
  }

  lemma BeginsWhenAnswered(
      h: Host, c: Call, previous: Option<string>, recovering: bool, polls: nat, pid: Pid, child: Ident)
    requires Launchable(h, pid, child)
    requires Answers(h, [Yes] + ([DeploymentSpec.Launched(pid, child), Yes] + ([Yes, Yes] + [Yes, Yes])))
    ensures var (n, end) := Begin(h, c, previous, recovering, polls);
            && end.Ok?
            && n.disk == Registry(Some(NewEntry(h, c.commit, c.digest, pid, child)), previous, Some(c.commit),
                                  h.disk.rolledFrom, Some(c.path), Some(c.digest), Some(Healthy))
  {
    hide Save, Start, Establish, Try, Look;
    var r := Opening(h.disk, c, previous, recovering);
    SavesWhenAnswered(h, r, [DeploymentSpec.Launched(pid, child), Yes] + ([Yes, Yes] + [Yes, Yes]));
    var h1 := Save(h, r).0;
    SameLook(h, h1);
    SameLook(Look(h), Look(h1));
    StartsWhenAnswered(h1, c.commit, c.digest, polls, pid, child, [Yes, Yes] + [Yes, Yes]);
    var (h2, launch) := Start(h1, c.commit, c.digest, polls);
    var probing := r.(active := Some(launch.entry), status := Some(Probing));
    EstablishesWhenAnswered(h2, probing, launch.entry, Unhealthy, [Yes, Yes]);
    var h3 := Establish(h2, probing, launch.entry, Unhealthy).0;
    assert [Yes, Yes] == [Yes] + ([Yes] + []);
    TriesWhenAnswered(h3, Verify(c.commit), [Yes] + []);
    SavesWhenAnswered(Try(h3, Verify(c.commit)).0, probing.(status := Some(Healthy)), []);
  }

  /** A deploy onto nothing, or onto what an earlier boot ran, ends well when it is answered well. */
  lemma DeploysWhenAnswered(h: Host, c: Call, polls: nat, pid: Pid, child: Ident)
    requires HostOk(h) && (h.disk.active.Some? ==> h.disk.active.value.boot != h.world.boot)
    requires Launchable(h, pid, child)
    requires var launch := [Yes] + ([DeploymentSpec.Launched(pid, child), Yes] + ([Yes, Yes] + [Yes, Yes]));
             Answers(h, if h.disk.active.Some? then [Yes] + launch else launch)
    ensures var (n, end) := Deploy(h, c, polls);
            && end.Ok? && n.disk.status == Some(Healthy)
            && n.disk.active == Some(NewEntry(h, c.commit, c.digest, pid, child))
            && n.disk.operation == Some(c.commit) && n.disk.previous == TargetOf(h.disk, c.commit)
  {
    hide Begin, Try, Look;
    var launch := [Yes] + ([DeploymentSpec.Launched(pid, child), Yes] + ([Yes, Yes] + [Yes, Yes]));
    if h.disk.active.None? {
      BeginsWhenAnswered(h, c, None, false, polls, pid, child);
    } else {
      var e := h.disk.active.value;
      TriesWhenAnswered(h, Verify(e.commit), launch);
      var h1 := Try(h, Verify(e.commit)).0;
      SameLook(h, h1);
      SameLook(Look(h), Look(h1));
      var same := e.commit == c.commit;
      BeginsWhenAnswered(h1, c, if same then h.disk.previous else Some(e.commit), same, polls, pid, child);
    }
  }

  /** A rollback of a release that left no process ends well when it is answered well. */
  lemma RollsBackWhenAnswered(h: Host, c: Call, polls: nat, pid: Pid, child: Ident)
    requires h.disk.operation == Some(c.commit) && h.disk.digest == Some(c.digest) && h.disk.previous.Some?
    requires h.disk.active.None? && Launchable(h, pid, child)
    requires Answers(h, [Yes] + ([Yes] + ([DeploymentSpec.Launched(pid, child), Yes] + ([Yes, Yes] + [Yes]))))
    ensures var (n, end) := Rollback(h, c, polls);
            && end.Ok?
            && n.disk == Registry(Some(NewEntry(h, h.disk.previous.value, c.digest, pid, child)), None,
                                  Some(c.commit), Some(c.commit), Some(c.path), Some(c.digest), Some(RolledBack))
  {
    hide Save, Start, Establish, Try, Look;
    var target := h.disk.previous.value;
    var launch := [DeploymentSpec.Launched(pid, child), Yes] + ([Yes, Yes] + [Yes]);
    TriesWhenAnswered(h, Verify(target), [Yes] + launch);
    var h0 := Try(h, Verify(target)).0;
    var r := h0.disk.(active := None, status := Some(RollingBack));
    SavesWhenAnswered(h0, r, launch);
    var h1 := Save(h0, r).0;
    SameLook(h, h1);
    SameLook(Look(h), Look(h1));
    StartsWhenAnswered(h1, target, c.digest, polls, pid, child, [Yes, Yes] + [Yes]);
    var (h2, l) := Start(h1, target, c.digest, polls);
    var probing := r.(active := Some(l.entry), status := Some(ProbingRollback));
    EstablishesWhenAnswered(h2, probing, l.entry, RollbackUnhealthy, [Yes]);
    var h3 := Establish(h2, probing, l.entry, RollbackUnhealthy).0;
    assert [Yes] == [Yes] + [];
    SavesWhenAnswered(h3, probing.(previous := None, rolledFrom := Some(c.commit), spec := Some(c.path),
      status := Some(RolledBack)), []);
  }

  /** The recorded entry may be recovered by this call. */
  predicate Recoverable(h: Host, path: string, digest: string) {
    && HostOk(h) && Established(h.disk.status) && h.disk.spec == Some(path) && h.disk.digest == Some(digest)
  }

  /** After a reboot the active commit is launched again, and that ends well when it is answered well. */
  lemma RecoversAfterReboot(h: Host, path: string, digest: string, polls: nat, pid: Pid, child: Ident)
    requires Recoverable(h, path, digest) && h.disk.active.value.boot != h.world.boot && Launchable(h, pid, child)
    requires Answers(h, [Yes] + ([DeploymentSpec.Launched(pid, child), Yes] + ([Yes] + ([Yes] + ([Yes] + [Yes])))))
    ensures var (n, end) := Recover(h, path, digest, polls);
            && end.Ok?
            && n.disk == h.disk.(active := Some(NewEntry(h, h.disk.active.value.commit, digest, pid, child)))
  {
    hide Save, Start, Probe, Try, Look;
    var e := h.disk.active.value;
    var rest := [Yes] + ([Yes] + ([Yes] + [Yes]));
    TriesWhenAnswered(h, Verify(e.commit), [DeploymentSpec.Launched(pid, child), Yes] + rest);
    var h0 := Try(h, Verify(e.commit)).0;
    SameLook(h, h0);
    SameLook(Look(h), Look(h0));
    StartsWhenAnswered(h0, e.commit, e.digest, polls, pid, child, rest);
    var (h1, launch) := Start(h0, e.commit, e.digest, polls);
    var r := h1.disk.(active := Some(launch.entry));
    SavesWhenAnswered(h1, r, [Yes] + ([Yes] + [Yes]));
    var h2 := Save(h1, r).0;
    ProbesWhenAnswered(h2, launch.entry, [Yes] + [Yes]);
    var h3 := Probe(h2, launch.entry).0;
    TriesWhenAnswered(h3, Verify(e.commit), [Yes]);
    assert [Yes] == [Yes] + [];
    SavesWhenAnswered(Try(h3, Verify(e.commit)).0, r, []);
  }

  /** Both processes of the entry are found by the next two inspections. */
  predicate Found(h: Host, e: Entry) {
    e.boot == h.world.boot && Alive(Look(h).world, e.supervisor) && Alive(Look(Look(h)).world, e.child)
  }

  /** A service that runs and answers is left alone, by recovery and by a deploy of the same commit. */
  lemma LeftAloneWhenAnswered(h: Host, c: Call, polls: nat)
    requires Recoverable(h, c.path, c.digest) && Found(h, h.disk.active.value) && Answers(h, [Yes] + [Yes])
    requires c.commit == h.disk.active.value.commit
    ensures Recover(h, c.path, c.digest, polls) == Deploy(h, c, polls)
    ensures var (n, end) := Deploy(h, c, polls);
            && end.Ok? && n.disk == h.disk
            && n.effects == h.effects + [Asked(Verify(c.commit), Yes), Asked(Reach(h.disk.active.value), Yes)]
  {
    hide Try, Look, Probe;
    var e := h.disk.active.value;
    TriesWhenAnswered(h, Verify(e.commit), [Yes]);
    TryAsks(h, Verify(e.commit));
    var h1 := Try(h, Verify(e.commit)).0;
    SameLook(h, h1);
    SameLook(Look(h), Look(h1));
    LookBoot(h1);
    LookBoot(Look(h1));
    var h3 := Look(Look(h1));
    assert Answers(h3, [Yes] + []) by { assert [Yes] == [Yes] + []; }
    ProbesWhenAnswered(h3, e, []);
    ProbeAsks(h3, e);
  }

  /** A service that runs and answers is found healthy. */
  lemma HealthyWhenAnswered(h: Host, c: Call)
    requires h.disk.operation == Some(c.commit) && h.disk.active.Some? && h.disk.active.value.digest == c.digest
    requires Alive(Look(h).world, h.disk.active.value.supervisor)
    requires Alive(Look(Look(h)).world, h.disk.active.value.child)
    requires Answers(h, [Yes] + ([Yes] + [Yes]))
    ensures Health(h, c).1.Ok?
  {
    hide Try, Look, Probe, Save;
    var e := h.disk.active.value;
    LookBoot(h);
    LookBoot(Look(h));
    var h1 := Look(Look(h));
    TriesWhenAnswered(h1, Verify(e.commit), [Yes] + [Yes]);
    var h2 := Try(h1, Verify(e.commit)).0;
    ProbesWhenAnswered(h2, e, [Yes]);
    var h3 := Probe(h2, e).0;
    assert [Yes] == [Yes] + [];
    SavesWhenAnswered(h3, h3.disk.(status := Some(Healthy)), []);
  }

  // ----- stopping -----

  function Looks(h: Host, k: nat): Host
    decreases k
  {
    if k == 0 then h else Looks(Look(h), k - 1)
  }

  predicate Present(h: Host, k: nat, pid: Pid) { pid in Looks(h, k).world.procs }

  /** The process is there in each of the first `n` inspections. */
  ghost predicate Remains(h: Host, n: nat, pid: Pid) {
    forall k: nat :: 1 <= k <= n ==> Present(h, k, pid)
  }

  lemma StaysOn(h: Host, n: nat, pid: Pid)
    ensures Remains(h, n + 1, pid) <==> pid in Look(h).world.procs && Remains(Look(h), n, pid)
  {
    hide Look;
    var m := Look(h);
    forall k: nat ensures Present(h, k + 1, pid) <==> Present(m, k, pid) {}
    assert Present(m, 0, pid) <==> pid in m.world.procs;
    if Remains(h, n + 1, pid) {
      assert Present(h, 0 + 1, pid);
      forall k: nat | 1 <= k <= n ensures Present(m, k, pid) { assert Present(h, k + 1, pid); }
    }
    if pid in m.world.procs && Remains(m, n, pid) {
      forall k: nat | 1 <= k <= n + 1 ensures Present(h, k, pid) { assert Present(m, k - 1, pid); }
    }
  }

  /** Waiting ends well exactly if one of its inspections no longer shows the process. */
  lemma {:induction false} WaitGoneIff(h: Host, pid: Pid, polls: nat)
    ensures WaitGone(h, pid, polls).1 <==> !Remains(h, polls + 1, pid)
    ensures !WaitGone(h, pid, polls).1 ==> WaitGone(h, pid, polls).0 == Looks(h, polls + 1)
    decreases polls
  {
    hide Look, Remains;
    StaysOn(h, polls, pid);
    var n := Look(h);
    assert Looks(h, 1) == Looks(n, 0) == n;
    if pid in n.world.procs {
      if polls > 0 {
        WaitGoneIff(n, pid, polls - 1);
      } else {
        NoInspection(n, pid);
      }
    }
  }

  lemma NoInspection(h: Host, pid: Pid)
    ensures Remains(h, 0, pid)
  {
  }

  /**
   A process is killed exactly if it outlives its deadline and is still the same one when it is killed. What
   fails is to find another process in its place then.
   */
  lemma KilledIff(h: Host, i: Ident, polls: nat)
    ensures EndProcess(h, i, polls).0.effects
        == h.effects
           + if Remains(h, polls + 1, i.pid) && Alive(Looks(h, polls + 2).world, i) then [Killed(i, i)] else []
    ensures EndProcess(h, i, polls).1
        == if Remains(h, polls + 1, i.pid) && Present(h, polls + 2, i.pid) && !Alive(Looks(h, polls + 2).world, i)
           then Failed else Ok
  {
    hide Look, WaitGone, Remains;
    WaitGoneIff(h, i.pid, polls);
    WaitsOnly(h, i.pid, polls);
    var (n, gone) := WaitGone(h, i.pid, polls);
    if !gone {
      LooksMore(h, polls + 1);
      LookBoot(n);
    }
  }

  lemma {:induction false} LooksMore(h: Host, k: nat)
    ensures Looks(h, k + 1) == Look(Looks(h, k))
    decreases k
  {
    hide Look;
    if k > 0 { LooksMore(Look(h), k - 1); }
  }

  lemma {:induction false} WaitsOnly(h: Host, pid: Pid, polls: nat)
    ensures var n := WaitGone(h, pid, polls).0; n.effects == h.effects && n.answers == h.answers && n.disk == h.disk
    decreases polls
  {
    hide Look;
    LookBoot(h);
    if pid in Look(h).world.procs && polls > 0 { WaitsOnly(Look(h), pid, polls - 1); }
  }

  /** From inspection `k` on, the process is not there. */
  ghost predicate GoneFrom(h: Host, k: nat, pid: Pid) {
    forall i: nat :: k <= i ==> !Present(h, i, pid)
  }

  lemma LooksFrom(h: Host, k: nat, pid: Pid)
    requires k > 0 && GoneFrom(h, k, pid)
    ensures GoneFrom(Look(h), k - 1, pid)
  {
    hide Look;
    forall i: nat | k - 1 <= i ensures !Present(Look(h), i, pid) {
      assert !Present(h, i + 1, pid);
    }
  }

  lemma {:induction false} SamePresent(h: Host, m: Host, k: nat, pid: Pid)
    requires m.world == h.world && m.future == h.future
    ensures Present(m, k, pid) <==> Present(h, k, pid)
    decreases k
  {
    hide Look;
    if k > 0 {
      SameLook(h, m);
      SamePresent(Look(h), Look(m), k - 1, pid);
    }
  }

  /** A process that is gone needs one inspection and no signal. */
  lemma GoneAtOnce(h: Host, i: Ident, polls: nat)
    requires GoneFrom(h, 1, i.pid)
    ensures WaitGone(h, i.pid, polls) == (Look(h), true) && EndProcess(h, i, polls) == (Look(h), Ok)
  {
    hide Look;
    assert !Present(h, 1, i.pid);
    assert Looks(h, 1) == Looks(Look(h), 0) == Look(h);
  }

  /** Processes that end on request are stopped without a kill. */
  lemma StopsGracefully(h: Host, e: Entry, polls: nat, rest: seq<Answer>)
    requires Alive(Look(h).world, e.supervisor) && Alive(Look(Look(h)).world, e.child)
    requires GoneFrom(h, 3, e.supervisor.pid) && GoneFrom(h, 3, e.child.pid) && Answers(h, [Yes] + rest)
    ensures var (n, end) := StopOwned(h, e.supervisor, e.child, polls);
            && end.Ok? && n.effects == h.effects + [Asked(Shutdown(e.supervisor), Yes)]
            && n.disk == h.disk && Answers(n, rest)
  {
    hide Look, EndProcess, WaitGone, Ask;
    LookBoot(h);
    LookBoot(Look(h));
    var h2 := Look(Look(h));
    AnsweredBy(h2, Shutdown(e.supervisor), [Yes] + rest);
    AskRecords(h2, Shutdown(e.supervisor)) by { hide Onward; }
    var h3 := Ask(h2, Shutdown(e.supervisor)).0;
    GoneNow(h, h3, e.supervisor.pid);
    GoneNow(h, h3, e.child.pid);
    GoneAtOnce(h3, e.child, polls);
    LooksFrom1(h3, e.supervisor.pid);
    LooksFrom1(h3, e.child.pid);
    var h4 := Look(h3);
    GoneAtOnce(h4, e.supervisor, polls);
    LooksFrom1(h4, e.supervisor.pid);
    LooksFrom1(h4, e.child.pid);
    var h5 := Look(h4);
    GoneAtOnce(h5, e.child, polls);
    LooksFrom1(h5, e.supervisor.pid);
    GoneAtOnce(Look(h5), e.supervisor, polls);
    LookBoot(h3);
    LookBoot(h4);
    LookBoot(h5);
    LookBoot(Look(h5));
  }

  lemma GoneNow(h: Host, m: Host, pid: Pid)
    requires GoneFrom(h, 3, pid) && m.world == Look(Look(h)).world && m.future == Look(Look(h)).future
    ensures GoneFrom(m, 1, pid)
  {
    hide Look;
    LooksFrom(h, 3, pid);
    LooksFrom(Look(h), 2, pid);
    forall i: nat | 1 <= i ensures !Present(m, i, pid) {
      SamePresent(Look(Look(h)), m, i, pid);
    }
  }

  lemma LooksFrom1(h: Host, pid: Pid)
    requires GoneFrom(h, 1, pid)
    ensures GoneFrom(Look(h), 1, pid)
  {
    hide Look;
    LooksFrom(h, 1, pid);
  }

  /** Under the recorded PID runs another process: nothing is asked, killed or written. */
  lemma ReusedPidsAreLeftAlone(h: Host, e: Entry, polls: nat)
    requires Present(h, 1, e.supervisor.pid) && !Alive(Look(h).world, e.supervisor)
    ensures StopOwned(h, e.supervisor, e.child, polls) == (Look(h), Failed)
    ensures Look(h).effects == h.effects && Look(h).disk == h.disk && Look(h).answers == h.answers
  {
    LookBoot(h);
    assert Looks(h, 1) == Looks(Look(h), 0) == Look(h);
  }

  /** A service that runs and ends on request is stopped without a kill. */
  lemma StopsWhenAnswered(h: Host, c: Call, polls: nat)
    requires h.disk.operation == Some(c.commit) && h.disk.active.Some? && h.disk.active.value.digest == c.digest
    requires var e := h.disk.active.value;
             && Alive(Look(h).world, e.supervisor) && Alive(Look(Look(h)).world, e.child)
             && var m := Look(Look(h));
                && Alive(Look(m).world, e.supervisor) && Alive(Look(Look(m)).world, e.child)
                && GoneFrom(m, 3, e.supervisor.pid) && GoneFrom(m, 3, e.child.pid)
    requires Answers(h, [Yes] + [Yes])
    ensures var (n, end) := Stop(h, c, polls);
            && end.Ok? && n.disk == h.disk.(active := None, status := Some(Halted))
            && n.effects == h.effects + [Asked(Shutdown(h.disk.active.value.supervisor), Yes),
                                         Asked(DeploymentSpec.Write(n.disk), Yes)]
  {
    hide Look, StopOwned, Save, GoneFrom;
    var e := h.disk.active.value;
    LookBoot(h);
    LookBoot(Look(h));
    var m := Look(Look(h));
    StopsGracefully(m, e, polls, [Yes]);
    var k := StopOwned(m, e.supervisor, e.child, polls).0;
    var r := k.disk.(active := None, status := Some(Halted));
    assert Answers(k, [Yes] + []) by { assert [Yes] + [] == [Yes]; }
    SavesWhenAnswered(k, r, []);
    SaveAsks(k, r);
  }

  // ----- nothing that failed is left running -----

  /** A supervisor that reports nothing in time is killed. */
  lemma UnreportedLaunchesAreKilled(h: Host, commit: string, digest: string, polls: nat, pid: Pid, child: Ident)
    requires Answers(h, [DeploymentSpec.Launched(pid, child)] + [No]) && pid in Look(h).world.procs
    requires Alive(Look(Look(h)).world, Look(h).world.procs[pid])
    ensures var supervisor := Look(h).world.procs[pid];
            var (n, launch) := Start(h, commit, digest, polls);
            launch.NotRunning? && EndsWith(n.effects, |h.effects|, [Killed(supervisor, supervisor)])
  {
    hide Look, Ask;
    AnsweredBy(h, Spawn(commit), [DeploymentSpec.Launched(pid, child)] + [No]);
    AskRecords(h, Spawn(commit)) by { hide Onward; }
    var h1 := Ask(h, Spawn(commit)).0;
    SameLook(h, h1);
    LookBoot(h1);
    var h2 := Look(h1);
    AnsweredBy(h2, Report, [No]);
    AskRecords(h2, Report) by { hide Onward; }
    var h3 := Ask(h2, Report).0;
    SameLook(Look(h), h3);
    LookBoot(h3);
  }

  /** A launch whose report is bad is asked to stop, and when it does nobody is killed. */
  lemma BadReportsAreStopped(h: Host, commit: string, digest: string, polls: nat, pid: Pid, child: Ident)
    requires Answers(h, [DeploymentSpec.Launched(pid, child)] + ([Lost] + ([Yes] + []))) && pid in Look(h).world.procs
    requires var m, supervisor := Look(h), Look(h).world.procs[pid];
             && Alive(Look(m).world, supervisor) && Alive(Look(Look(m)).world, child)
             && GoneFrom(m, 3, supervisor.pid) && GoneFrom(m, 3, child.pid)
    ensures var supervisor := Look(h).world.procs[pid];
            var (n, launch) := Start(h, commit, digest, polls);
            launch.NotRunning? && EndsWith(n.effects, |h.effects|, [Asked(Shutdown(supervisor), Yes)])
  {
    hide Look, Ask, StopOwned, GoneFrom;
    AnsweredBy(h, Spawn(commit), [DeploymentSpec.Launched(pid, child)] + ([Lost] + ([Yes] + [])));
    AskRecords(h, Spawn(commit)) by { hide Onward; }
    var h1 := Ask(h, Spawn(commit)).0;
    SameLook(h, h1);
    LookBoot(h1);
    var h2 := Look(h1);
    AnsweredBy(h2, Report, [Lost] + ([Yes] + []));
    AskRecords(h2, Report) by { hide Onward; }
    var h3 := Ask(h2, Report).0;
    SameLook(Look(h), h3);
    SameLook(Look(Look(h)), Look(h3));
    SameGone(Look(h), h3, 3, h2.world.procs[pid].pid);
    SameGone(Look(h), h3, 3, child.pid);
    StopsGracefully(h3, Entry(commit, digest, 0, h2.world.procs[pid], child), polls, []);
  }

  lemma SameGone(h: Host, m: Host, k: nat, pid: Pid)
    requires GoneFrom(h, k, pid) && m.world == h.world && m.future == h.future
    ensures GoneFrom(m, k, pid)
  {
    forall i: nat | k <= i ensures !Present(m, i, pid) { SamePresent(h, m, i, pid); }
  }

  /** The service is there after a failed probe, and ends on request. */
  ghost predicate EndsOnRequest(h: Host, supervisor: Ident, child: Ident) {
    && Alive(Look(h).world, supervisor) && Alive(Look(Look(h)).world, child)
    && GoneFrom(h, 3, supervisor.pid) && GoneFrom(h, 3, child.pid)
  }

  lemma SameEnding(h: Host, m: Host, supervisor: Ident, child: Ident)
    requires EndsOnRequest(h, supervisor, child) && m.world == h.world && m.future == h.future
    ensures EndsOnRequest(m, supervisor, child)
  {
    hide Look, GoneFrom;
    SameLook(h, m);
    SameLook(Look(h), Look(m));
    SameGone(h, m, 3, supervisor.pid);
    SameGone(h, m, 3, child.pid);
  }

  lemma EndingStops(h: Host, e: Entry, polls: nat)
    requires EndsOnRequest(h, e.supervisor, e.child) && Answers(h, [Yes] + [])
    ensures var (n, end) := StopOwned(h, e.supervisor, e.child, polls);
            && end.Ok? && n.effects == h.effects + [Asked(Shutdown(e.supervisor), Yes)] && n.disk == h.disk
  {
    hide GoneFrom, Look, StopOwned;
    StopsGracefully(h, e, polls, []);
  }

  /** A restart whose service does not answer fails, and asks the service it started to stop. */
  lemma RestartStopsWhatItCannotReach(h: Host, e: Entry, polls: nat, pid: Pid, child: Ident)
    requires SoundWorld(h.world) && Launchable(h, pid, child)
    requires Answers(h, [DeploymentSpec.Launched(pid, child), Yes] + ([Yes] + ([No] + ([Yes] + []))))
    requires EndsOnRequest(Look(Look(Look(h))), Look(h).world.procs[pid], child)
    ensures var f := NewEntry(h, e.commit, e.digest, pid, child);
            var (n, end) := Restart(h, e, polls);
            && end.Failed? && n.disk == h.disk.(active := Some(f))
            && EndsWith(n.effects, |h.effects|, [Asked(Reach(f), No), Asked(Shutdown(f.supervisor), Yes)])
  {
    hide Save, Start, Probe, Try, Look, StopOwned, EndsOnRequest, Alive;
    var rest := [Yes] + ([No] + ([Yes] + []));
    StartsWhenAnswered(h, e.commit, e.digest, polls, pid, child, rest);
    var (h1, launch) := Start(h, e.commit, e.digest, polls);
    StartRunning(h, e.commit, e.digest, polls) by { hide Did, LaunchedAs; }
    var f := launch.entry;
    var r := h1.disk.(active := Some(f));
    SavesWhenAnswered(h1, r, [No] + ([Yes] + []));
    SaveAsks(h1, r) by { hide Plain; }
    var h2 := Save(h1, r).0;
    SameLook(Look(Look(h)), h2);
    ProbeFails(h2, f, [Yes] + []);
    var h3 := Probe(h2, f).0;
    SameEnding(Look(Look(Look(h))), h3, f.supervisor, child);
    EndingStops(h3, f, polls);
    var n := StopOwned(h3, f.supervisor, child, polls).0;
    assert n.effects == h2.effects + [Asked(Reach(f), No), Asked(Shutdown(f.supervisor), Yes)];
  }

  /** So does a recovery after a reboot. */
  lemma RecoveryStopsWhatItCannotReach(h: Host, path: string, digest: string, polls: nat, pid: Pid, child: Ident)
    requires Recoverable(h, path, digest) && h.disk.active.value.boot != h.world.boot && Launchable(h, pid, child)
    requires Answers(h, [Yes] + ([DeploymentSpec.Launched(pid, child), Yes] + ([Yes] + ([No] + ([Yes] + [])))))
    requires EndsOnRequest(Look(Look(Look(h))), Look(h).world.procs[pid], child)
    ensures var e := NewEntry(h, h.disk.active.value.commit, digest, pid, child);
            var (n, end) := Recover(h, path, digest, polls);
            && end.Failed? && n.disk == h.disk.(active := Some(e))
            && EndsWith(n.effects, |h.effects|, [Asked(Reach(e), No), Asked(Shutdown(e.supervisor), Yes)])
  {
    hide Restart, Try, Look, EndsOnRequest, Alive;
    var e := h.disk.active.value;
    TriesWhenAnswered(h, Verify(e.commit),
      [DeploymentSpec.Launched(pid, child), Yes] + ([Yes] + ([No] + ([Yes] + []))));
    TryAsks(h, Verify(e.commit)) by { hide Plain; }
    var h0 := Try(h, Verify(e.commit)).0;
    SameLook(h, h0);
    SameLook(Look(h), Look(h0));
    SameLook(Look(Look(h)), Look(Look(h0)));
    SameEnding(Look(Look(Look(h))), Look(Look(Look(h0))), Look(h).world.procs[pid], child);
    RestartStopsWhatItCannotReach(h0, e, polls, pid, child);
  }

  lemma ProbeFails(h: Host, e: Entry, rest: seq<Answer>)
    requires Answers(h, [No] + rest)
    ensures var (n, end) := Probe(h, e);
            && end.Failed? && Answers(n, rest) && n.disk == h.disk
            && n.world == Look(h).world && n.future == Look(h).future
            && n.effects == h.effects + [Asked(Reach(e), No)]
  {
    hide Look, Ask;
    LookBoot(h);
    AnsweredBy(Look(h), Reach(e), [No] + rest);
    AskRecords(Look(h), Reach(e)) by { hide Onward; }
  }
}
