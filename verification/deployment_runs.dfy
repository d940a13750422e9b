/**
 The five commands: what one command does, what a rollback after a deploy does, and what every run of
 commands, process changes and reboots keeps.
 */
module DeploymentRuns {
  import opened Wrappers
  import opened DeploymentSpec
  import opened DeploymentFacts

  // ----- deploy -----

  lemma StopAndBeginFacts(h: Host, e: Entry, c: Call, previous: Option<string>, recovering: bool, polls: nat)
    requires HostOk(h) && EntryBorn(h.world, e) && e.boot == h.world.boot
    ensures var (n, end) := StopAndBegin(h, e, c, previous, recovering, polls);
            && Did(h, n, Some(e)) && HostOk(n)
            && (n.disk == h.disk || Rewritten(n, c.commit, previous, c.digest))
            && (end.Ok? ==> Rewritten(n, c.commit, previous, c.digest) && Serves(n, Healthy, c.commit))
  {
    hide Did, Quiet, StopOwned, Begin, Rewritten, Serves;
    StopOwnedFacts(h, e.supervisor, e.child, polls);
    var (m, stopped) := StopOwned(h, e.supervisor, e.child, polls);
    QuietTime(h, m, e.supervisor, e.child);
    OnlyTimePassed(h, m);
    StoppedDid(h, m, e);
    if stopped.Ok? {
      BeginFacts(m, c, previous, recovering, polls, Some(e));
      QuietDid(h, m, Begin(m, c, previous, recovering, polls).0, e);
    }
  }

  lemma StoppedDid(h: Host, n: Host, e: Entry)
    requires Quiet(h, n, e.supervisor, e.child)
    ensures Did(h, n, Some(e))
  {
  }

  lemma BothAbsent(w: World, v: World, e: Entry)
    requires EntryBorn(w, e) && e.boot == w.boot && Since(w, v) && !Alive(w, e.supervisor) && !Alive(v, e.child)
    ensures Cleared(e, v)
  {
    GoneStays(w, v, e.supervisor);
  }

  /** The same commit again: reuse changes nothing, a restart records the same target as before. */
  lemma RedeployFacts(h: Host, e: Entry, c: Call, polls: nat)
    requires HostOk(h) && EntryBorn(h.world, e) && h.disk.active == Some(e) && e.commit == c.commit
    ensures var (n, end) := Redeploy(h, e, c, polls);
            && Did(h, n, Some(e)) && HostOk(n)
            && (n.disk == h.disk || Rewritten(n, c.commit, h.disk.previous, c.digest))
            && (end.Ok? ==> n.disk.active.Some? && n.disk.active.value.commit == c.commit)
  {
    hide Did, Quiet, Alive, Matches, Begin, StopAndBegin, Rewritten, Probe, HostOk, Since, EntryBorn, Cleared;
    if e.boot != h.world.boot {
      OtherBoot(e, h.world);
      BeginFacts(h, c, h.disk.previous, true, polls, Some(e));
    } else {
      var (h1, s) := Matches(h, e.supervisor);
      MatchesFacts(h, e.supervisor, e.supervisor, e.child);
      Stays(h, h1, e);
      if !s.Mismatch? {
        var (h2, k) := Matches(h1, e.child);
        MatchesFacts(h1, e.child, e.supervisor, e.child);
        Stays(h1, h2, e);
        QuietTrans(h, h1, h2, e.supervisor, e.child);
        StoppedDid(h, h2, e);
        if k.Mismatch? {
        } else if s.Absent? && k.Absent? {
          BothAbsent(h1.world, h2.world, e);
          BeginFacts(h2, c, h.disk.previous, true, polls, Some(e));
          QuietDid(h, h2, Begin(h2, c, h.disk.previous, true, polls).0, e);
        } else if !(s.Live? && k.Live?) {
          StopAndBeginFacts(h2, e, c, h.disk.previous, true, polls);
          QuietDid(h, h2, StopAndBegin(h2, e, c, h.disk.previous, true, polls).0, e);
        } else {
          ProbeFacts(h2, e);
          var (h3, probed) := Probe(h2, e);
          PlainStays(h2, h3, e);
          DidPlain(h, h2, h3, Some(e));
          if probed.Failed? {
            StopAndBeginFacts(h3, e, c, h.disk.previous, true, polls);
            var n := StopAndBegin(h3, e, c, h.disk.previous, true, polls).0;
            PlainDid(h2, h3, n, Some(e));
            QuietDid(h, h2, n, e);
          }
        }
      } else {
        StoppedDid(h, h1, e);
      }
    }
  }

  lemma OtherBoot(e: Entry, w: World)
    requires e.boot != w.boot
    ensures Cleared(e, w)
  {
  }

  /** Nothing a stop does spoils the host or the entry's birth. */
  lemma Stays(h: Host, n: Host, e: Entry)
    requires HostOk(h) && Quiet(h, n, e.supervisor, e.child) && EntryBorn(h.world, e)
    ensures HostOk(n) && EntryBorn(n.world, e) && n.disk == h.disk && n.world.boot == h.world.boot
        && Since(h.world, n.world)
  {
    OnlyTimePassed(h, n);
    EntryBornStays(h.world, n.world, e);
  }

  lemma PlainStays(h: Host, n: Host, e: Entry)
    requires HostOk(h) && Plain(h, n) && n.disk == h.disk && EntryBorn(h.world, e)
    ensures HostOk(n) && EntryBorn(n.world, e) && n.world.boot == h.world.boot && Since(h.world, n.world)
  {
    OnlyTimePassed(h, n);
    EntryBornStays(h.world, n.world, e);
  }

  /** The rollback target a deploy of `commit` records. */
  function TargetOf(r: Registry, commit: string): Option<string> {
    if r.active.None? then None
    else if r.active.value.commit == commit then r.previous
    else Some(r.active.value.commit)
  }

  /**
   Deploy: whatever happens, the durable registry is untouched or records this operation and the commit
   it replaced; a launch finds the replaced entry cleared; only recorded or own processes are killed.
   */
  lemma DeployFacts(h: Host, c: Call, polls: nat)
    requires HostOk(h)
    ensures var (n, end) := Deploy(h, c, polls);
            && Did(h, n, h.disk.active) && HostOk(n)
            && (n.disk == h.disk || Rewritten(n, c.commit, TargetOf(h.disk, c.commit), c.digest))
            && (end.Ok? ==> n.disk.active.Some? && n.disk.active.value.commit == c.commit)
  {
    hide Did, Begin, StopAndBegin, Redeploy, Rewritten, Plain, HostOk, Since, EntryBorn, Cleared;
    if h.disk.active.None? {
      BeginFacts(h, c, None, false, polls, None);
    } else {
      var e := h.disk.active.value;
      ActiveBorn(h);
      var (h1, verified) := Try(h, Verify(e.commit));
      TryFacts(h, Verify(e.commit));
      PlainStays(h, h1, e);
      DidNothing(h, h1, Some(e));
      SelfDid(h, Some(e));
      if verified.Ok? {
        if e.commit == c.commit {
          RedeployFacts(h1, e, c, polls);
          PlainDid(h, h1, Redeploy(h1, e, c, polls).0, Some(e));
        } else if e.boot != h1.world.boot {
          OtherBoot(e, h1.world);
          BeginFacts(h1, c, Some(e.commit), false, polls, Some(e));
          PlainDid(h, h1, Begin(h1, c, Some(e.commit), false, polls).0, Some(e));
        } else {
          StopAndBeginFacts(h1, e, c, Some(e.commit), false, polls);
          PlainDid(h, h1, StopAndBegin(h1, e, c, Some(e.commit), false, polls).0, Some(e));
        }
      }
    }
  }

  lemma ActiveBorn(h: Host)
    requires HostOk(h) && h.disk.active.Some?
    ensures EntryBorn(h.world, h.disk.active.value)
  {
  }

  lemma SelfDid(h: Host, e: Option<Entry>)
    ensures Did(h, h, e)
  {
    assert h.effects[|h.effects|..] == [];
  }

  // ----- rollback -----

  lemma RestoreFacts(h: Host, c: Call, target: string, polls: nat, e: Option<Entry>)
    requires HostOk(h) && (e.Some? ==> Cleared(e.value, h.world)) && h.disk.digest == Some(c.digest)
    ensures var (n, end) := Restore(h, c, target, polls);
            && Did(h, n, e) && HostOk(n)
            && n.disk.operation == h.disk.operation && n.disk.digest == h.disk.digest
            && (end.Ok? ==> Serves(n, RolledBack, target) && n.disk.previous.None?)
            && (!end.Ok? ==> n.disk.previous == h.disk.previous && (n.disk == h.disk || !Established(n.disk.status)))
  {
    hide Did, Plain, Start, Establish, Since, Cleared, GiveUp;
    var r := h.disk.(active := None, status := Some(RollingBack));
    var (h1, saved) := Save(h, r);
    SaveFacts(h, r);
    DidNothing(h, h1, e);
    if saved.Ok? {
      var (h2, launch) := Start(h1, target, c.digest, polls);
      StartFacts(h1, target, c.digest, polls, e);
      PlainDid(h, h1, h2, e);
      if launch.NotRunning? {
        GiveUpFacts(h2, r, RollbackUnhealthy);
        DidPlain(h, h2, GiveUp(h2, r, RollbackUnhealthy).0, e);
      } else if launch.Running? {
        var probing := r.(active := Some(launch.entry), status := Some(ProbingRollback));
        EstablishFacts(h2, probing, launch.entry, RollbackUnhealthy);
        var (h3, end) := Establish(h2, probing, launch.entry, RollbackUnhealthy);
        DidPlain(h, h2, h3, e);
        if end.Ok? {
          var done := probing.(previous := None, rolledFrom := Some(c.commit), spec := Some(c.path),
            status := Some(RolledBack));
          SaveFacts(h3, done);
          DidPlain(h, h3, Save(h3, done).0, e);
        }
      }
    }
  }

  /** Rollback: success makes the recorded target the active commit and leaves no further target. */
  lemma RollbackFacts(h: Host, c: Call, polls: nat)
    requires HostOk(h)
    ensures var (n, end) := Rollback(h, c, polls);
            && Did(h, n, h.disk.active) && HostOk(n)
            && n.disk.operation == h.disk.operation && n.disk.digest == h.disk.digest
            && (end.Ok? ==> h.disk.operation == Some(c.commit) && n.disk.previous.None?)
            && (end.Ok? ==> h.disk.previous.Some? && Serves(n, RolledBack, h.disk.previous.value))
            && (!end.Ok? ==> n.disk.previous == h.disk.previous)
  {
    hide Did, Restore, Plain, HostOk, Since, EntryBorn, Cleared, StopOwned, Quiet, Alive, Serves;
    SelfDid(h, h.disk.active);
    if h.disk.operation == Some(c.commit) && h.disk.digest == Some(c.digest) && h.disk.previous.Some? {
      var target := h.disk.previous.value;
      var (h1, verified) := Try(h, Verify(target));
      TryFacts(h, Verify(target));
      DidNothing(h, h1, h.disk.active);
      if verified.Ok? {
        if h.disk.active.None? {
          RestoreFacts(h1, c, target, polls, None) by { TimeOk(h, h1); }
          PlainDid(h, h1, Restore(h1, c, target, polls).0, None);
          TimeOk(h, h1);
        } else {
          var e := h.disk.active.value;
          ActiveBorn(h);
          PlainStays(h, h1, e);
          if ValidEntry(e, c.digest) {
            StopOwnedFacts(h1, e.supervisor, e.child, polls);
            var (h2, stopped) := StopOwned(h1, e.supervisor, e.child, polls);
            Stays(h1, h2, e);
            StoppedDid(h1, h2, e);
            PlainDid(h, h1, h2, Some(e));
            if stopped.Ok? {
              StoppedIsCleared(h1.world, h2.world, e);
              RestoreFacts(h2, c, target, polls, Some(e));
              var n := Restore(h2, c, target, polls).0;
              QuietDid(h1, h2, n, e);
              PlainDid(h, h1, n, Some(e));
            }
          }
        }
      } else {
        TimeOk(h, h1);
      }
    }
  }

  lemma TimeOk(h: Host, n: Host)
    requires HostOk(h) && Plain(h, n) && n.disk == h.disk
    ensures HostOk(n)
  {
    OnlyTimePassed(h, n);
  }

  lemma StoppedIsCleared(w: World, v: World, e: Entry)
    requires EntryBorn(w, e) && v.boot == w.boot
    requires Born(w, e.supervisor) && Born(w, e.child) ==> !Alive(v, e.supervisor) && !Alive(v, e.child)
    ensures Cleared(e, v)
  {
  }

  // ----- health, stop, recover -----

  lemma AssertActiveFacts(h: Host, digest: string)
    ensures var (n, end) := AssertActive(h, digest);
            && Plain(h, n) && n.disk == h.disk
            && (end.Ok? ==> h.disk.active.Some? && h.disk.active.value.digest == digest)
  {
    hide Later, Alive;
    if h.disk.active.Some? && ValidEntry(h.disk.active.value, digest) {
      var e := h.disk.active.value;
      MatchesFacts(h, e.supervisor, e.supervisor, e.child);
      var h1 := Matches(h, e.supervisor).0;
      MatchesFacts(h1, e.child, e.supervisor, e.child);
      MatchesPlain(h, e.supervisor);
      MatchesPlain(h1, e.child);
      PlainTrans(h, h1, Matches(h1, e.child).0);
    }
  }

  lemma MatchesPlain(h: Host, i: Ident)
    ensures Plain(h, Matches(h, i).0) && Matches(h, i).0.effects == h.effects
  {
    hide Onward, Look;
    LookFacts(h);
  }

  /** Health launches and kills nothing, and records health only of an active entry that was probed. */
  lemma HealthFacts(h: Host, c: Call)
    requires HostOk(h)
    ensures var (n, end) := Health(h, c);
            && Plain(h, n) && HostOk(n)
            && n.disk == (if end.Ok? then h.disk.(status := Some(Healthy)) else h.disk)
            && (end.Ok? ==>
                  && h.disk.operation == Some(c.commit)
                  && n.disk.active.Some? && n.disk.active.value.digest == c.digest)
  {
    hide Plain, AssertActive, Since;
    PlainSelf(h);
    if h.disk.operation == Some(c.commit) {
      AssertActiveFacts(h, c.digest);
      var (h1, active) := AssertActive(h, c.digest);
      TimeOk(h, h1);
      if active.Ok? {
        var e := h1.disk.active.value;
        TryFacts(h1, Verify(e.commit));
        var (h2, verified) := Try(h1, Verify(e.commit));
        PlainTrans(h, h1, h2);
        TimeOk(h, h2);
        if verified.Ok? {
          ProbeFacts(h2, e);
          var (h3, probed) := Probe(h2, e);
          PlainTrans(h, h2, h3);
          TimeOk(h, h3);
          SaveFacts(h3, h3.disk.(status := Some(Healthy)));
          PlainTrans(h, h3, Save(h3, h3.disk.(status := Some(Healthy))).0);
        }
      }
    }
  }

  lemma PlainSelf(h: Host)
    ensures Plain(h, h)
  {
    assert h.effects[|h.effects|..] == [];
  }

  lemma StopFacts(h: Host, c: Call, polls: nat)
    requires HostOk(h)
    ensures var (n, end) := Stop(h, c, polls);
            && Did(h, n, h.disk.active) && HostOk(n)
            && n.disk == (if end.Ok? then h.disk.(active := None, status := Some(Halted)) else h.disk)
            && (end.Ok? ==> h.disk.active.Some? && Cleared(h.disk.active.value, n.world))
  {
    hide Did, Plain, Since, Quiet, AssertActive, StopOwned, EntryBorn, Alive, Cleared;
    SelfDid(h, h.disk.active);
    if h.disk.operation == Some(c.commit) {
      AssertActiveFacts(h, c.digest);
      var (h1, active) := AssertActive(h, c.digest);
      TimeOk(h, h1);
      DidNothing(h, h1, h.disk.active);
      if active.Ok? {
        var e := h.disk.active.value;
        StopOwnedFacts(h1, e.supervisor, e.child, polls);
        var (h2, stopped) := StopOwned(h1, e.supervisor, e.child, polls);
        Stays(h1, h2, e);
        StoppedDid(h1, h2, e);
        PlainDid(h, h1, h2, Some(e));
        if stopped.Ok? {
          StoppedIsCleared(h1.world, h2.world, e);
          var r := h2.disk.(active := None, status := Some(Halted));
          SaveFacts(h2, r);
          DidPlain(h, h2, Save(h2, r).0, Some(e));
          var n := Save(h2, r).0;
          assert n.world == h2.world;
        }
      }
    }
  }

  /** Everything of the registry but which processes run the active commit. */
  predicate SameIdentity(r: Registry, q: Registry) {
    && q.active.Some? == r.active.Some? && (r.active.Some? ==> q.active.value.commit == r.active.value.commit)
    && q == r.(active := q.active)
  }

  lemma RestartFacts(h: Host, e: Entry, polls: nat)
    requires HostOk(h) && h.disk.active == Some(e) && Cleared(e, h.world)
    ensures var (n, end) := Restart(h, e, polls);
            Did(h, n, Some(e)) && HostOk(n) && SameIdentity(h.disk, n.disk)
  {
    hide Did, Plain, Start, Since, Cleared, Quiet, StopOwned, EntryBorn, Alive, Born;
    StartFacts(h, e.commit, e.digest, polls, Some(e));
    var (h1, launch) := Start(h, e.commit, e.digest, polls);
    OnlyDidTime(h, h1, Some(e));
    if launch.Running? {
      var restored := launch.entry;
      LaunchedBorn(h1, launch, e.commit, e.digest);
      var r := h1.disk.(active := Some(restored));
      SaveFacts(h1, r);
      var (h2, saved) := Save(h1, r);
      DidPlain(h, h1, h2, Some(e));
      if saved.Ok? {
        ProbeFacts(h2, restored);
        var (h3, probed) := Probe(h2, restored);
        PlainStays(h2, h3, restored);
        DidPlain(h, h2, h3, Some(e));
        StillLaunched(h1, h2, h3);
        if probed.Failed? {
          StopOwnedFacts(h3, restored.supervisor, restored.child, polls);
          var (h4, stopped) := StopOwned(h3, restored.supervisor, restored.child, polls);
          Stays(h3, h4, restored);
          DidQuiet(h, h3, h4, Some(e), restored.supervisor, restored.child);
        } else if probed.Ok? {
          TryFacts(h3, Verify(e.commit));
          var (h4, verified) := Try(h3, Verify(e.commit));
          PlainStays(h3, h4, restored);
          DidPlain(h, h3, h4, Some(e));
          SaveFacts(h4, r);
          DidPlain(h, h4, Save(h4, r).0, Some(e));
        }
      }
    }
  }

  lemma StillLaunched(h1: Host, h2: Host, h3: Host)
    requires Plain(h1, h2) && Plain(h2, h3)
    ensures h1.effects <= h3.effects
  {
  }

  lemma LaunchedBorn(n: Host, launch: Launch, commit: string, digest: string)
    requires launch.Running? && Launches(n, launch, commit, digest)
    ensures EntryBorn(n.world, launch.entry) && launch.entry.commit == commit && launch.entry.digest == digest
  {
  }

  lemma OnlyDidTime(h: Host, n: Host, e: Option<Entry>)
    requires HostOk(h) && Did(h, n, e) && n.disk == h.disk
    ensures HostOk(n)
  {
    OnlyTimePassed(h, n);
  }

  lemma StopAndRestartFacts(h: Host, e: Entry, polls: nat)
    requires HostOk(h) && h.disk.active == Some(e)
    ensures var (n, end) := StopAndRestart(h, e, polls);
            Did(h, n, Some(e)) && HostOk(n) && SameIdentity(h.disk, n.disk)
  {
    hide Did, Since, Cleared, Quiet, StopOwned, EntryBorn, Alive, HostOk, Restart;
    ActiveBorn(h);
    StopOwnedFacts(h, e.supervisor, e.child, polls);
    var (m, stopped) := StopOwned(h, e.supervisor, e.child, polls);
    Stays(h, m, e);
    StoppedDid(h, m, e);
    if stopped.Ok? {
      StoppedIsCleared(h.world, m.world, e);
      RestartFacts(m, e, polls);
      QuietDid(h, m, Restart(m, e, polls).0, e);
    }
  }

  /** Recovery never changes the active commit, the rollback target, the operation, the spec or the status. */
  lemma RecoverFacts(h: Host, path: string, digest: string, polls: nat)
    requires HostOk(h)
    ensures var (n, end) := Recover(h, path, digest, polls);
            Did(h, n, h.disk.active) && HostOk(n) && SameIdentity(h.disk, n.disk)
  {
    hide Did, Plain, Since, Cleared, Quiet, EntryBorn, Alive, HostOk, Restart, StopAndRestart, Matches, Probe;
    SelfDid(h, h.disk.active);
    if Established(h.disk.status) && h.disk.spec == Some(path) && h.disk.digest == Some(digest)
       && h.disk.active.Some? && ValidEntry(h.disk.active.value, digest) {
      var e := h.disk.active.value;
      ActiveBorn(h);
      var (h1, verified) := Try(h, Verify(e.commit));
      TryFacts(h, Verify(e.commit));
      PlainStays(h, h1, e);
      DidNothing(h, h1, Some(e));
      if verified.Ok? && e.boot != h1.world.boot {
        OtherBoot(e, h1.world);
        RestartFacts(h1, e, polls);
        PlainDid(h, h1, Restart(h1, e, polls).0, Some(e));
      } else if verified.Ok? {
        RecoverHere(h1, e, polls);
        PlainDid(h, h1, RecoverLive(h1, e, polls).0, Some(e));
      }
    }
  }

  /** The rest of recovery in the boot that launched the entry. */
  function RecoverLive(h: Host, e: Entry, polls: nat): (Host, End) {
    var (h2, s) := Matches(h, e.supervisor);
    if s.Mismatch? then (h2, Failed)
    else
      var (h3, k) := Matches(h2, e.child);
      if k.Mismatch? then (h3, Failed)
      else if s.Absent? && k.Absent? then Restart(h3, e, polls)
      else if !(s.Live? && k.Live?) then StopAndRestart(h3, e, polls)
      else
        var (h4, probed) := Probe(h3, e);
        if probed.Failed? then StopAndRestart(h4, e, polls) else (h4, probed)
  }

  lemma RecoverHere(h: Host, e: Entry, polls: nat)
    requires HostOk(h) && EntryBorn(h.world, e) && h.disk.active == Some(e) && e.boot == h.world.boot
    ensures var (n, end) := RecoverLive(h, e, polls);
            Did(h, n, Some(e)) && HostOk(n) && SameIdentity(h.disk, n.disk)
  {
    hide Did, Since, Cleared, Quiet, EntryBorn, Alive, HostOk, Restart, StopAndRestart, Matches, Probe;
    var (h2, s) := Matches(h, e.supervisor);
    MatchesFacts(h, e.supervisor, e.supervisor, e.child);
    Stays(h, h2, e);
    StoppedDid(h, h2, e);
    if !s.Mismatch? {
      var (h3, k) := Matches(h2, e.child);
      MatchesFacts(h2, e.child, e.supervisor, e.child);
      Stays(h2, h3, e);
      QuietTrans(h, h2, h3, e.supervisor, e.child);
      StoppedDid(h, h3, e);
      if k.Mismatch? {
      } else if s.Absent? && k.Absent? {
        BothAbsent(h2.world, h3.world, e);
        RestartFacts(h3, e, polls);
        QuietDid(h, h3, Restart(h3, e, polls).0, e);
      } else if !(s.Live? && k.Live?) {
        StopAndRestartFacts(h3, e, polls);
        QuietDid(h, h3, StopAndRestart(h3, e, polls).0, e);
      } else {
        ProbeFacts(h3, e);
        var (h4, probed) := Probe(h3, e);
        PlainStays(h3, h4, e);
        DidNothing(h3, h4, Some(e));
        QuietDid(h, h3, h4, e);
        if probed.Failed? {
          StopAndRestartFacts(h4, e, polls);
          var n := StopAndRestart(h4, e, polls).0;
          PlainDid(h3, h4, n, Some(e));
          QuietDid(h, h3, n, e);
        }
      }
    }
  }

  // ----- deploy, then rollback -----

  /**
   Deploying another commit over an active one leaves the registry alone or, on every later exit, records
   the operation and the commit it replaced; a rollback that then succeeds serves that commit, and a
   second rollback is refused.
   */
  lemma DeployThenRollback(h: Host, b: Call, polls: nat, now: Host, c: Call, again: Host, d: Call)
    requires HostOk(h) && h.disk.active.Some? && h.disk.active.value.commit != b.commit
    requires HostOk(now) && now.disk == Deploy(h, b, polls).0.disk && now.disk != h.disk
    requires Rollback(now, c, polls).1.Ok? && again.disk == Rollback(now, c, polls).0.disk
    ensures now.disk.operation == Some(b.commit) && now.disk.previous == Some(h.disk.active.value.commit)
    ensures c.commit == b.commit
    ensures again.disk.active.Some? && again.disk.active.value.commit == h.disk.active.value.commit
    ensures again.disk.status == Some(RolledBack)
    ensures Rollback(again, d, polls) == (again, Failed)
  {
    hide Deploy, Did;
    DeployFacts(h, b, polls);
    RollbackFacts(now, c, polls) by { hide Deploy; }
    RefusedWithoutTarget(again, d, polls);
  }

  lemma RefusedWithoutTarget(h: Host, c: Call, polls: nat)
    requires h.disk.previous.None?
    ensures Rollback(h, c, polls) == (h, Failed)
  {
  }

  /** Repeating a deploy that recorded a target keeps it exactly if the failed attempt left an active entry. */
  lemma RetryKeepsTargetIff(h: Host, b: Call, polls: nat, now: Host)
    requires HostOk(h) && h.disk.active.Some? && h.disk.active.value.commit != b.commit
    requires now.disk == Deploy(h, b, polls).0.disk && now.disk != h.disk && HostOk(now)
    requires Deploy(now, b, polls).0.disk != now.disk
    ensures Deploy(now, b, polls).0.disk.previous == Some(h.disk.active.value.commit) <==> now.disk.active.Some?
  {
    hide Deploy, Did;
    DeployFacts(h, b, polls);
    DeployFacts(now, b, polls);
  }

  // ----- every run -----

  datatype Command =
    | Deploys(call: Call) | ChecksHealth(call: Call) | RollsBack(call: Call) | Stops(call: Call)
    | Recovers(path: string, digest: string)
    | TimePasses(world: World) | Reboots(world: World)

  /** A command and what the outside has in store for it. */
  datatype Turn = Turn(command: Command, future: seq<World>, answers: seq<Answer>, polls: nat)

  function After(h: Host, t: Turn): Host {
    var ready := h.(future := t.future, answers := t.answers);
    match t.command
    case Deploys(c) => Deploy(ready, c, t.polls).0
    case ChecksHealth(c) => Health(ready, c).0
    case RollsBack(c) => Rollback(ready, c, t.polls).0
    case Stops(c) => Stop(ready, c, t.polls).0
    case Recovers(path, digest) => Recover(ready, path, digest, t.polls).0
    case TimePasses(w) => if Later(h.world, w) then h.(world := w) else h
    case Reboots(w) => if SoundWorld(w) && w.boot > h.world.boot then h.(world := w) else h
  }

  function RunTurns(h: Host, turns: seq<Turn>): Host
    decreases |turns|
  {
    if turns == [] then h else RunTurns(After(h, turns[0]), turns[1..])
  }

  /** One turn: sound again, launches into a cleared world, kills of recorded or own processes only. */
  lemma TurnKeeps(h: Host, t: Turn)
    requires HostOk(h)
    ensures HostOk(After(h, t)) && h.effects <= After(h, t).effects
    ensures Orderly(|h.effects|, After(h, t).effects, h.disk.active)
    ensures t.command.Recovers? ==> SameIdentity(h.disk, After(h, t).disk)
  {
    hide Deploy, Health, Rollback, Stop, Recover, Orderly;
    var ready := h.(future := t.future, answers := t.answers);
    match t.command
    case Deploys(c) => DeployFacts(ready, c, t.polls);
    case ChecksHealth(c) =>
      HealthFacts(ready, c);
      DidNothing(ready, Health(ready, c).0, h.disk.active);
    case RollsBack(c) => RollbackFacts(ready, c, t.polls);
    case Stops(c) => StopFacts(ready, c, t.polls);
    case Recovers(path, digest) => RecoverFacts(ready, path, digest, t.polls);
    case TimePasses(w) => SelfDid(h, h.disk.active);
    case Reboots(w) => SelfDid(h, h.disk.active);
  }

  const START := Host(World(0, 0, map[]), [], [], NO_REGISTRY, [])

  lemma {:induction false} RunKeeps(h: Host, turns: seq<Turn>)
    requires HostOk(h)
    ensures HostOk(RunTurns(h, turns))
    decreases |turns|
  {
    hide After, HostOk;
    if turns != [] {
      TurnKeeps(h, turns[0]);
      RunKeeps(After(h, turns[0]), turns[1..]);
    }
  }

  /** In every registry a run leaves, established means an active entry of the recorded spec. */
  lemma EveryRegistryIsConsistent(turns: seq<Turn>)
    ensures var r := RunTurns(START, turns).disk;
            && (Established(r.status) ==> r.active.Some? && r.digest == Some(r.active.value.digest))
            && (r.status == Some(RolledBack) ==> r.previous.None?)
  {
    RunKeeps(START, turns);
  }

  /** In every run, each launch finds the entry the registry held before that command cleared. */
  lemma EveryLaunchReplacesClearedProcesses(turns: seq<Turn>, t: Turn, i: nat)
    requires var h := RunTurns(START, turns); |h.effects| <= i < |After(h, t).effects|
    ensures var h := RunTurns(START, turns);
            var effect := After(h, t).effects[i];
            && (effect.Started? && h.disk.active.Some? ==> Cleared(h.disk.active.value, effect.world))
            && (effect.Killed? ==> effect.target == effect.victim)
            && (effect.Killed? ==> Recorded(h.disk.active, effect.target)
                                   || LaunchedSince(After(h, t).effects, |h.effects|, i, effect.target))
  {
    hide RunTurns, After;
    RunKeeps(START, turns);
    TurnKeeps(RunTurns(START, turns), t);
  }

  // ----- a run that loses the rollback target -----

  const SUPERVISOR := Ident(1, 0, "supervisor")
  const SERVICE := Ident(2, 0, "service")

  function Serving(): World { World(0, 1, map[1 := SUPERVISOR, 2 := SERVICE]) }

  function Ended(): World { World(0, 1, map[]) }

  function Served(commit: string): Entry { Entry(commit, "digest", 0, SUPERVISOR, SERVICE) }

  /** Checkpoint, launch, handshake, checkpoint, probe, verification and checkpoint. */
  function GoodDeploy(commit: string): Turn {
    Turn(Deploys(Call(commit, "spec", "digest")), [Serving()], [Yes, Launched(1, SERVICE), Yes, Yes, Yes, Yes, Yes], 0)
  }

  function Gone(): Turn { Turn(TimePasses(Ended()), [], [], 0) }

  /** The release is verified, the first checkpoint is written, the launch fails, the last checkpoint is written. */
  function BadDeploy(commit: string): Turn {
    Turn(Deploys(Call(commit, "spec", "digest")), [], [Yes, Yes, No, Yes], 0)
  }

  /** The new program runs under fresh births, so it is served by processes of its own. */
  function Again(commit: string): Turn {
    Turn(Deploys(Call(commit, "spec", "digest")), [Reborn()], [Yes, Launched(1, Renewed()), Yes, Yes, Yes, Yes, Yes], 0)
  }

  function Renewed(): Ident { Ident(2, 1, "service") }

  function Reborn(): World { World(0, 2, map[1 := Ident(1, 1, "supervisor"), 2 := Renewed()]) }

  lemma FirstDeploy()
    ensures var h := After(START, GoodDeploy("a"));
            && h.world == Serving()
            && h.disk == Registry(Some(Served("a")), None, Some("a"), None, Some("spec"), Some("digest"), Some(Healthy))
  {
    hide Later;
    assert Later(START.world, Serving()) by { BirthsFit(); }
    assert Deploy(START.(future := [Serving()], answers := GoodDeploy("a").answers), GoodDeploy("a").command.call, 0)
        == Begin(START.(future := [Serving()], answers := GoodDeploy("a").answers), GoodDeploy("a").command.call,
          None, false, 0);
  }

  lemma BirthsFit()
    ensures Later(START.world, Serving()) && Later(Serving(), Ended()) && Later(Ended(), Reborn())
  {
  }

  lemma FailedDeploy(h: Host)
    requires h.world == Ended() && h.disk.active == Some(Served("a")) && h.disk.digest == Some("digest")
    ensures var n := After(h, BadDeploy("b"));
            && n.world == Ended() && n.disk.active.None? && n.disk.previous == Some("a")
              && n.disk.status == Some(Unhealthy)
  {
    var ready := h.(future := [], answers := BadDeploy("b").answers);
    var c := BadDeploy("b").command.call;
    var h1 := Try(ready, Verify("a")).0;
    assert StopOwned(h1, SUPERVISOR, SERVICE, 0) == (h1, Ok);
    assert Deploy(ready, c, 0) == Begin(h1, c, Some("a"), false, 0);
    var h2 := Save(h1, Opening(h1.disk, c, Some("a"), false)).0;
    assert Start(h2, "b", "digest", 0) == (Ask(h2, Spawn("b")).0, NotRunning);
  }

  lemma SecondDeploy(h: Host)
    requires h.world == Ended() && h.disk.active.None?
    ensures var n := After(h, Again("b"));
            n.disk.previous.None? && n.disk.status == Some(Healthy) && n.disk.active.Some?
              && n.disk.active.value.commit == "b"
  {
    hide Later;
    assert Later(Ended(), Reborn()) by { BirthsFit(); }
    var ready := h.(future := [Reborn()], answers := Again("b").answers);
    assert Deploy(ready, Again("b").command.call, 0) == Begin(ready, Again("b").command.call, None, false, 0);
  }

  /**
   Deploying `b` over a healthy `a` fails to start, deploying `b` again succeeds, and `a` cannot be restored
   any more.
   */
  lemma RetryForgetsTarget(c: Call, polls: nat)
    ensures var failed := RunTurns(START, [GoodDeploy("a"), Gone(), BadDeploy("b")]);
            var retried := RunTurns(START, [GoodDeploy("a"), Gone(), BadDeploy("b"), Again("b")]);
            && failed.disk.previous == Some("a")
            && retried.disk.previous.None? && retried.disk.status == Some(Healthy)
            && Rollback(retried, c, polls).1.Failed?
  {
    hide After;
    var h1 := After(START, GoodDeploy("a"));
    FirstDeploy();
    var h2 := After(h1, Gone());
    assert h2 == h1.(world := Ended()) by { TimeGoesOn(h1); }
    FailedDeploy(h2);
    var h3 := After(h2, BadDeploy("b"));
    SecondDeploy(h3);
    ThreeTurns(START, GoodDeploy("a"), Gone(), BadDeploy("b"), []);
    ThreeTurns(START, GoodDeploy("a"), Gone(), BadDeploy("b"), [Again("b")]);
    assert RunTurns(h3, [Again("b")]) == After(h3, Again("b")) by { assert [Again("b")][1..] == []; }
    RefusedWithoutTarget(RunTurns(START, [GoodDeploy("a"), Gone(), BadDeploy("b"), Again("b")]), c, polls);
  }

  lemma TimeGoesOn(h: Host)
    requires h.world == Serving()
    ensures After(h, Gone()) == h.(world := Ended())
  {
    BirthsFit();
  }

  lemma ThreeTurns(h: Host, a: Turn, b: Turn, c: Turn, rest: seq<Turn>)
    ensures RunTurns(h, [a, b, c] + rest) == RunTurns(After(After(After(h, a), b), c), rest)
  {
    hide After;
    NextTurn(h, a, [b, c] + rest);
    NextTurn(After(h, a), b, [c] + rest);
    NextTurn(After(After(h, a), b), c, rest);
    assert [a, b, c] + rest == [a] + ([b, c] + rest) && [b, c] + rest == [b] + ([c] + rest);
  }

  lemma NextTurn(h: Host, t: Turn, rest: seq<Turn>)
    ensures RunTurns(h, [t] + rest) == RunTurns(After(h, t), rest)
  {
    assert ([t] + rest)[1..] == rest;
  }
}
