/**
 What each command of the managed release machine says and leaves behind, told from the outside: the
 answers that external calls gave, in order, and the process tables that the command looked at.
 */
module DeploymentAnswers {
  import opened Wrappers
  import opened DeploymentSpec
  import opened DeploymentFacts
  import opened DeploymentRuns

  // ----- what a good end is made of -----

  /** The process ran in a table that the command looked at. */
  ghost predicate SeenAlive(h: Host, n: Host, i: Ident) {
    && |n.future| <= |h.future|
    && exists w :: (w == h.world || w in h.future[..|h.future| - |n.future|]) && w.boot == h.world.boot && Alive(w, i)
  }

  /** The effects end like this. */
  predicate EndsWith(effects: seq<Effect>, from: nat, tail: seq<Effect>) {
    from + |tail| <= |effects| && effects[|effects| - |tail|..] == tail
  }

  /** The recorded entry is left alone: both its processes were seen, and then it answered its probe. */
  ghost predicate Reused(h: Host, n: Host) {
    && h.disk.active.Some? && n.disk == h.disk
    && var e := h.disk.active.value;
       && e.boot == h.world.boot && SeenAlive(h, n, e.supervisor) && SeenAlive(h, n, e.child)
       && n.effects == h.effects + [Asked(Verify(e.commit), Yes), Asked(Reach(e), Yes)]
  }

  /** The launch of this entry, of this commit. */
  predicate LaunchedAs(effect: Effect, e: Entry, commit: string) {
    effect.Started? && effect.commit == commit && LaunchedEntry(effect, e)
  }

  /**
   The active entry was launched in this boot by this command, answered its probe after that, and was then
   recorded, where `verify` asks for it after its release was verified once more.
   */
  ghost predicate Renewed(h: Host, n: Host, commit: string, verify: bool) {
    && n.disk.active.Some?
    && var e := n.disk.active.value;
       var tail := [Asked(Reach(e), Yes)] + (if verify then [Asked(Verify(commit), Yes)] else [])
                   + [Asked(DeploymentSpec.Write(n.disk), Yes)];
       && e.commit == commit && e.boot == h.world.boot
       && EndsWith(n.effects, |h.effects|, tail)
       && exists i :: |h.effects| <= i < |n.effects| - |tail| && LaunchedAs(n.effects[i], e, commit)
  }

  /** Effect `i` is a probe that failed, of an entry launched by the same command. */
  predicate ProbeFailed(h: Host, effects: seq<Effect>, j: int, i: int) {
    |h.effects| <= j < i < |effects| && effects[j].Started? && FailedReach(effects[i])
  }

  /** After probe `i` failed, the program died, or all it did was to write the entry down as bad. */
  predicate ToldBad(n: Host, end: End, i: nat, bad: Status)
    requires i < |n.effects| && n.effects[i].Asked? && n.effects[i].question.Reach?
  {
    if i + 1 == |n.effects| then end.Dead?
    else
      && i + 2 == |n.effects| && !n.effects[i].answer.Died?
      && var last := n.effects[i + 1];
         && last.Asked? && last.question.Write?
         && last.question.registry.status == Some(bad)
         && last.question.registry.active == Some(n.effects[i].question.entry)
         && (last.answer.Yes? ==> n.disk == last.question.registry)
         && end == if last.answer.Died? then Dead else Failed
  }

  ghost predicate FailuresTold(h: Host, n: Host, end: End, bad: Status) {
    forall i, j :: ProbeFailed(h, n.effects, j, i) ==> ToldBad(n, end, i, bad)
  }

  predicate FailedReach(e: Effect) { e.Asked? && e.question.Reach? && !e.answer.Yes? }

  predicate AllTold(from: nat, n: Host, end: End, bad: Status) {
    forall i :: from <= i < |n.effects| && FailedReach(n.effects[i]) ==> ToldBad(n, end, i, bad)
  }

  /** The last thing a failed command did was a write that failed or says so, or a verification that failed. */
  predicate FailedLast(h: Host, n: Host, bad: Status, commit: string) {
    && |h.effects| < |n.effects|
    && var last := n.effects[|n.effects| - 1];
       && last.Asked?
       && (|| (last.question.Write? && (last.question.registry.status == Some(bad) || !last.answer.Yes?))
           || (last.question == Verify(commit) && !last.answer.Yes?))
  }

  /** Before anything else the release is verified, and nothing more happens when that fails. */
  predicate VerifiedFirst(h: Host, n: Host, end: End, commit: string) {
    if h.answers == [] then n.effects == h.effects && end.Dead?
    else
      && |h.effects| < |n.effects| && n.effects[|h.effects|] == Asked(Verify(commit), h.answers[0])
      && (!h.answers[0].Yes? ==> !end.Ok? && |n.effects| == |h.effects| + 1 && n.disk == h.disk)
  }

  // ----- a start asks for nothing but itself -----

  predicate Unprobed(n: nat, effects: seq<Effect>) {
    forall i :: n <= i < |effects| && effects[i].Asked? ==>
      effects[i].question.Spawn? || effects[i].question.Report? || effects[i].question.Shutdown?
  }

  lemma StartAsks(h: Host, commit: string, digest: string, polls: nat)
    requires SoundWorld(h.world)
    ensures Unprobed(|h.effects|, Start(h, commit, digest, polls).0.effects)
  {
    hide Quiet, Later, Handshake, Ask, Onward, Look;
    var (h1, a) := Ask(h, Spawn(commit));
    AskRecords(h, Spawn(commit));
    if a.Launched? {
      LookFacts(h1);
      var h2 := Look(h1);
      OnwardTime(h1, h2);
      SoundStays(h.world, h2.world);
      if a.supervisor in h2.world.procs {
        var supervisor := h2.world.procs[a.supervisor];
        HandshakeFacts(h2, commit, digest, supervisor, a.child, polls);
        AskRecords(h2, Report);
        var h3 := Ask(h2, Report).0;
        QuietAsks(h3, Handshake(h2, commit, digest, supervisor, a.child, polls).0, supervisor, a.child);
      }
    }
  }

  lemma QuietAsks(h: Host, n: Host, a: Ident, b: Ident)
    requires Quiet(h, n, a, b)
    ensures h.effects <= n.effects && Unprobed(|h.effects|, n.effects)
    ensures forall i :: |h.effects| <= i < |n.effects| ==> !n.effects[i].Started?
  {
  }

  /** The exception path writes one more checkpoint, and the error goes on. */
  lemma GiveUpAsks(h: Host, r: Registry, bad: Status)
    ensures var (n, end) := GiveUp(h, r, bad);
            var worse := r.(status := Some(bad));
            && Plain(h, n) && !end.Ok?
            && if h.answers == [] then n == h && end.Dead?
               else
                 && n.effects == h.effects + [Asked(DeploymentSpec.Write(worse), h.answers[0])]
                 && n.disk == (if h.answers[0].Yes? then worse else h.disk)
                 && end == if h.answers[0].Died? then Dead else Failed
  {
    hide Onward;
    AskRecords(h, DeploymentSpec.Write(r.(status := Some(bad))));
    SaveFacts(h, r.(status := Some(bad)));
  }

  lemma SaveAsks(h: Host, r: Registry)
    ensures var (n, end) := Save(h, r);
            && Plain(h, n) && n.world == h.world && n.disk == (if end.Ok? then r else h.disk)
            && if h.answers == [] then n == h && end.Dead?
               else
                 && n.effects == h.effects + [Asked(DeploymentSpec.Write(r), h.answers[0])]
                 && end == if h.answers[0].Yes? then Ok else if h.answers[0].Died? then Dead else Failed
  {
    hide Onward;
    AskRecords(h, DeploymentSpec.Write(r));
    SaveFacts(h, r);
  }

  lemma TryAsks(h: Host, q: Question)
    requires q.Verify? || q.Reach?
    ensures var (n, end) := Try(h, q);
            && Plain(h, n) && n.world == h.world && n.disk == h.disk
            && if h.answers == [] then n == h && end.Dead?
               else
                 && n.effects == h.effects + [Asked(q, h.answers[0])]
                 && end == if h.answers[0].Yes? then Ok else if h.answers[0].Died? then Dead else Failed
  {
    hide Onward;
    AskRecords(h, q);
    TryFacts(h, q);
  }

  lemma ProbeAsks(h: Host, e: Entry)
    ensures var (n, end) := Probe(h, e);
            && Plain(h, n) && n.disk == h.disk
            && if h.answers == [] then n.effects == h.effects && end.Dead?
               else
                 && n.effects == h.effects + [Asked(Reach(e), h.answers[0])]
                 && end == if h.answers[0].Yes? then Ok else if h.answers[0].Died? then Dead else Failed
  {
    hide Onward, Look, Try;
    LookFacts(h);
    TryAsks(Look(h), Reach(e));
    ProbeFacts(h, e);
  }

  /** The probe of a saved entry. */
  lemma ReachAsks(h: Host, r: Registry, e: Entry, bad: Status)
    requires r.active == Some(e) && h.disk == r
    ensures var (m, probed) := Probe(h, e);
            var (n, end) := if probed.Failed? then GiveUp(m, r, bad) else (m, probed);
            && Plain(h, n)
            && (end.Ok? ==> n.disk == r && n.effects == h.effects + [Asked(Reach(e), Yes)])
            && (n.disk == r || n.disk == r.(status := Some(bad)))
            && AllTold(|h.effects|, n, end, bad)
  {
    hide Plain, Probe, GiveUp;
    ProbeAsks(h, e);
    var (m, probed) := Probe(h, e);
    if probed.Failed? {
      GiveUpAsks(m, r, bad);
      PlainTrans(h, m, GiveUp(m, r, bad).0);
    }
  }

  /** The effects of writing an entry down and probing it. */
  lemma EstablishAsks(h: Host, r: Registry, e: Entry, bad: Status)
    requires r.active == Some(e)
    ensures var (n, end) := Establish(h, r, e, bad);
            && Plain(h, n)
            && (end.Ok? ==> n.disk == r && n.effects
                            == h.effects + [Asked(DeploymentSpec.Write(r), Yes), Asked(Reach(e), Yes)])
            && (n.disk == h.disk || n.disk == r || n.disk == r.(status := Some(bad)))
            && AllTold(|h.effects|, n, end, bad)
  {
    hide Plain, Save, Probe, GiveUp, ToldBad;
    SaveAsks(h, r);
    var (h1, saved) := Save(h, r);
    if saved.Ok? {
      ReachAsks(h1, r, e, bad);
      var (h2, probed) := Probe(h1, e);
      var (n, end) := if probed.Failed? then GiveUp(h2, r, bad) else (h2, probed);
      PlainTrans(h, h1, n);
      PlainTime(h1, n);
      ToldLater(h, h1, n, end, bad);
    } else if saved.Failed? {
      GiveUpAsks(h1, r, bad);
      PlainTrans(h, h1, GiveUp(h1, r, bad).0);
    }
  }

  /** Everything before `m` asked for no probe. */
  lemma ToldLater(h: Host, m: Host, n: Host, end: End, bad: Status)
    requires h.effects <= m.effects <= n.effects
    requires forall i :: |h.effects| <= i < |m.effects| ==> !FailedReach(m.effects[i])
    requires AllTold(|m.effects|, n, end, bad)
    ensures AllTold(|h.effects|, n, end, bad)
  {
    hide ToldBad;
    forall i | |h.effects| <= i < |n.effects| && FailedReach(n.effects[i]) ensures ToldBad(n, end, i, bad) {
      assert i >= |m.effects|;
    }
  }

  // ----- launching, establishing, recording -----

  /** What launching did before the entry was established. */
  lemma LaunchAsks(h: Host, r: Registry, commit: string, digest: string, polls: nat)
    requires SoundWorld(h.world)
    ensures var (h1, saved) := Save(h, r);
            var (h2, launch) := Start(h1, commit, digest, polls);
            && Did(h, h1, None)
            && (saved.Ok? ==>
                  && Did(h, h2, None) && h2.disk == r && SoundWorld(h2.world) && h2.world.boot == h.world.boot
                  && (launch.Running? ==>
                        && launch.entry.commit == commit && launch.entry.digest == digest
                        && launch.entry.boot == h.world.boot && EntryBorn(h2.world, launch.entry)
                        && exists i :: |h.effects| <= i < |h2.effects|
                                       && LaunchedAs(h2.effects[i], launch.entry, commit)))
            && (forall i :: |h.effects| <= i < |h1.effects| ==> !FailedReach(h1.effects[i]))
            && (saved.Ok? ==> forall i :: |h.effects| <= i < |h2.effects| ==> !FailedReach(h2.effects[i]))
  {
    hide Did, Plain, Save, Start, EntryBorn, LaunchedEntry, Since, Later;
    SaveAsks(h, r);
    var (h1, saved) := Save(h, r);
    DidNothing(h, h1, None);
    if saved.Ok? {
      StartFacts(h1, commit, digest, polls, None);
      StartAsks(h1, commit, digest, polls);
      var (h2, launch) := Start(h1, commit, digest, polls);
      DidTime(h1, h2);
      PlainDid(h, h1, h2, None);
      if launch.Running? { LaunchedBorn(h2, launch, commit, digest); }
    }
  }

  lemma DidTime(h: Host, n: Host)
    requires Did(h, n, None)
    ensures Since(h.world, n.world) && h.effects <= n.effects && n.world.boot == h.world.boot
  {
  }

  /** From the first checkpoint of a deploy on. */
  ghost predicate BeganAs(h: Host, c: Call, n: Host, end: End) {
    && Did(h, n, None)
    && (end.Ok? ==> Renewed(h, n, c.commit, true) && n.disk.status == Some(Healthy))
    && (n.disk != h.disk && Established(n.disk.status) ==> end.Ok?)
    && (end.Failed? ==> FailedLast(h, n, Unhealthy, c.commit))
    && AllTold(|h.effects|, n, end, Unhealthy)
  }

  lemma BeginAnswers(h: Host, c: Call, previous: Option<string>, recovering: bool, polls: nat)
    requires SoundWorld(h.world)
    ensures var (n, end) := Begin(h, c, previous, recovering, polls); BeganAs(h, c, n, end)
  {
    hide Did, Plain, Save, Start, Establish, GiveUp, Try, LaunchedAs, EntryBorn, ToldBad;
    var r := Opening(h.disk, c, previous, recovering);
    LaunchAsks(h, r, c.commit, c.digest, polls);
    SaveAsks(h, r);
    var (h1, saved) := Save(h, r);
    if saved.Ok? {
      var (h2, launch) := Start(h1, c.commit, c.digest, polls);
      DidTime(h, h2);
      if launch.NotRunning? {
        GiveUpAsks(h2, r, Unhealthy);
        DidPlain(h, h2, GiveUp(h2, r, Unhealthy).0, None);
      } else if launch.Running? {
        var probing := r.(active := Some(launch.entry), status := Some(Probing));
        EstablishAsks(h2, probing, launch.entry, Unhealthy);
        var (h3, end) := Establish(h2, probing, launch.entry, Unhealthy);
        DidPlain(h, h2, h3, None);
        PlainTime(h2, h3);
        ToldLater(h, h2, h3, end, Unhealthy);
        if end.Ok? {
          FinishDeploy(h, h2, h3, c, probing, launch.entry);
        } else if end.Failed? {
          EstablishFails(h2, probing, launch.entry, Unhealthy, c.commit);
        }
      }
    }
  }

  /** The release is verified once more and the entry is written down as healthy. */
  lemma FinishDeploy(h: Host, h2: Host, h3: Host, c: Call, probing: Registry, e: Entry)
    requires Did(h, h3, None) && probing.active == Some(e) && e.commit == c.commit && e.boot == h.world.boot
    requires h.effects <= h2.effects && h3.disk == probing
    requires forall i :: |h.effects| <= i < |h2.effects| ==> !FailedReach(h2.effects[i])
    requires h3.effects == h2.effects + [Asked(DeploymentSpec.Write(probing), Yes), Asked(Reach(e), Yes)]
    requires exists i :: |h.effects| <= i < |h2.effects| && LaunchedAs(h2.effects[i], e, c.commit)
    requires probing.status == Some(Probing)
    ensures var (h4, verified) := Try(h3, Verify(c.commit));
            var (n, end) := if verified.Ok? then Save(h4, probing.(status := Some(Healthy))) else (h4, verified);
            BeganAs(h, c, n, end)
  {
    hide Did, Plain, Save, Try, LaunchedAs;
    TryAsks(h3, Verify(c.commit));
    var (h4, verified) := Try(h3, Verify(c.commit));
    DidPlain(h, h3, h4, None);
    if verified.Ok? {
      SaveAsks(h4, probing.(status := Some(Healthy)));
      var (n, end) := Save(h4, probing.(status := Some(Healthy)));
      DidPlain(h, h4, n, None);
      if end.Ok? {
        assert n.effects == h2.effects + [Asked(DeploymentSpec.Write(probing), Yes)]
          + [Asked(Reach(e), Yes), Asked(Verify(c.commit), Yes), Asked(DeploymentSpec.Write(n.disk), Yes)];
        var i :| |h.effects| <= i < |h2.effects| && LaunchedAs(h2.effects[i], e, c.commit);
        assert n.effects[i] == h2.effects[i];
      }
    }
  }

  lemma EstablishFails(h: Host, r: Registry, e: Entry, bad: Status, commit: string)
    ensures var (n, end) := Establish(h, r, e, bad); end.Failed? ==> FailedLast(h, n, bad, commit)
  {
    hide Plain, Save, Probe, GiveUp;
    SaveAsks(h, r);
    var (h1, saved) := Save(h, r);
    if saved.Ok? {
      ProbeAsks(h1, e);
      var (h2, probed) := Probe(h1, e);
      if probed.Failed? { GiveUpAsks(h2, r, bad); }
    } else if saved.Failed? {
      GiveUpAsks(h1, r, bad);
    }
  }

  /** From the first checkpoint of a rollback on. */
  ghost predicate RestoredAs(h: Host, target: string, n: Host, end: End) {
    && Did(h, n, None)
    && (end.Ok? ==> Renewed(h, n, target, false) && n.disk.status == Some(RolledBack))
    && (n.disk != h.disk && Established(n.disk.status) ==> end.Ok?)
    && (end.Failed? ==> FailedLast(h, n, RollbackUnhealthy, target))
    && AllTold(|h.effects|, n, end, RollbackUnhealthy)
  }

  lemma RestoreAnswers(h: Host, c: Call, target: string, polls: nat)
    requires SoundWorld(h.world)
    ensures var (n, end) := Restore(h, c, target, polls); RestoredAs(h, target, n, end)
  {
    hide Did, Plain, Save, Start, Establish, GiveUp, Try, LaunchedAs, EntryBorn, ToldBad;
    var r := h.disk.(active := None, status := Some(RollingBack));
    LaunchAsks(h, r, target, c.digest, polls);
    SaveAsks(h, r);
    var (h1, saved) := Save(h, r);
    if saved.Ok? {
      var (h2, launch) := Start(h1, target, c.digest, polls);
      DidTime(h, h2);
      if launch.NotRunning? {
        GiveUpAsks(h2, r, RollbackUnhealthy);
        DidPlain(h, h2, GiveUp(h2, r, RollbackUnhealthy).0, None);
      } else if launch.Running? {
        var probing := r.(active := Some(launch.entry), status := Some(ProbingRollback));
        EstablishAsks(h2, probing, launch.entry, RollbackUnhealthy);
        var (h3, end) := Establish(h2, probing, launch.entry, RollbackUnhealthy);
        DidPlain(h, h2, h3, None);
        PlainTime(h2, h3);
        ToldLater(h, h2, h3, end, RollbackUnhealthy);
        if end.Ok? {
          FinishRollback(h, h2, h3, c, target, probing, launch.entry);
        } else if end.Failed? {
          EstablishFails(h2, probing, launch.entry, RollbackUnhealthy, target);
        }
      }
    }
  }

  /** The restored entry is written down as rolled back. */
  lemma FinishRollback(h: Host, h2: Host, h3: Host, c: Call, target: string, probing: Registry, e: Entry)
    requires Did(h, h3, None) && probing.active == Some(e) && e.commit == target && e.boot == h.world.boot
    requires h.effects <= h2.effects && h3.disk == probing
    requires forall i :: |h.effects| <= i < |h2.effects| ==> !FailedReach(h2.effects[i])
    requires h3.effects == h2.effects + [Asked(DeploymentSpec.Write(probing), Yes), Asked(Reach(e), Yes)]
    requires exists i :: |h.effects| <= i < |h2.effects| && LaunchedAs(h2.effects[i], e, target)
    requires probing.status == Some(ProbingRollback)
    ensures var (n, end) := Save(h3, probing.(previous := None, rolledFrom := Some(c.commit), spec := Some(c.path),
              status := Some(RolledBack)));
            RestoredAs(h, target, n, end)
  {
    hide Did, Plain, Save, LaunchedAs;
    var r := probing.(previous := None, rolledFrom := Some(c.commit), spec := Some(c.path),
                      status := Some(RolledBack));
    SaveAsks(h3, r);
    var (n, end) := Save(h3, r);
    DidPlain(h, h3, n, None);
    if end.Ok? {
      assert n.effects == h2.effects + [Asked(DeploymentSpec.Write(probing), Yes)]
        + [Asked(Reach(e), Yes), Asked(DeploymentSpec.Write(n.disk), Yes)];
      var i :| |h.effects| <= i < |h2.effects| && LaunchedAs(h2.effects[i], e, target);
      assert n.effects[i] == h2.effects[i];
    }
  }

  // ----- what comes before the first checkpoint -----

  /** Nothing was launched or written yet. */
  predicate Prelude(h: Host, m: Host) {
    && h.effects <= m.effects && m.disk == h.disk && m.world.boot == h.world.boot
    && (SoundWorld(h.world) ==> SoundWorld(m.world))
    && forall i :: |h.effects| <= i < |m.effects| ==> !m.effects[i].Started?
  }

  lemma PreludeTrans(h: Host, m: Host, n: Host)
    requires Prelude(h, m) && Prelude(m, n)
    ensures Prelude(h, n)
  {
  }

  lemma PlainPrelude(h: Host, m: Host)
    requires Plain(h, m) && m.disk == h.disk
    ensures Prelude(h, m)
  {
  }

  lemma QuietPrelude(h: Host, m: Host, a: Ident, b: Ident)
    requires Quiet(h, m, a, b)
    ensures Prelude(h, m) && Onward(h, m)
  {
  }

  lemma SawAlive(h: Host, m: Host, n: Host, i: Ident)
    requires Onward(h, m) && Onward(m, n) && Alive(m.world, i)
    ensures SeenAlive(h, n, i)
  {
    var k := |h.future| - |m.future|;
    assert h.future[..k] == h.future[..|h.future| - |n.future|][..k];
    assert m.world == h.world || m.world in h.future[..|h.future| - |n.future|];
  }

  /** What the registry and the last effects say of a launch, whatever came before it. */
  ghost predicate LaunchTold(h: Host, n: Host, end: End, commit: string, bad: Status) {
    && h.effects <= n.effects
    && (n.disk != h.disk && Established(n.disk.status) ==> end.Ok?)
    && (end.Failed? && n.disk != h.disk ==> FailedLast(h, n, bad, commit))
    && FailuresTold(h, n, end, bad)
  }

  lemma PreludeTold(h: Host, m: Host, end: End, commit: string, bad: Status)
    requires Prelude(h, m)
    ensures LaunchTold(h, m, end, commit, bad)
  {
  }

  lemma AfterPrelude(h: Host, m: Host, n: Host, end: End, commit: string, bad: Status)
    requires Prelude(h, m) && m.effects <= n.effects && AllTold(|m.effects|, n, end, bad)
    requires n.disk != m.disk && Established(n.disk.status) ==> end.Ok?
    requires end.Failed? ==> FailedLast(m, n, bad, commit)
    ensures LaunchTold(h, n, end, commit, bad)
  {
    hide ToldBad;
    forall i, j | ProbeFailed(h, n.effects, j, i) ensures ToldBad(n, end, i, bad) {
      assert j >= |m.effects|;
    }
  }

  lemma RenewedLater(h: Host, m: Host, n: Host, commit: string, verify: bool)
    requires Prelude(h, m) && Renewed(m, n, commit, verify)
    ensures Renewed(h, n, commit, verify)
  {
    hide LaunchedAs;
  }

  // ----- deploy -----

  /** What a deploy of `c` says when it ends well, and what it leaves when it does not. */
  ghost predicate DeployedAs(h: Host, c: Call, n: Host, end: End) {
    && LaunchTold(h, n, end, c.commit, Unhealthy)
    && (end.Ok? ==> || (Reused(h, n) && h.disk.active.value.commit == c.commit)
                    || (Renewed(h, n, c.commit, true) && n.disk.status == Some(Healthy)))
  }

  lemma BeginAfter(h: Host, m: Host, c: Call, previous: Option<string>, recovering: bool, polls: nat)
    requires Prelude(h, m) && SoundWorld(m.world)
    ensures var (n, end) := Begin(m, c, previous, recovering, polls);
            DeployedAs(h, c, n, end) && m.effects <= n.effects
  {
    hide Begin, Did, Renewed, ToldBad, Prelude, LaunchTold;
    BeginAnswers(m, c, previous, recovering, polls);
    var (n, end) := Begin(m, c, previous, recovering, polls);
    DidTime(m, n);
    AfterPrelude(h, m, n, end, c.commit, Unhealthy);
    if end.Ok? { RenewedLater(h, m, n, c.commit, true); }
  }

  lemma StopAndBeginAfter(h: Host, m: Host, e: Entry, c: Call, previous: Option<string>, recovering: bool, polls: nat)
    requires Prelude(h, m) && SoundWorld(m.world)
    ensures var (n, end) := StopAndBegin(m, e, c, previous, recovering, polls);
            DeployedAs(h, c, n, end) && m.effects <= n.effects
  {
    hide StopOwned, Begin, Renewed, LaunchTold, Quiet, Alive;
    StopOwnedFacts(m, e.supervisor, e.child, polls);
    var (k, stopped) := StopOwned(m, e.supervisor, e.child, polls);
    QuietPrelude(m, k, e.supervisor, e.child);
    PreludeTrans(h, m, k);
    OnwardTime(m, k);
    if stopped.Ok? {
      BeginAfter(h, k, c, previous, recovering, polls);
    } else {
      PreludeTold(h, k, stopped, c.commit, Unhealthy);
    }
  }

  /** The same commit again, after its release was verified. */
  lemma RedeployAfter(h: Host, m: Host, e: Entry, c: Call, polls: nat)
    requires SoundWorld(h.world) && h.disk.active == Some(e) && e.commit == c.commit
    requires Plain(h, m) && m.disk == h.disk && m.effects == h.effects + [Asked(Verify(e.commit), Yes)]
    ensures var (n, end) := Redeploy(m, e, c, polls); DeployedAs(h, c, n, end) && m.effects <= n.effects
  {
    hide Begin, StopAndBegin, Matches, Probe, Renewed, LaunchTold, Quiet, Alive, Plain, SeenAlive, Prelude, Onward;
    PlainPrelude(h, m);
    PreludeSound(h, m);
    if e.boot != m.world.boot {
      BeginAfter(h, m, c, m.disk.previous, true, polls);
    } else {
      var (h1, s) := Matches(m, e.supervisor);
      MatchesFacts(m, e.supervisor, e.supervisor, e.child);
      QuietPrelude(m, h1, e.supervisor, e.child);
      PreludeTrans(h, m, h1);
      if s.Mismatch? {
        PreludeTold(h, h1, Failed, c.commit, Unhealthy);
      } else {
        var (h2, k) := Matches(h1, e.child);
        MatchesFacts(h1, e.child, e.supervisor, e.child);
        QuietPrelude(h1, h2, e.supervisor, e.child);
        PreludeTrans(h, h1, h2);
        PreludeSound(h, h2);
        if k.Mismatch? {
          PreludeTold(h, h2, Failed, c.commit, Unhealthy);
        } else if s.Absent? && k.Absent? {
          BeginAfter(h, h2, c, m.disk.previous, true, polls);
        } else if !(s.Live? && k.Live?) {
          StopAndBeginAfter(h, h2, e, c, m.disk.previous, true, polls);
        } else {
          ReuseOrNot(h, m, h1, h2, e, c, polls);
        }
      }
    }
  }

  lemma PreludeSound(h: Host, m: Host)
    requires Prelude(h, m) && SoundWorld(h.world)
    ensures SoundWorld(m.world) && m.disk == h.disk && m.world.boot == h.world.boot
  {
  }

  /** Both processes were seen; the probe decides. */
  lemma ReuseOrNot(h: Host, m: Host, h1: Host, h2: Host, e: Entry, c: Call, polls: nat)
    requires SoundWorld(h.world) && h.disk.active == Some(e) && e.commit == c.commit && e.boot == m.world.boot
    requires Plain(h, m) && m.disk == h.disk && m.effects == h.effects + [Asked(Verify(e.commit), Yes)]
    requires (h1, Live) == Matches(m, e.supervisor) && (h2, Live) == Matches(h1, e.child)
    ensures var (h3, probed) := Probe(h2, e);
            var (n, end) := if probed.Failed? then StopAndBegin(h3, e, c, m.disk.previous, true, polls)
                            else (h3, probed);
            DeployedAs(h, c, n, end) && m.effects <= n.effects
  {
    hide StopAndBegin, Matches, Probe, Renewed, LaunchTold, Alive, SeenAlive, Prelude, Onward;
    Looked(m, h1, h2, e);
    ProbeAsks(h2, e);
    var (h3, probed) := Probe(h2, e);
    PlainTrans(m, h2, h3);
    PlainTrans(h, m, h3);
    PlainPrelude(h, h3);
    PreludeSound(h, h3);
    if probed.Failed? {
      StopAndBeginAfter(h, h3, e, c, m.disk.previous, true, polls);
    } else {
      PreludeTold(h, h3, probed, c.commit, Unhealthy);
      if probed.Ok? {
        SawBoth(h, m, h1, h2, h3, e);
        PlainPrelude(h, m);
        PreludeSound(h, m);
        assert h3.effects == h.effects + [Asked(Verify(e.commit), Yes), Asked(Reach(e), Yes)];
      }
    }
  }

  /** Two inspections change nothing but the time. */
  lemma Looked(m: Host, h1: Host, h2: Host, e: Entry)
    requires (h1, Live) == Matches(m, e.supervisor) && (h2, Live) == Matches(h1, e.child)
    ensures Plain(m, h1) && Plain(h1, h2) && Plain(m, h2) && h2.effects == m.effects && h2.disk == m.disk
    ensures Alive(h1.world, e.supervisor) && Alive(h2.world, e.child)
  {
    hide Matches, Plain;
    MatchesPlain(m, e.supervisor);
    MatchesPlain(h1, e.child);
    MatchesFacts(m, e.supervisor, e.supervisor, e.child);
    MatchesFacts(h1, e.child, e.supervisor, e.child);
    PlainTrans(m, h1, h2);
  }

  lemma SawBoth(h: Host, m: Host, h1: Host, h2: Host, n: Host, e: Entry)
    requires Plain(h, m) && Plain(m, h1) && Plain(h1, h2) && Plain(h2, n)
    requires Alive(h1.world, e.supervisor) && Alive(h2.world, e.child)
    ensures SeenAlive(h, n, e.supervisor) && SeenAlive(h, n, e.child)
  {
    hide Onward, Alive, SeenAlive;
    OnwardTrans(h, m, h1);
    OnwardTrans(h1, h2, n);
    SawAlive(h, h1, n, e.supervisor);
    OnwardTrans(h, h1, h2);
    SawAlive(h, h2, n, e.child);
  }

  /**
   A deploy ends well in one of two ways. The recorded processes of the same commit were seen and answered
   their probe; then nothing else happened. Or it launched the commit in this boot, and after that the new
   entry answered its probe, its release was verified and it was written down as healthy. A registry newly
   written as healthy means that it ended well, and a probe of its own launch that failed, like any other
   failure from then on, is the last thing it told before it wrote the entry down as unhealthy.
   */
  lemma DeployAnswers(h: Host, c: Call, polls: nat)
    requires HostOk(h)
    ensures var (n, end) := Deploy(h, c, polls);
            && DeployedAs(h, c, n, end)
            && (h.disk.active.Some? ==> VerifiedFirst(h, n, end, h.disk.active.value.commit))
  {
    hide Begin, StopAndBegin, Redeploy, Plain, Prelude, DeployedAs, LaunchTold, VerifiedFirst, Renewed, Reused;
    SelfPlain(h);
    PlainPrelude(h, h);
    if h.disk.active.None? {
      BeginAfter(h, h, c, None, false, polls);
    } else {
      var e := h.disk.active.value;
      TryAsks(h, Verify(e.commit));
      var (h1, verified) := Try(h, Verify(e.commit));
      PlainPrelude(h, h1);
      PreludeSound(h, h1);
      if !verified.Ok? {
        PreludeDeployed(h, h1, c, verified);
        FirstFailed(h, h1, verified, e.commit);
      } else {
        if e.commit == c.commit {
          RedeployAfter(h, h1, e, c, polls);
        } else if e.boot != h1.world.boot {
          BeginAfter(h, h1, c, Some(e.commit), false, polls);
        } else {
          StopAndBeginAfter(h, h1, e, c, Some(e.commit), false, polls);
        }
        FirstPassed(h, h1, Deploy(h, c, polls).0, Deploy(h, c, polls).1, e.commit);
      }
    }
  }

  lemma SelfPlain(h: Host)
    ensures Plain(h, h)
  {
    PlainSelf(h);
  }

  lemma PreludeDeployed(h: Host, m: Host, c: Call, end: End)
    requires Prelude(h, m) && !end.Ok?
    ensures DeployedAs(h, c, m, end)
  {
    hide Prelude, LaunchTold;
    PreludeTold(h, m, end, c.commit, Unhealthy);
  }

  lemma FirstFailed(h: Host, m: Host, end: End, commit: string)
    requires (m, end) == Try(h, Verify(commit)) && !end.Ok?
    ensures VerifiedFirst(h, m, end, commit)
  {
    TryAsks(h, Verify(commit));
  }

  lemma FirstPassed(h: Host, m: Host, n: Host, end: End, commit: string)
    requires (m, Ok) == Try(h, Verify(commit)) && m.effects <= n.effects
    ensures VerifiedFirst(h, n, end, commit)
  {
    TryAsks(h, Verify(commit));
  }

  // ----- rollback -----

  /** What a rollback to `target` says when it ends well, and what it leaves when it does not. */
  ghost predicate RolledBackAs(h: Host, target: string, n: Host, end: End) {
    && LaunchTold(h, n, end, target, RollbackUnhealthy)
    && (end.Ok? ==> Renewed(h, n, target, false) && n.disk.status == Some(RolledBack))
  }

  lemma RestoreAfter(h: Host, m: Host, c: Call, target: string, polls: nat)
    requires Prelude(h, m) && SoundWorld(m.world)
    ensures var (n, end) := Restore(m, c, target, polls); RolledBackAs(h, target, n, end) && m.effects <= n.effects
  {
    hide Restore, Did, Renewed, ToldBad, Prelude, LaunchTold;
    RestoreAnswers(m, c, target, polls);
    var (n, end) := Restore(m, c, target, polls);
    DidTime(m, n);
    AfterPrelude(h, m, n, end, target, RollbackUnhealthy);
    if end.Ok? { RenewedLater(h, m, n, target, false); }
  }

  /**
   A rollback ends well only by launching the recorded target in this boot, which then answers its probe and
   is written down as rolled back. It verifies the target before it touches anything, and a failed probe of
   its launch is told as a deploy tells it.
   */
  lemma RollbackAnswers(h: Host, c: Call, polls: nat)
    requires HostOk(h)
    ensures var (n, end) := Rollback(h, c, polls);
            if h.disk.operation != Some(c.commit) || h.disk.digest != Some(c.digest) || h.disk.previous.None? then
              (n, end) == (h, Failed)
            else
              RolledBackAs(h, h.disk.previous.value, n, end) && VerifiedFirst(h, n, end, h.disk.previous.value)
  {
    hide Restore, StopOwned, Plain, Prelude, LaunchTold, VerifiedFirst, Renewed, Quiet, Alive;
    if h.disk.operation == Some(c.commit) && h.disk.digest == Some(c.digest) && h.disk.previous.Some? {
      var target := h.disk.previous.value;
      TryAsks(h, Verify(target));
      var (h1, verified) := Try(h, Verify(target));
      PlainPrelude(h, h1);
      PreludeSound(h, h1);
      PreludeTold(h, h1, Failed, target, RollbackUnhealthy);
      if !verified.Ok? {
        PreludeTold(h, h1, verified, target, RollbackUnhealthy);
        FirstFailed(h, h1, verified, target);
      } else {
        FirstPassed(h, h1, h1, Failed, target);
        if h.disk.active.None? {
          RestoreAfter(h, h1, c, target, polls);
        } else if ValidEntry(h.disk.active.value, c.digest) {
          var e := h.disk.active.value;
          StopOwnedFacts(h1, e.supervisor, e.child, polls);
          var (h2, stopped) := StopOwned(h1, e.supervisor, e.child, polls);
          QuietPrelude(h1, h2, e.supervisor, e.child);
          OnwardTime(h1, h2);
          PreludeTrans(h, h1, h2);
          PreludeSound(h, h2);
          if stopped.Ok? {
            RestoreAfter(h, h2, c, target, polls);
          } else {
            PreludeTold(h, h2, stopped, target, RollbackUnhealthy);
          }
        }
        FirstPassed(h, h1, Rollback(h, c, polls).0, Rollback(h, c, polls).1, target);
      }
    }
  }

  // ----- recovery -----

  /** After the probe of the restarted entry failed, all that happened is that its processes were stopped. */
  ghost predicate StoppedAgain(h: Host, n: Host, end: End) {
    forall i, j :: ProbeFailed(h, n.effects, j, i) ==>
      && !end.Ok?
      && forall k :: i < k < |n.effects| ==> Stops(n.effects[k], n.effects[i].question.entry)
  }

  predicate Stops(effect: Effect, e: Entry) {
    || effect == Killed(e.supervisor, e.supervisor) || effect == Killed(e.child, e.child)
    || (effect.Asked? && effect.question == Shutdown(e.supervisor))
  }

  /** What recovery says when it ends well, and that it stops what it started in vain. */
  ghost predicate RecoveredAs(h: Host, commit: string, n: Host, end: End) {
    && h.effects <= n.effects
    && (end.Ok? ==> Reused(h, n) || Renewed(h, n, commit, true))
    && StoppedAgain(h, n, end)
  }

  /** Every failed probe from effect `from` on was followed by stopping what it asked for, and nothing else. */
  predicate AllStopped(from: nat, n: Host, end: End) {
    forall i :: from <= i < |n.effects| && FailedReach(n.effects[i]) ==> OnlyStops(n, i) && !end.Ok?
  }

  predicate OnlyStops(n: Host, i: nat)
    requires i < |n.effects| && FailedReach(n.effects[i])
  {
    forall k :: i < k < |n.effects| ==> Stops(n.effects[k], n.effects[i].question.entry)
  }

  lemma StartRunning(h: Host, commit: string, digest: string, polls: nat)
    requires SoundWorld(h.world)
    ensures var (n, launch) := Start(h, commit, digest, polls);
            && h.effects <= n.effects && n.world.boot == h.world.boot && Did(h, n, None)
            && (forall i :: |h.effects| <= i < |n.effects| ==> !FailedReach(n.effects[i]))
            && (launch.Running? ==>
                  && launch.entry.commit == commit && launch.entry.boot == h.world.boot
                  && |h.effects| < |n.effects| && LaunchedAs(n.effects[|h.effects|], launch.entry, commit))
  {
    hide Start, EntryBorn, LaunchedEntry, Did;
    StartFacts(h, commit, digest, polls, None);
    StartAsks(h, commit, digest, polls);
    var (n, launch) := Start(h, commit, digest, polls);
    DidTime(h, n);
    if launch.Running? { LaunchedBorn(n, launch, commit, digest); }
  }

  lemma RestartAnswers(h: Host, e: Entry, polls: nat)
    requires SoundWorld(h.world)
    ensures var (n, end) := Restart(h, e, polls);
            && h.effects <= n.effects && AllStopped(|h.effects|, n, end)
            && (end.Ok? ==> Renewed(h, n, e.commit, true))
  {
    hide Start, Save, Probe, Try, StopOwned, LaunchedAs, Stops, Did, Plain, Quiet, Alive, Born;
    StartRunning(h, e.commit, e.digest, polls);
    var (h1, launch) := Start(h, e.commit, e.digest, polls);
    if launch.Running? {
      var restored := launch.entry;
      var r := h1.disk.(active := Some(restored));
      SaveAsks(h1, r);
      var (h2, saved) := Save(h1, r);
      if saved.Ok? {
        ProbeAsks(h2, restored);
        var (h3, probed) := Probe(h2, restored);
        if probed.Failed? {
          StopOwnedFacts(h3, restored.supervisor, restored.child, polls);
          var h4 := StopOwned(h3, restored.supervisor, restored.child, polls).0;
          QuietStops(h3, h4, restored);
          StoppedAfter(h, h2, h3, h4, restored);
        } else if probed.Ok? {
          TryAsks(h3, Verify(e.commit));
          var (h4, verified) := Try(h3, Verify(e.commit));
          if verified.Ok? {
            SaveAsks(h4, r);
            var (n, end) := Save(h4, r);
            if end.Ok? { RestartEnds(h, h1, n, e.commit, restored); }
          }
        }
      }
    }
  }

  lemma RestartEnds(h: Host, h1: Host, n: Host, commit: string, e: Entry)
    requires |h.effects| < |h1.effects| && LaunchedAs(h1.effects[|h.effects|], e, commit)
    requires e.commit == commit && e.boot == h.world.boot && n.disk.active == Some(e)
    requires n.effects == h1.effects + [Asked(DeploymentSpec.Write(n.disk), Yes)] + [Asked(Reach(e), Yes)]
                          + [Asked(Verify(commit), Yes)] + [Asked(DeploymentSpec.Write(n.disk), Yes)]
    ensures Renewed(h, n, commit, true)
  {
    hide LaunchedAs;
    assert n.effects == (h1.effects + [Asked(DeploymentSpec.Write(n.disk), Yes)])
      + [Asked(Reach(e), Yes), Asked(Verify(commit), Yes), Asked(DeploymentSpec.Write(n.disk), Yes)];
    assert n.effects[|h.effects|] == h1.effects[|h.effects|];
  }

  lemma QuietStops(h: Host, n: Host, e: Entry)
    requires Quiet(h, n, e.supervisor, e.child)
    ensures h.effects <= n.effects
    ensures forall k :: |h.effects| <= k < |n.effects| ==> Stops(n.effects[k], e) && !FailedReach(n.effects[k])
  {
  }

  lemma StoppedAfter(h: Host, h2: Host, h3: Host, n: Host, e: Entry)
    requires h.effects <= h2.effects && h3.effects <= n.effects && |h3.effects| == |h2.effects| + 1
    requires h2.effects <= h3.effects && h3.effects[|h2.effects|].Asked?
    requires h3.effects[|h2.effects|].question == Reach(e)
    requires forall i :: |h.effects| <= i < |h2.effects| ==> !FailedReach(h2.effects[i])
    requires forall k :: |h3.effects| <= k < |n.effects| ==> Stops(n.effects[k], e) && !FailedReach(n.effects[k])
    ensures AllStopped(|h.effects|, n, Failed)
  {
    hide Stops;
    assert forall i :: |h.effects| <= i < |h2.effects| ==> n.effects[i] == h2.effects[i];
    assert n.effects[|h2.effects|] == h3.effects[|h2.effects|];
  }

  lemma RestartAfter(h: Host, m: Host, e: Entry, polls: nat)
    requires Prelude(h, m) && SoundWorld(m.world)
    ensures var (n, end) := Restart(m, e, polls); RecoveredAs(h, e.commit, n, end) && m.effects <= n.effects
  {
    hide Restart, Renewed, Stops;
    RestartAnswers(m, e, polls);
    var (n, end) := Restart(m, e, polls);
    if end.Ok? { RenewedLater(h, m, n, e.commit, true); }
    forall i, j | ProbeFailed(h, n.effects, j, i) ensures OnlyStops(n, i) && !end.Ok? {
      assert j >= |m.effects|;
    }
  }

  lemma StopAndRestartAfter(h: Host, m: Host, e: Entry, polls: nat)
    requires Prelude(h, m) && SoundWorld(m.world)
    ensures var (n, end) := StopAndRestart(m, e, polls); RecoveredAs(h, e.commit, n, end) && m.effects <= n.effects
  {
    hide StopOwned, Restart, Renewed, Quiet, Alive;
    StopOwnedFacts(m, e.supervisor, e.child, polls);
    var (k, stopped) := StopOwned(m, e.supervisor, e.child, polls);
    QuietPrelude(m, k, e.supervisor, e.child);
    PreludeTrans(h, m, k);
    OnwardTime(m, k);
    if stopped.Ok? { RestartAfter(h, k, e, polls); }
  }

  /** The rest of recovery in the boot that launched the entry, after its release was verified. */
  lemma RecoverLiveAfter(h: Host, m: Host, e: Entry, polls: nat)
    requires SoundWorld(h.world) && h.disk.active == Some(e) && e.boot == h.world.boot
    requires Plain(h, m) && m.disk == h.disk && m.effects == h.effects + [Asked(Verify(e.commit), Yes)]
    ensures var (n, end) := RecoverLive(m, e, polls); RecoveredAs(h, e.commit, n, end) && m.effects <= n.effects
  {
    hide Restart, StopAndRestart, Matches, Probe, Renewed, Quiet, Alive, Plain, SeenAlive, Prelude, Onward, RecoveredAs;
    PlainPrelude(h, m);
    PreludeRecovered(h, m, e.commit);
    var (h1, s) := Matches(m, e.supervisor);
    MatchesFacts(m, e.supervisor, e.supervisor, e.child);
    QuietPrelude(m, h1, e.supervisor, e.child);
    OnwardTime(m, h1);
    PreludeTrans(h, m, h1);
    PreludeRecovered(h, h1, e.commit);
    if !s.Mismatch? {
      var (h2, k) := Matches(h1, e.child);
      MatchesFacts(h1, e.child, e.supervisor, e.child);
      QuietPrelude(h1, h2, e.supervisor, e.child);
      OnwardTime(h1, h2);
      PreludeTrans(h, h1, h2);
      PreludeSound(h, h2);
      PreludeRecovered(h, h2, e.commit);
      if k.Mismatch? {
      } else if s.Absent? && k.Absent? {
        RestartAfter(h, h2, e, polls);
      } else if !(s.Live? && k.Live?) {
        StopAndRestartAfter(h, h2, e, polls);
      } else {
        KeepOrNot(h, m, h1, h2, e, polls);
      }
    }
  }

  lemma PreludeRecovered(h: Host, m: Host, commit: string)
    requires Prelude(h, m)
    ensures RecoveredAs(h, commit, m, Failed) && RecoveredAs(h, commit, m, Dead)
  {
  }

  /** Both processes were seen; the probe decides. */
  lemma KeepOrNot(h: Host, m: Host, h1: Host, h2: Host, e: Entry, polls: nat)
    requires SoundWorld(h.world) && h.disk.active == Some(e) && e.boot == h.world.boot
    requires Plain(h, m) && m.disk == h.disk && m.effects == h.effects + [Asked(Verify(e.commit), Yes)]
    requires (h1, Live) == Matches(m, e.supervisor) && (h2, Live) == Matches(h1, e.child)
    ensures var (h3, probed) := Probe(h2, e);
            var (n, end) := if probed.Failed? then StopAndRestart(h3, e, polls) else (h3, probed);
            RecoveredAs(h, e.commit, n, end) && m.effects <= n.effects
  {
    hide StopAndRestart, Matches, Probe, Renewed, Alive, SeenAlive, Prelude, Onward, StoppedAgain;
    Looked(m, h1, h2, e);
    ProbeAsks(h2, e);
    var (h3, probed) := Probe(h2, e);
    PlainTrans(m, h2, h3);
    PlainTrans(h, m, h3);
    PlainPrelude(h, h3);
    PreludeSound(h, h3);
    if probed.Failed? {
      StopAndRestartAfter(h, h3, e, polls);
    } else {
      PreludeRecovered(h, h3, e.commit);
      if probed.Ok? {
        SawBoth(h, m, h1, h2, h3, e);
        NoStarts(h, h3);
        assert h3.effects == h.effects + [Asked(Verify(e.commit), Yes), Asked(Reach(e), Yes)];
      }
    }
  }

  lemma NoStarts(h: Host, n: Host)
    requires Prelude(h, n)
    ensures StoppedAgain(h, n, Ok)
  {
  }

  /**
   Recovery skips what was never established and refuses another spec. Otherwise it ends well in one of two
   ways only: both recorded processes of this boot were seen and answered their probe, and nothing else
   happened; or it launched the active commit in this boot, and after that the new entry answered its probe,
   its release was verified and it was written down. What it started and cannot reach it stops again.
   */
  lemma RecoverAnswers(h: Host, path: string, digest: string, polls: nat)
    requires HostOk(h)
    ensures var (n, end) := Recover(h, path, digest, polls);
            var r := h.disk;
            if r.status != Some(Healthy) && r.status != Some(RolledBack) then (n, end) == (h, Ok)
            else if r.spec != Some(path) || r.digest != Some(digest) then (n, end) == (h, Failed)
            else
              && r.active.Some?
              && RecoveredAs(h, r.active.value.commit, n, end)
              && VerifiedFirst(h, n, end, r.active.value.commit)
  {
    hide Restart, StopAndRestart, RecoverLive, Plain, Prelude, VerifiedFirst, RecoveredAs, EntryBorn;
    if Established(h.disk.status) && h.disk.spec == Some(path) && h.disk.digest == Some(digest) {
      var e := h.disk.active.value;
      TryAsks(h, Verify(e.commit));
      var (h1, verified) := Try(h, Verify(e.commit));
      PlainPrelude(h, h1);
      PreludeSound(h, h1);
      PreludeRecovered(h, h1, e.commit);
      if !verified.Ok? {
        FirstFailed(h, h1, verified, e.commit);
      } else {
        if e.boot != h1.world.boot {
          RestartAfter(h, h1, e, polls);
        } else {
          RecoverLiveAfter(h, h1, e, polls);
          RecoverIsLive(h, h1, path, digest, polls);
        }
        FirstPassed(h, h1, Recover(h, path, digest, polls).0, Recover(h, path, digest, polls).1, e.commit);
      }
    }
  }

  lemma RecoverIsLive(h: Host, h1: Host, path: string, digest: string, polls: nat)
    requires Established(h.disk.status) && h.disk.spec == Some(path) && h.disk.digest == Some(digest)
    requires h.disk.active.Some? && ValidEntry(h.disk.active.value, digest)
    requires (h1, Ok) == Try(h, Verify(h.disk.active.value.commit)) && h.disk.active.value.boot == h1.world.boot
    ensures Recover(h, path, digest, polls) == RecoverLive(h1, h.disk.active.value, polls)
  {
  }

  // ----- health and stop -----

  /**
   Health is recorded exactly when the active entry belongs to the request, both its processes were seen, its
   release was verified and it then answered its probe; launches, kills and other writes never happen.
   */
  lemma HealthAnswers(h: Host, c: Call)
    requires HostOk(h)
    ensures var (n, end) := Health(h, c);
            && n.disk == (if end.Ok? then h.disk.(status := Some(Healthy)) else h.disk)
            && (end.Ok? ==>
                  && h.disk.operation == Some(c.commit) && h.disk.active.Some?
                  && var e := h.disk.active.value;
                     && e.digest == c.digest
                     && SeenAlive(h, n, e.supervisor) && SeenAlive(h, n, e.child)
                     && n.effects == h.effects + [Asked(Verify(e.commit), Yes), Asked(Reach(e), Yes),
                                                  Asked(DeploymentSpec.Write(n.disk), Yes)])
  {
    hide Plain, AssertActive, Try, Probe, Save, SeenAlive;
    HealthFacts(h, c);
    if h.disk.operation == Some(c.commit) {
      AssertActiveFacts(h, c.digest);
      var (h1, active) := AssertActive(h, c.digest);
      AssertsOnly(h, c.digest);
      if active.Ok? {
        var e := h.disk.active.value;
        TryAsks(h1, Verify(e.commit));
        var (h2, verified) := Try(h1, Verify(e.commit));
        if verified.Ok? {
          ProbeAsks(h2, e);
          var (h3, probed) := Probe(h2, e);
          if probed.Ok? {
            var (n, end) := Save(h3, h3.disk.(status := Some(Healthy)));
            SaveAsks(h3, h3.disk.(status := Some(Healthy)));
            PlainTrans(h1, h2, h3);
            PlainTrans(h1, h3, n);
            SeenLater(h, h1, n, e.supervisor);
            SeenLater(h, h1, n, e.child);
          }
        }
      }
    }
  }

  /** The check of the active entry asks nothing, and passes only after both processes were seen. */
  lemma AssertsOnly(h: Host, digest: string)
    ensures var (n, end) := AssertActive(h, digest);
            && n.effects == h.effects && n.answers == h.answers && Plain(h, n)
            && (end.Ok? ==>
                  && h.disk.active.Some? && h.disk.active.value.digest == digest
                  && SeenAlive(h, n, h.disk.active.value.supervisor) && SeenAlive(h, n, h.disk.active.value.child))
  {
    hide Plain, Matches, SeenAlive;
    PlainSelf(h);
    if h.disk.active.Some? && ValidEntry(h.disk.active.value, digest) {
      var e := h.disk.active.value;
      MatchesPlain(h, e.supervisor);
      var (h1, s) := Matches(h, e.supervisor);
      MatchesAnswers(h, e.supervisor);
      if s.Live? {
        MatchesPlain(h1, e.child);
        MatchesAnswers(h1, e.child);
        var (h2, k) := Matches(h1, e.child);
        PlainTrans(h, h1, h2);
        if k.Live? {
          Looked(h, h1, h2, e);
          PlainSelf(h2);
          SawBoth(h, h, h1, h2, h2, e);
        }
      }
    }
  }

  lemma MatchesAnswers(h: Host, i: Ident)
    ensures var n := Matches(h, i).0; n.answers == h.answers && n.disk == h.disk
  {
  }

  lemma SeenLater(h: Host, m: Host, n: Host, i: Ident)
    requires SeenAlive(h, m, i) && Plain(m, n)
    ensures SeenAlive(h, n, i)
  {
    var k := |h.future| - |m.future|;
    assert h.future[..k] == h.future[..|h.future| - |n.future|][..k];
  }

  // ----- every run -----

  /** An established registry serves a commit and a spec that once answered a probe. */
  ghost predicate OnceReached(h: Host) {
    Established(h.disk.status) ==>
      && h.disk.active.Some?
      && exists i, e :: 0 <= i < |h.effects| && h.effects[i] == Asked(Reach(e), Yes)
                        && e.commit == h.disk.active.value.commit && e.digest == h.disk.active.value.digest
  }

  lemma KeptReached(h: Host, n: Host)
    requires OnceReached(h) && h.effects <= n.effects && n.disk.status == h.disk.status
    requires n.disk.active.Some? == h.disk.active.Some?
    requires n.disk.active.Some? ==> n.disk.active.value.commit == h.disk.active.value.commit
                                     && n.disk.active.value.digest == h.disk.active.value.digest
    ensures OnceReached(n)
  {
    if Established(h.disk.status) {
      var i, e :| 0 <= i < |h.effects| && h.effects[i] == Asked(Reach(e), Yes)
                  && e.commit == h.disk.active.value.commit && e.digest == h.disk.active.value.digest;
      assert n.effects[i] == Asked(Reach(e), Yes);
    }
  }

  lemma ReachedNow(n: Host, i: nat)
    requires n.disk.active.Some? && i < |n.effects| && n.effects[i] == Asked(Reach(n.disk.active.value), Yes)
    ensures OnceReached(n)
  {
  }

  lemma RenewedReached(h: Host, n: Host, commit: string, verify: bool)
    requires Renewed(h, n, commit, verify)
    ensures OnceReached(n)
  {
    var k := if verify then 3 else 2;
    var tail := n.effects[|n.effects| - k..];
    assert n.effects[|n.effects| - k] == tail[0];
    ReachedNow(n, |n.effects| - k);
  }

  lemma TurnReaches(h: Host, t: Turn)
    requires HostOk(h) && OnceReached(h)
    ensures OnceReached(After(h, t))
  {
    hide Deploy, Health, Rollback, Stop, Recover, Orderly, OnceReached, Renewed, Reused, FailuresTold, FailedLast,
      VerifiedFirst, StoppedAgain, Did, Plain, Since, Onward, Later;
    TurnKeeps(h, t);
    var n := After(h, t);
    var ready := h.(future := t.future, answers := t.answers);
    match t.command
    case Deploys(c) =>
      DeployAnswers(ready, c, t.polls);
      if n.disk == h.disk {
        KeptReached(h, n);
      } else if Established(n.disk.status) {
        RenewedOnce(ready, n, c.commit, true);
      } else {
        NotEstablished(n);
      }
    case RollsBack(c) =>
      RollbackAnswers(ready, c, t.polls);
      if n.disk == h.disk {
        KeptReached(h, n);
      } else if Established(n.disk.status) {
        RenewedOnce(ready, n, h.disk.previous.value, false);
      } else {
        NotEstablished(n);
      }
    case ChecksHealth(c) =>
      HealthAnswers(ready, c);
      if n.disk == h.disk {
        KeptReached(h, n);
      } else {
        ReachedNow(n, |h.effects| + 1);
      }
    case Stops(c) =>
      StopFacts(ready, c, t.polls);
      if n.disk == h.disk {
        KeptReached(h, n);
      } else {
        NotEstablished(n);
      }
    case Recovers(path, digest) =>
      SameDigest(h, n);
      KeptReached(h, n);
    case TimePasses(_) => KeptReached(h, n);
    case Reboots(_) => KeptReached(h, n);
  }

  lemma NotEstablished(n: Host)
    requires !Established(n.disk.status)
    ensures OnceReached(n)
  {
  }

  lemma RenewedOnce(h: Host, n: Host, commit: string, verify: bool)
    requires n.disk != h.disk && (Reused(h, n) || Renewed(h, n, commit, verify))
    ensures OnceReached(n)
  {
    RenewedReached(h, n, commit, verify);
  }

  lemma SameDigest(h: Host, n: Host)
    requires HostOk(h) && HostOk(n) && SameIdentity(h.disk, n.disk)
    ensures n.disk.active.Some? ==> n.disk.active.value.digest == h.disk.active.value.digest
    ensures n.disk.active.Some? == h.disk.active.Some? && n.disk.status == h.disk.status
    ensures n.disk.active.Some? ==> n.disk.active.value.commit == h.disk.active.value.commit
  {
  }

  lemma {:induction false} RunReaches(h: Host, turns: seq<Turn>)
    requires HostOk(h) && OnceReached(h)
    ensures OnceReached(RunTurns(h, turns))
    decreases |turns|
  {
    hide After, HostOk, OnceReached;
    if turns != [] {
      TurnKeeps(h, turns[0]);
      TurnReaches(h, turns[0]);
      RunReaches(After(h, turns[0]), turns[1..]);
    }
  }

  /** In every run, healthy or rolled back means that a probe of this very commit and spec was answered. */
  lemma EstablishedMeansReached(turns: seq<Turn>)
    ensures OnceReached(RunTurns(START, turns))
  {
    RunReaches(START, turns);
  }
}
