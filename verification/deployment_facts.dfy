/**
 What the managed release machine keeps: over any answers, failures and deaths of its commands, and over
 any process table the operating system may show.
 */
module DeploymentFacts {
  import opened Wrappers
  import opened DeploymentSpec

  // ----- time -----

  predicate Since(w: World, v: World) {
    v == w || Later(w, v)
  }

  lemma SinceTrans(w: World, v: World, u: World)
    requires Since(w, v) && Since(v, u)
    ensures Since(w, u)
  {
  }

  predicate Born(w: World, i: Ident) { i.birth < w.clock }

  /** Births only grow, so a process that is gone never comes back. */
  lemma GoneStays(w: World, v: World, i: Ident)
    requires Born(w, i) && !Alive(w, i) && Since(w, v)
    ensures !Alive(v, i) && Born(v, i)
  {
  }

  // ----- what a command may do to the outside -----

  /** No process of the entry runs: gone, or the entry belongs to an earlier boot. */
  predicate Cleared(e: Entry, w: World) {
    e.boot != w.boot || (!Alive(w, e.supervisor) && !Alive(w, e.child))
  }

  predicate Recorded(e: Option<Entry>, i: Ident) {
    e.Some? && (i == e.value.supervisor || i == e.value.child)
  }

  /** The process is the supervisor that this effect launched, or the child which that reported. */
  predicate LaunchedBy(effect: Effect, i: Ident) {
    effect.Started? && (i.pid == effect.supervisor || i == effect.child)
  }

  /** One of the effects from `n` up to `i` launched the process. */
  predicate LaunchedSince(effects: seq<Effect>, n: nat, i: nat, target: Ident)
    requires i <= |effects|
  {
    exists j :: n <= j < i && LaunchedBy(effects[j], target)
  }

  /** From effect `n` on: launches find the entry cleared, and kills hit what is recorded or was just launched. */
  ghost predicate Orderly(n: nat, effects: seq<Effect>, e: Option<Entry>) {
    forall i :: n <= i < |effects| ==>
      match effects[i]
      case Started(_, w, _, _) => e.Some? ==> Cleared(e.value, w)
      case Killed(target, victim) =>
        target == victim && (Recorded(e, target) || LaunchedSince(effects, n, i, effects[i].target))
      case Asked(_, _) => true
  }

  /** The answers that the effects account for. */
  function Replies(effects: seq<Effect>): seq<Answer>
    decreases |effects|
  {
    if effects == [] then []
    else
      var last := effects[|effects| - 1];
      Replies(effects[..|effects| - 1])
      + match last
        case Started(_, _, supervisor, child) => [DeploymentSpec.Launched(supervisor, child)]
        case Killed(_, _) => []
        case Asked(_, a) => [a]
  }

  lemma {:induction false} RepliesAppend(a: seq<Effect>, b: seq<Effect>)
    ensures Replies(a + b) == Replies(a) + Replies(b)
    decreases |b|
  {
    if b == [] {
      assert a + b == a;
    } else {
      var n := |b| - 1;
      assert (a + b)[..|a + b| - 1] == a + b[..n];
      RepliesAppend(a, b[..n]);
    }
  }

  /** The registry after these checkpoints: the last one that was written. */
  function LastWritten(effects: seq<Effect>, r: Registry): Registry
    decreases |effects|
  {
    if effects == [] then r
    else
      var last := effects[|effects| - 1];
      if last.Asked? && last.question.Write? && last.answer.Yes? then last.question.registry
      else LastWritten(effects[..|effects| - 1], r)
  }

  lemma {:induction false} LastWrittenAppend(a: seq<Effect>, b: seq<Effect>, r: Registry)
    ensures LastWritten(a + b, r) == LastWritten(b, LastWritten(a, r))
    decreases |b|
  {
    if b == [] {
      assert a + b == a;
    } else {
      var n := |b| - 1;
      assert (a + b)[..|a + b| - 1] == a + b[..n];
      LastWrittenAppend(a, b[..n], r);
    }
  }

  /**
   Effects were only added; each new one accounts for one answer used up, in order, and each process table
   used up is one that the system showed; the registry is the last checkpoint written.
   */
  predicate Accounted(h: Host, n: Host) {
    && h.effects <= n.effects
    && h.answers == Replies(n.effects[|h.effects|..]) + n.answers
    && n.disk == LastWritten(n.effects[|h.effects|..], h.disk)
    && |n.future| <= |h.future| && n.future == h.future[|h.future| - |n.future|..]
    && (n.world == h.world || n.world in h.future[..|h.future| - |n.future|])
  }

  lemma AccountedTrans(h: Host, n: Host, m: Host)
    requires Accounted(h, n) && Accounted(n, m)
    ensures Accounted(h, m)
  {
    var a, b := n.effects[|h.effects|..], m.effects[|n.effects|..];
    assert m.effects[|h.effects|..] == a + b;
    RepliesAppend(a, b);
    LastWrittenAppend(a, b, h.disk);
    var k := |h.future| - |n.future|;
    assert forall i :: 0 <= i < |n.future| ==> n.future[i] == h.future[k + i];
  }

  /** Time went on, and what happened is on record. */
  predicate Onward(h: Host, n: Host) {
    Since(h.world, n.world) && h.effects <= n.effects && Accounted(h, n)
  }

  lemma OnwardTrans(h: Host, n: Host, m: Host)
    requires Onward(h, n) && Onward(n, m)
    ensures Onward(h, m)
  {
    SinceTrans(h.world, n.world, m.world);
    AccountedTrans(h, n, m);
  }

  lemma LookFacts(h: Host)
    ensures Onward(h, Look(h)) && Look(h) == h.(world := Look(h).world, future := Look(h).future)
  {
    hide Later;
    var n := Look(h);
    assert n.effects[|h.effects|..] == [];
  }

  /** One more record. */
  lemma OneMore(effects: seq<Effect>, e: Effect, r: Registry)
    ensures var more := (effects + [e])[|effects|..];
            && more == [e]
            && Replies(more) == (match e
                                 case Started(_, _, s, c) => [DeploymentSpec.Launched(s, c)]
                                 case Killed(_, _) => []
                                 case Asked(_, a) => [a])
            && LastWritten(more, r)
               == if e.Asked? && e.question.Write? && e.answer.Yes? then e.question.registry else r
  {
    assert [e][..0] == [];
    assert (effects + [e])[|effects|..] == [e];
  }

  /** A call uses up one answer, if there is one left, and is on record with it. */
  lemma AskRecords(h: Host, q: Question)
    ensures var (n, a) := Ask(h, q);
            && n == h.(answers := n.answers, effects := n.effects)
            && (if h.answers == [] then n == h && a.Died?
                else a == h.answers[0] && n.answers == h.answers[1..]
                     && n.effects == h.effects + [if q.Spawn? && a.Launched?
                                                  then Started(q.commit, h.world, a.supervisor, a.child)
                                                  else Asked(q, a)])
            && (!(q.Write? && a.Yes?) ==> Onward(h, n))
            && (q.Write? ==> Onward(h, if a.Yes? then n.(disk := q.registry) else n))
  {
    var (n, a) := Ask(h, q);
    if h.answers == [] {
      assert n.effects[|h.effects|..] == [];
    } else {
      OneMore(h.effects, n.effects[|h.effects|], h.disk);
      assert h.answers == [h.answers[0]] + h.answers[1..];
    }
  }

  /** The new effects of `n` are kills of these two processes, and requests that the first one stop. */
  predicate OnlyKills(h: Host, n: Host, a: Ident, b: Ident) {
    && h.effects <= n.effects
    && forall i :: |h.effects| <= i < |n.effects| ==>
         || n.effects[i] == Killed(a, a) || n.effects[i] == Killed(b, b)
         || (n.effects[i].Asked? && n.effects[i].question == Shutdown(a))
  }

  /** Time, kills, and an untouched registry: what stopping may do. */
  predicate Quiet(h: Host, n: Host, a: Ident, b: Ident) {
    Onward(h, n) && OnlyKills(h, n, a, b) && n.disk == h.disk
  }

  lemma QuietTrans(h: Host, n: Host, m: Host, a: Ident, b: Ident)
    requires Quiet(h, n, a, b) && Quiet(n, m, a, b)
    ensures Quiet(h, m, a, b)
  {
    OnwardTrans(h, n, m);
  }

  lemma {:induction false} WaitGoneFacts(h: Host, pid: Pid, polls: nat, a: Ident, b: Ident)
    ensures var (n, gone) := WaitGone(h, pid, polls);
            Quiet(h, n, a, b) && (gone ==> pid !in n.world.procs)
    decreases polls
  {
    hide Later, Onward;
    var n := Look(h);
    LookFacts(h);
    assert Quiet(h, n, a, b);
    if pid in n.world.procs && polls > 0 {
      WaitGoneFacts(n, pid, polls - 1, a, b);
      QuietTrans(h, n, WaitGone(n, pid, polls - 1).0, a, b);
    }
  }

  lemma MatchesFacts(h: Host, i: Ident, a: Ident, b: Ident)
    ensures var (n, m) := Matches(h, i);
            Quiet(h, n, a, b) && (m.Live? ==> Alive(n.world, i)) && (m.Absent? ==> !Alive(n.world, i))
  {
    hide Later, Onward;
    LookFacts(h);
  }

  lemma ForceKillFacts(h: Host, i: Ident, a: Ident, b: Ident)
    requires i == a || i == b
    ensures Quiet(h, ForceKill(h, i).0, a, b)
  {
    hide Later, Look, Onward;
    LookFacts(h);
    var (n, m) := Matches(h, i);
    if m.Live? {
      var killed := ForceKill(h, i).0;
      OneMore(n.effects, Killed(i, n.world.procs[i.pid]), n.disk);
      assert Onward(n, killed) by { KillFacts(n, i); }
      OnwardTrans(h, n, killed);
    }
  }

  lemma KillFacts(h: Host, i: Ident)
    ensures Onward(h, h.(effects := h.effects + [Killed(i, i)]))
  {
    OneMore(h.effects, Killed(i, i), h.disk);
  }

  lemma EndProcessFacts(h: Host, i: Ident, polls: nat, a: Ident, b: Ident)
    requires i == a || i == b
    ensures Quiet(h, EndProcess(h, i, polls).0, a, b)
  {
    hide Quiet, WaitGone, ForceKill;
    WaitGoneFacts(h, i.pid, polls, a, b);
    var n := WaitGone(h, i.pid, polls).0;
    ForceKillFacts(n, i, a, b);
    QuietTrans(h, n, ForceKill(n, i).0, a, b);
    QuietSelf(n, a, b);
  }

  lemma QuietSelf(h: Host, a: Ident, b: Ident)
    ensures Quiet(h, h, a, b)
  {
    assert h.effects[|h.effects|..] == [];
  }

  lemma AskFacts(h: Host, a: Ident, b: Ident)
    ensures Quiet(h, Ask(h, Shutdown(a)).0, a, b) && Ask(h, Shutdown(a)).0.world == h.world
  {
    hide Onward;
    AskRecords(h, Shutdown(a));
  }

  /** Confirmation means both processes are gone, the first to be confirmed still so at the end. */
  lemma ConfirmGoneFacts(h: Host, supervisor: Ident, child: Ident, polls: nat)
    ensures var (n, end) := ConfirmGone(h, supervisor, child, polls);
            && Quiet(h, n, supervisor, child)
            && (end.Ok? && Born(h.world, supervisor) && Born(h.world, child) ==>
                  !Alive(n.world, supervisor) && !Alive(n.world, child))
  {
    hide WaitGone, Later;
    WaitGoneFacts(h, child.pid, polls, supervisor, child);
    var h1 := WaitGone(h, child.pid, polls).0;
    WaitGoneFacts(h1, supervisor.pid, polls, supervisor, child);
    var h2 := WaitGone(h1, supervisor.pid, polls).0;
    QuietTrans(h, h1, h2, supervisor, child);
    if ConfirmGone(h, supervisor, child, polls).1.Ok? && Born(h.world, child) {
      BornStays(h.world, h1.world, child);
      GoneStays(h1.world, h2.world, child);
    }
  }

  lemma BornStays(w: World, v: World, i: Ident)
    requires Born(w, i) && Since(w, v)
    ensures Born(v, i)
  {
  }

  /** Stopping kills only what it was asked to stop, and success means both processes are gone. */
  lemma StopOwnedFacts(h: Host, supervisor: Ident, child: Ident, polls: nat)
    ensures var (n, end) := StopOwned(h, supervisor, child, polls);
            && Quiet(h, n, supervisor, child)
            && (end.Ok? && Born(h.world, supervisor) && Born(h.world, child) ==>
                  !Alive(n.world, supervisor) && !Alive(n.world, child))
  {
    hide Quiet, Matches, Alive, EndProcess, ConfirmGone, Ask, Since;
    var (h1, s) := Matches(h, supervisor);
    MatchesFacts(h, supervisor, supervisor, child);
    if !s.Mismatch? {
      var (h2, c) := Matches(h1, child);
      MatchesFacts(h1, child, supervisor, child);
      QuietTrans(h, h1, h2, supervisor, child);
      if s.Absent? && c.Absent? && Born(h.world, supervisor) {
        QuietTime(h, h1, supervisor, child);
        QuietTime(h1, h2, supervisor, child);
        BornStays(h.world, h1.world, supervisor);
        GoneStays(h1.world, h2.world, supervisor);
      }
      if !c.Mismatch? && !(s.Absent? && c.Absent?) {
        var (h3, asked) := if s.Live? then Ask(h2, Shutdown(supervisor)) else (h2, Yes);
        AskFacts(h2, supervisor, child);
        QuietSelf(h2, supervisor, child);
        QuietTrans(h, h2, h3, supervisor, child);
        if !asked.Died? && !asked.No? {
          var (h4, ended) := if c.Live? then EndProcess(h3, child, polls) else (h3, Ok);
          EndProcessFacts(h3, child, polls, supervisor, child);
          QuietSelf(h3, supervisor, child);
          QuietTrans(h, h3, h4, supervisor, child);
          if ended.Ok? {
            var (h5, stopped) := if s.Live? then EndProcess(h4, supervisor, polls) else (h4, Ok);
            EndProcessFacts(h4, supervisor, polls, supervisor, child);
            QuietSelf(h4, supervisor, child);
            QuietTrans(h, h4, h5, supervisor, child);
            if stopped.Ok? {
              ConfirmGoneFacts(h5, supervisor, child, polls);
              QuietTrans(h, h5, ConfirmGone(h5, supervisor, child, polls).0, supervisor, child);
              QuietTime(h, h5, supervisor, child);
              if Born(h.world, supervisor) { BornStays(h.world, h5.world, supervisor); }
              if Born(h.world, child) { BornStays(h.world, h5.world, child); }
            }
          }
        }
      }
    }
  }

  lemma QuietTime(h: Host, n: Host, a: Ident, b: Ident)
    requires Quiet(h, n, a, b)
    ensures Since(h.world, n.world) && h.effects <= n.effects && n.disk == h.disk
  {
  }

  // ----- launching -----

  ghost predicate Did(h: Host, n: Host, e: Option<Entry>) {
    Onward(h, n) && Orderly(|h.effects|, n.effects, e)
  }

  /** Nothing was launched or killed. */
  predicate Plain(h: Host, n: Host) {
    Onward(h, n) && forall i :: |h.effects| <= i < |n.effects| ==> n.effects[i].Asked?
  }

  lemma PlainDid(h: Host, m: Host, n: Host, e: Option<Entry>)
    requires Plain(h, m) && Did(m, n, e)
    ensures Did(h, n, e)
  {
    OnwardTrans(h, m, n);
  }

  lemma DidPlain(h: Host, m: Host, n: Host, e: Option<Entry>)
    requires Did(h, m, e) && Plain(m, n)
    ensures Did(h, n, e)
  {
    OnwardTrans(h, m, n);
  }

  /** Stopping the entry first. */
  lemma QuietDid(h: Host, m: Host, n: Host, e: Entry)
    requires Quiet(h, m, e.supervisor, e.child) && Did(m, n, Some(e))
    ensures Did(h, n, Some(e))
  {
    OnwardTrans(h, m, n);
    forall i | |h.effects| <= i < |n.effects| && n.effects[i].Killed?
      ensures n.effects[i].target == n.effects[i].victim
      ensures Recorded(Some(e), n.effects[i].target)
           || LaunchedSince(n.effects, |h.effects|, i, n.effects[i].target)
    {
      if i < |m.effects| {
        assert n.effects[i] == m.effects[i];
      }
    }
    forall i | |h.effects| <= i < |n.effects| && n.effects[i].Started?
      ensures Cleared(e, n.effects[i].world)
    {
      assert i >= |m.effects|;
    }
  }

  /** Kills after a launch of the same command. */
  lemma DidQuiet(h: Host, m: Host, n: Host, e: Option<Entry>, a: Ident, b: Ident)
    requires Did(h, m, e) && |h.effects| < |m.effects| && Quiet(m, n, a, b)
    requires LaunchedBy(m.effects[|h.effects|], a) && LaunchedBy(m.effects[|h.effects|], b)
    ensures Did(h, n, e)
  {
    OnwardTrans(h, m, n);
    assert n.effects[|h.effects|] == m.effects[|h.effects|];
    forall i | |h.effects| <= i < |n.effects|
      ensures match n.effects[i]
              case Started(_, w, _, _) => e.Some? ==> Cleared(e.value, w)
              case Killed(target, victim) =>
                && target == victim
                && (Recorded(e, target) || LaunchedSince(n.effects, |h.effects|, i, n.effects[i].target))
              case Asked(_, _) => true
    {
      if i < |m.effects| {
        assert n.effects[i] == m.effects[i];
        if m.effects[i].Killed? && !Recorded(e, m.effects[i].target) {
          var j :| |h.effects| <= j < i && LaunchedBy(m.effects[j], m.effects[i].target);
          assert LaunchedBy(n.effects[j], n.effects[i].target);
        }
      }
    }
  }

  lemma TryFacts(h: Host, q: Question)
    requires q.Verify? || q.Reach?
    ensures Plain(h, Try(h, q).0) && Try(h, q).0.disk == h.disk && Try(h, q).0.world == h.world
  {
    hide Onward;
    AskRecords(h, q);
  }

  lemma SaveFacts(h: Host, r: Registry)
    ensures var (n, end) := Save(h, r);
            && Plain(h, n) && n.world == h.world && n.disk == (if end.Ok? then r else h.disk)
  {
    hide Onward;
    AskRecords(h, DeploymentSpec.Write(r));
  }

  lemma ProbeFacts(h: Host, e: Entry)
    ensures Plain(h, Probe(h, e).0) && Probe(h, e).0.disk == h.disk
  {
    hide Later, Onward, Look;
    LookFacts(h);
    AskRecords(Look(h), Reach(e));
    OnwardTrans(h, Look(h), Probe(h, e).0);
  }

  /** The entry was launched in this world: for this commit and spec, and by processes already born. */
  predicate Launches(n: Host, launch: Launch, commit: string, digest: string) {
    launch.Running? ==>
      var e := launch.entry;
      e.commit == commit && e.digest == digest && e.boot == n.world.boot
      && Born(n.world, e.supervisor) && Born(n.world, e.child)
  }

  /** Once the report was asked for, a handshake kills at most the two processes of the launch. */
  lemma HandshakeFacts(h: Host, commit: string, digest: string, supervisor: Ident, child: Ident, polls: nat)
    requires SoundWorld(h.world) && Born(h.world, supervisor)
    ensures var (n, launch) := Handshake(h, commit, digest, supervisor, child, polls);
            && Quiet(Ask(h, Report).0, n, supervisor, child) && Launches(n, launch, commit, digest)
            && (launch.Running? ==> launch.entry.supervisor == supervisor && launch.entry.child == child)
  {
    hide Quiet, StopOwned, ForceKill, Matches, Ask, Since, Alive;
    var (h1, ready) := Ask(h, Report);
    ReportFacts(h);
    QuietSelf(h1, supervisor, child);
    if ready.Yes? {
      var (h2, m) := Matches(h1, child);
      MatchesFacts(h1, child, supervisor, child);
      QuietTime(h1, h2, supervisor, child);
      BornStays(h.world, h2.world, supervisor);
      SoundStays(h.world, h2.world);
      if m.Live? {
        AliveIsBorn(h2.world, child);
      } else {
        StopOwnedFacts(h2, supervisor, child, polls);
        QuietTrans(h1, h2, StopOwned(h2, supervisor, child, polls).0, supervisor, child);
      }
    } else if ready.Lost? {
      StopOwnedFacts(h1, supervisor, child, polls);
    } else if !ready.Died? {
      ForceKillFacts(h1, supervisor, supervisor, child);
    }
  }

  lemma ReportFacts(h: Host)
    ensures var n := Ask(h, Report).0; Plain(h, n) && n.world == h.world && n.disk == h.disk
  {
    hide Onward;
    AskRecords(h, Report);
  }

  lemma SoundStays(w: World, v: World)
    requires SoundWorld(w) && Since(w, v)
    ensures SoundWorld(v)
  {
  }

  lemma AliveIsBorn(w: World, i: Ident)
    requires SoundWorld(w) && Alive(w, i)
    ensures Born(w, i)
  {
  }

  predicate LaunchedEntry(effect: Effect, e: Entry) {
    LaunchedBy(effect, e.supervisor) && LaunchedBy(effect, e.child)
  }

  /** A start finds the entry it replaces cleared, and kills only what it launched. */
  lemma StartFacts(h: Host, commit: string, digest: string, polls: nat, e: Option<Entry>)
    requires SoundWorld(h.world) && (e.Some? ==> Cleared(e.value, h.world))
    ensures var (n, launch) := Start(h, commit, digest, polls);
            && Did(h, n, e) && Did(h, n, None)
            && n.disk == h.disk && SoundWorld(n.world) && Launches(n, launch, commit, digest)
            && (launch.Running? ==>
                  && |h.effects| < |n.effects| && n.effects[|h.effects|].Started?
                  && n.effects[|h.effects|].commit == commit && LaunchedEntry(n.effects[|h.effects|], launch.entry))
  {
    hide Quiet, Later, Handshake, Cleared, Ask, Onward, Look, Plain;
    var (h1, a) := Ask(h, Spawn(commit));
    AskRecords(h, Spawn(commit));
    if a.Launched? {
      LookFacts(h1);
      var h2 := Look(h1);
      OnwardTrans(h, h1, h2);
      OnwardTime(h, h2);
      assert Did(h, h2, e) && Did(h, h2, None);
      SoundStays(h.world, h2.world);
      if a.supervisor in h2.world.procs {
        var supervisor := h2.world.procs[a.supervisor];
        HandshakeFacts(h2, commit, digest, supervisor, a.child, polls);
        var n := Handshake(h2, commit, digest, supervisor, a.child, polls).0;
        var h3 := Ask(h2, Report).0;
        ReportFacts(h2);
        DidPlain(h, h2, h3, e);
        DidPlain(h, h2, h3, None);
        PlainTime(h2, h3);
        DidQuiet(h, h3, n, e, supervisor, a.child);
        DidQuiet(h, h3, n, None, supervisor, a.child);
        QuietTime(h3, n, supervisor, a.child);
        SoundStays(h2.world, n.world);
      }
    }
  }

  lemma OnwardTime(h: Host, n: Host)
    requires Onward(h, n)
    ensures Since(h.world, n.world) && h.effects <= n.effects
  {
  }

  // ----- the registry -----

  /** The recorded processes were born before now, unless an earlier boot ran them. */
  predicate EntryBorn(w: World, e: Entry) {
    e.boot <= w.boot && (e.boot == w.boot ==> Born(w, e.supervisor) && Born(w, e.child))
  }

  /** An active entry belongs to the recorded spec; an established status has one; rolled back leaves no target. */
  predicate RegistryOk(r: Registry) {
    && (r.active.Some? ==> r.digest == Some(r.active.value.digest))
    && (Established(r.status) ==> r.active.Some?)
    && (r.status == Some(RolledBack) ==> r.previous.None?)
  }

  predicate HostOk(h: Host) {
    SoundWorld(h.world) && RegistryOk(h.disk) && (h.disk.active.Some? ==> EntryBorn(h.world, h.disk.active.value))
  }

  lemma EntryBornStays(w: World, v: World, e: Entry)
    requires EntryBorn(w, e) && Since(w, v)
    ensures EntryBorn(v, e)
  {
  }

  /** The new registry is one of those the operation may write. */
  predicate Rewritten(n: Host, commit: string, previous: Option<string>, digest: string) {
    && n.disk.operation == Some(commit) && n.disk.previous == previous && n.disk.digest == Some(digest)
    && (n.disk.active.Some? ==> n.disk.active.value.commit == commit)
  }

  predicate Serves(n: Host, status: Status, commit: string) {
    n.disk.status == Some(status) && n.disk.active.Some? && n.disk.active.value.commit == commit
  }

  lemma GiveUpFacts(h: Host, r: Registry, status: Status)
    requires HostOk(h) && HostOk(h.(disk := r.(status := Some(status))))
    ensures var (n, end) := GiveUp(h, r, status);
            && Plain(h, n) && HostOk(n) && !end.Ok?
            && (n.disk == h.disk || n.disk == r.(status := Some(status)))
  {
    SaveFacts(h, r.(status := Some(status)));
  }

  /** Saved and probed, or saved as bad, or not saved at all. */
  lemma EstablishFacts(h: Host, r: Registry, e: Entry, bad: Status)
    requires HostOk(h) && HostOk(h.(disk := r)) && !Established(Some(bad))
    ensures var (n, end) := Establish(h, r, e, bad);
            && Plain(h, n) && HostOk(n)
            && (n.disk == h.disk || n.disk == r || n.disk == r.(status := Some(bad)))
            && (end.Ok? ==> n.disk == r)
  {
    hide Later, Onward, Save, Probe, GiveUp;
    SaveFacts(h, r);
    var (h1, saved) := Save(h, r);
    if saved.Ok? {
      ProbeFacts(h1, e);
      var (h2, probed) := Probe(h1, e);
      PlainTrans(h, h1, h2);
      PlainTime(h1, h2);
      OnlyTimePassed(h1, h2);
      if probed.Failed? {
        GiveUpFacts(h2, r, bad);
        PlainTrans(h, h2, GiveUp(h2, r, bad).0);
      }
    } else if saved.Failed? {
      GiveUpFacts(h1, r, bad);
      PlainTrans(h, h1, GiveUp(h1, r, bad).0);
    }
  }

  lemma PlainTrans(h: Host, m: Host, n: Host)
    requires Plain(h, m) && Plain(m, n)
    ensures Plain(h, n)
  {
    OnwardTrans(h, m, n);
  }

  lemma PlainTime(h: Host, n: Host)
    requires Plain(h, n)
    ensures Since(h.world, n.world) && h.effects <= n.effects
  {
  }

  lemma OnlyTimePassed(h: Host, n: Host)
    requires HostOk(h) && Since(h.world, n.world) && n.disk == h.disk
    ensures HostOk(n)
  {
    SoundStays(h.world, n.world);
    if h.disk.active.Some? {
      EntryBornStays(h.world, n.world, h.disk.active.value);
    }
  }

  /** From the first checkpoint on, every registry written records this operation and its rollback target. */
  lemma BeginFacts(h: Host, c: Call, previous: Option<string>, recovering: bool, polls: nat, e: Option<Entry>)
    requires HostOk(h) && (e.Some? ==> Cleared(e.value, h.world))
    ensures var (n, end) := Begin(h, c, previous, recovering, polls);
            && Did(h, n, e) && HostOk(n)
            && (n.disk == h.disk || Rewritten(n, c.commit, previous, c.digest))
            && (end.Ok? ==> Rewritten(n, c.commit, previous, c.digest) && Serves(n, Healthy, c.commit))
  {
    hide Did, Plain, Start, Establish, Since, Cleared, GiveUp;
    var r := Opening(h.disk, c, previous, recovering);
    var (h1, saved) := Save(h, r);
    SaveFacts(h, r);
    DidNothing(h, h1, e);
    if saved.Ok? {
      var (h2, launch) := Start(h1, c.commit, c.digest, polls);
      StartFacts(h1, c.commit, c.digest, polls, e);
      PlainDid(h, h1, h2, e);
      if launch.NotRunning? {
        GiveUpFacts(h2, r, Unhealthy);
        DidPlain(h, h2, GiveUp(h2, r, Unhealthy).0, e);
      } else if launch.Running? {
        var probing := r.(active := Some(launch.entry), status := Some(Probing));
        EstablishFacts(h2, probing, launch.entry, Unhealthy);
        var (h3, end) := Establish(h2, probing, launch.entry, Unhealthy);
        DidPlain(h, h2, h3, e);
        if end.Ok? {
          TryFacts(h3, Verify(c.commit));
          var (h4, verified) := Try(h3, Verify(c.commit));
          DidPlain(h, h3, h4, e);
          SaveFacts(h4, probing.(status := Some(Healthy)));
          DidPlain(h, h4, Save(h4, probing.(status := Some(Healthy))).0, e);
        }
      }
    }
  }

  lemma DidNothing(h: Host, n: Host, e: Option<Entry>)
    requires Plain(h, n)
    ensures Did(h, n, e)
  {
  }
}
