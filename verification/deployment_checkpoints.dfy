/**
 The checkpoints of a deploy and of a rollback: which registries they try to write, in which order, and
 what each failure adds to them.
 */
module DeploymentCheckpoints {
  import opened Wrappers
  import opened DeploymentSpec
  import opened DeploymentFacts
  import opened DeploymentRuns
  import opened DeploymentAnswers

  // ----- the checkpoints among the effects -----

  predicate IsWrite(e: Effect) { e.Asked? && e.question.Write? }

  function Writes(effects: seq<Effect>): seq<Effect> {
    if effects == [] then []
    else
      var last := effects[|effects| - 1];
      Writes(effects[..|effects| - 1]) + if IsWrite(last) then [last] else []
  }

  lemma {:induction false} WritesAppend(a: seq<Effect>, b: seq<Effect>)
    ensures Writes(a + b) == Writes(a) + Writes(b)
    decreases |b|
  {
    if b == [] {
      assert a + b == a;
    } else {
      var n := |b| - 1;
      assert (a + b)[..|a + b| - 1] == a + b[..n];
      WritesAppend(a, b[..n]);
    }
  }

  lemma {:induction false} NoWrites(effects: seq<Effect>)
    requires forall i :: 0 <= i < |effects| ==> !IsWrite(effects[i])
    ensures Writes(effects) == []
  {
    if effects != [] { NoWrites(effects[..|effects| - 1]); }
  }

  /** The checkpoints tried between two moments. */
  predicate Wrote(h: Host, n: Host, ws: seq<Effect>) {
    h.effects <= n.effects && Writes(n.effects[|h.effects|..]) == ws
  }

  lemma WroteTrans(h: Host, m: Host, n: Host, a: seq<Effect>, b: seq<Effect>)
    requires Wrote(h, m, a) && Wrote(m, n, b)
    ensures Wrote(h, n, a + b)
  {
    assert n.effects[|h.effects|..] == m.effects[|h.effects|..] + n.effects[|m.effects|..];
    WritesAppend(m.effects[|h.effects|..], n.effects[|m.effects|..]);
  }

  lemma WroteNothing(h: Host, n: Host)
    requires h.effects <= n.effects && forall i :: |h.effects| <= i < |n.effects| ==> !IsWrite(n.effects[i])
    ensures Wrote(h, n, [])
  {
    NoWrites(n.effects[|h.effects|..]);
  }

  lemma QuietWrites(h: Host, n: Host, a: Ident, b: Ident)
    requires Quiet(h, n, a, b)
    ensures Wrote(h, n, [])
  {
    QuietAsks(h, n, a, b);
    WroteNothing(h, n);
  }

  /** One call to the outside. */
  lemma WroteOne(h: Host, n: Host, e: Effect)
    requires n.effects == h.effects + [e]
    ensures Wrote(h, n, if IsWrite(e) then [e] else [])
  {
    assert n.effects[|h.effects|..] == [e];
    assert [e][..0] == [];
    assert Writes([e]) == Writes([]) + if IsWrite(e) then [e] else [];
  }

  lemma StillNothing(h: Host, m: Host, n: Host)
    requires Wrote(h, m, []) && Wrote(m, n, [])
    ensures Wrote(h, n, [])
  {
    var none: seq<Effect> := [];
    WroteTrans(h, m, n, none, none);
    assert none + none == none;
  }

  lemma SaveWrites(h: Host, r: Registry)
    ensures var (n, end) := Save(h, r);
            Wrote(h, n, if h.answers == [] then [] else [Asked(DeploymentSpec.Write(r), h.answers[0])])
  {
    SaveAsks(h, r);
    if h.answers == [] {
      WroteNothing(h, h);
    } else {
      WroteOne(h, Save(h, r).0, Asked(DeploymentSpec.Write(r), h.answers[0]));
    }
  }

  /** A call that is no checkpoint. */
  lemma TryWrites(h: Host, q: Question)
    requires q.Verify? || q.Reach?
    ensures Wrote(h, Try(h, q).0, [])
  {
    TryAsks(h, q);
    if h.answers == [] {
      WroteNothing(h, h);
    } else {
      WroteOne(h, Try(h, q).0, Asked(q, h.answers[0]));
    }
  }

  lemma ProbeWrites(h: Host, e: Entry)
    ensures Wrote(h, Probe(h, e).0, [])
  {
    LookFacts(h);
    TryWrites(Look(h), Reach(e));
  }

  lemma StartWrites(h: Host, commit: string, digest: string, polls: nat)
    requires SoundWorld(h.world)
    ensures Wrote(h, Start(h, commit, digest, polls).0, [])
  {
    hide Start;
    StartAsks(h, commit, digest, polls);
    StartFacts(h, commit, digest, polls, None);
    WroteNothing(h, Start(h, commit, digest, polls).0);
  }

  // ----- the story of a launch -----

  predicate Writing(e: Effect, r: Registry) { e.Asked? && e.question == DeploymentSpec.Write(r) }

  /** An entry was launched and written down as being probed; then it is written down as bad or as good. */
  predicate LaunchStory(ws: seq<Effect>, probing: Registry, bad: Registry, good: Registry, end: End) {
    && ws != [] && Writing(ws[0], probing)
    && match |ws|
       case 1 => !end.Ok? && (ws[0].answer.Yes? || end.Dead?)
       case 2 =>
         || (Writing(ws[1], bad) && !end.Ok?)
         || (Writing(ws[1], good) && ws[0].answer.Yes? && (end.Ok? <==> ws[1].answer.Yes?))
       case _ => false
  }

  function Marked(r: Registry, status: Status): Registry { r.(status := Some(status)) }

  datatype Chain = Forward | Back(call: Call)

  function ProbesAs(k: Chain): Status { if k.Forward? then Probing else ProbingRollback }

  function BadAs(k: Chain): Status { if k.Forward? then Unhealthy else RollbackUnhealthy }

  /** What is written in the end. */
  function Good(k: Chain, r: Registry): Registry {
    match k
    case Forward => Marked(r, Healthy)
    case Back(c) =>
      r.(previous := None, rolledFrom := Some(c.commit), spec := Some(c.path), status := Some(RolledBack))
  }

  /** The opening is written first; a launch that failed is written down as bad, one that ran is probed. */
  ghost predicate Story(ws: seq<Effect>, opening: Registry, k: Chain, end: End) {
    || (ws == [] && end.Dead?)
    || (&& ws != [] && Writing(ws[0], opening)
        && (ws[0].answer.Yes? || |ws| == 1)
        && (|| (|ws| == 1 && !end.Ok? && (ws[0].answer.Yes? ==> end.Dead?))
            || (|ws| == 2 && Writing(ws[1], Marked(opening, BadAs(k))) && !end.Ok?)
            || exists e: Entry :: LaunchTale(ws[1..], opening, e, k, end)))
  }

  predicate LaunchTale(ws: seq<Effect>, opening: Registry, e: Entry, k: Chain, end: End) {
    var p := opening.(active := Some(e), status := Some(ProbesAs(k)));
    LaunchStory(ws, p, Marked(p, BadAs(k)), Good(k, p), end)
  }

  // ----- how it is told -----

  /** Up to the probe of a launched entry: when its checkpoint or its probe fails, one more calls it bad. */
  predicate ProbeStory(ws: seq<Effect>, r: Registry, bad: Status, end: End) {
    if ws == [] then end.Dead?
    else
      && Writing(ws[0], r)
      && match |ws|
         case 1 => if ws[0].answer.Yes? then !end.Failed? else end.Dead?
         case 2 => Writing(ws[1], Marked(r, bad)) && !end.Ok?
         case _ => false
  }

  lemma GiveUpWrites(h: Host, m: Host, r: Registry, bad: Status, ws: seq<Effect>)
    requires Wrote(h, m, ws)
    ensures var (n, end) := GiveUp(m, r, bad);
            && !end.Ok?
            && if m.answers == [] then Wrote(h, n, ws) && end.Dead?
               else Wrote(h, n, ws + [Asked(DeploymentSpec.Write(Marked(r, bad)), m.answers[0])])
  {
    hide Save, Wrote;
    var worse := Marked(r, bad);
    SaveWrites(m, worse);
    SaveAsks(m, worse);
    var tail := if m.answers == [] then [] else [Asked(DeploymentSpec.Write(worse), m.answers[0])];
    WroteTrans(h, m, Save(m, worse).0, ws, tail);
    assert ws + [] == ws;
  }

  lemma EstablishWrites(h: Host, r: Registry, e: Entry, bad: Status) returns (ws: seq<Effect>)
    requires r.active == Some(e)
    ensures var (n, end) := Establish(h, r, e, bad); Wrote(h, n, ws) && ProbeStory(ws, r, bad, end)
  {
    hide Save, Probe, GiveUp, Wrote;
    SaveWrites(h, r);
    SaveAsks(h, r);
    var (h1, saved) := Save(h, r);
    ws := if h.answers == [] then [] else [Asked(DeploymentSpec.Write(r), h.answers[0])];
    var last := h1;
    if saved.Ok? {
      ProbeWrites(h1, e);
      ProbeAsks(h1, e);
      last := Probe(h1, e).0;
      WroteTrans(h, h1, last, ws, []);
      assert ws + [] == ws;
    }
    if saved.Failed? || (saved.Ok? && Probe(h1, e).1.Failed?) {
      GiveUpWrites(h, last, r, bad, ws);
      if last.answers != [] {
        ws := ws + [Asked(DeploymentSpec.Write(Marked(r, bad)), last.answers[0])];
      }
    }
  }

  /** Opening and launch. */
  lemma LaunchWrites(h: Host, r: Registry, commit: string, digest: string, polls: nat)
    requires SoundWorld(h.world)
    ensures var (h1, saved) := Save(h, r);
            if h.answers == [] then Wrote(h, h1, []) && saved.Dead?
            else
              var first := [Asked(DeploymentSpec.Write(r), h.answers[0])];
              && Wrote(h, h1, first) && (saved.Ok? <==> h.answers[0].Yes?)
              && Wrote(h, Start(h1, commit, digest, polls).0, first)
  {
    hide Save, Start, Wrote;
    SaveWrites(h, r);
    SaveAsks(h, r);
    var (h1, saved) := Save(h, r);
    StartWrites(h1, commit, digest, polls);
    if h.answers != [] {
      var first := [Asked(DeploymentSpec.Write(r), h.answers[0])];
      WroteTrans(h, h1, Start(h1, commit, digest, polls).0, first, []);
      assert first + [] == first;
    }
  }

  /** The release is verified once more, and the entry is written down as healthy. */
  lemma DeployTale(h: Host, h2: Host, r: Registry, e: Entry, commit: string, first: Effect)
      returns (ws: seq<Effect>)
    requires Wrote(h, h2, [first]) && Writing(first, r) && first.answer.Yes?
    ensures var p := r.(active := Some(e), status := Some(Probing));
            var (h3, established) := Establish(h2, p, e, Unhealthy);
            var (h4, verified) := Try(h3, Verify(commit));
            var (n, end) := if !established.Ok? then (h3, established)
                            else if verified.Ok? then Save(h4, p.(status := Some(Healthy))) else (h4, verified);
            Wrote(h, n, ws) && Story(ws, r, Forward, end)
  {
    hide Save, Try, Establish, Wrote;
    var p := r.(active := Some(e), status := Some(Probing));
    var told := EstablishWrites(h2, p, e, Unhealthy);
    var (h3, established) := Establish(h2, p, e, Unhealthy);
    WroteTrans(h, h2, h3, [first], told);
    ws := [first] + told;
    var after := established;
    if established.Ok? {
      TryWrites(h3, Verify(commit));
      TryAsks(h3, Verify(commit));
      var (h4, verified) := Try(h3, Verify(commit));
      WroteTrans(h, h3, h4, ws, []);
      assert ws + [] == ws;
      after := verified;
      if verified.Ok? {
        var good := p.(status := Some(Healthy));
        SaveWrites(h4, good);
        SaveAsks(h4, good);
        var tail := if h4.answers == [] then [] else [Asked(DeploymentSpec.Write(good), h4.answers[0])];
        WroteTrans(h, h4, Save(h4, good).0, ws, tail);
        ws := ws + tail;
        after := Save(h4, good).1;
      }
    }
    assert ws == [first] + ws[1..];
    assert LaunchTale(ws[1..], r, e, Forward, after) || ws[1..] == [];
  }

  /** The entry is written down as rolled back. */
  lemma RollbackTale(h: Host, h2: Host, r: Registry, e: Entry, c: Call, first: Effect) returns (ws: seq<Effect>)
    requires Wrote(h, h2, [first]) && Writing(first, r) && first.answer.Yes?
    ensures var p := r.(active := Some(e), status := Some(ProbingRollback));
            var (h3, established) := Establish(h2, p, e, RollbackUnhealthy);
            var (n, end) := if !established.Ok? then (h3, established) else Save(h3, Good(Back(c), p));
            Wrote(h, n, ws) && Story(ws, r, Back(c), end)
  {
    hide Save, Establish, Wrote;
    var p := r.(active := Some(e), status := Some(ProbingRollback));
    var told := EstablishWrites(h2, p, e, RollbackUnhealthy);
    var (h3, established) := Establish(h2, p, e, RollbackUnhealthy);
    WroteTrans(h, h2, h3, [first], told);
    ws := [first] + told;
    var after := established;
    if established.Ok? {
      SaveWrites(h3, Good(Back(c), p));
      SaveAsks(h3, Good(Back(c), p));
      var tail := if h3.answers == [] then [] else [Asked(DeploymentSpec.Write(Good(Back(c), p)), h3.answers[0])];
      WroteTrans(h, h3, Save(h3, Good(Back(c), p)).0, ws, tail);
      ws := ws + tail;
      after := Save(h3, Good(Back(c), p)).1;
    }
    assert ws == [first] + ws[1..];
    assert LaunchTale(ws[1..], r, e, Back(c), after) || ws[1..] == [];
  }

  lemma BeginWrites(h: Host, c: Call, previous: Option<string>, recovering: bool, polls: nat)
      returns (ws: seq<Effect>)
    requires SoundWorld(h.world)
    ensures var (n, end) := Begin(h, c, previous, recovering, polls);
            && Wrote(h, n, ws)
            && Story(ws, Opening(h.disk, c, previous, recovering), Forward, end)
  {
    hide Save, Start, Try, Establish, GiveUp, Wrote, LaunchTale;
    var r := Opening(h.disk, c, previous, recovering);
    LaunchWrites(h, r, c.commit, c.digest, polls);
    SaveAsks(h, r);
    var (h1, saved) := Save(h, r);
    ws := if h.answers == [] then [] else [Asked(DeploymentSpec.Write(r), h.answers[0])];
    if saved.Ok? {
      var (h2, launch) := Start(h1, c.commit, c.digest, polls);
      if launch.NotRunning? {
        GiveUpWrites(h, h2, r, Unhealthy, ws);
        if h2.answers != [] {
          ws := ws + [Asked(DeploymentSpec.Write(Marked(r, Unhealthy)), h2.answers[0])];
        }
      } else if launch.Running? {
        ws := DeployTale(h, h2, r, launch.entry, c.commit, ws[0]);
      }
    }
  }

  lemma RestoreWrites(h: Host, c: Call, target: string, polls: nat) returns (ws: seq<Effect>)
    requires SoundWorld(h.world)
    ensures var (n, end) := Restore(h, c, target, polls);
            && Wrote(h, n, ws)
            && Story(ws, h.disk.(active := None, status := Some(RollingBack)), Back(c), end)
  {
    hide Save, Start, Establish, GiveUp, Wrote, LaunchTale;
    var r := h.disk.(active := None, status := Some(RollingBack));
    LaunchWrites(h, r, target, c.digest, polls);
    SaveAsks(h, r);
    var (h1, saved) := Save(h, r);
    ws := if h.answers == [] then [] else [Asked(DeploymentSpec.Write(r), h.answers[0])];
    if saved.Ok? {
      var (h2, launch) := Start(h1, target, c.digest, polls);
      if launch.NotRunning? {
        GiveUpWrites(h, h2, r, RollbackUnhealthy, ws);
        if h2.answers != [] {
          ws := ws + [Asked(DeploymentSpec.Write(Marked(r, RollbackUnhealthy)), h2.answers[0])];
        }
      } else if launch.Running? {
        ws := RollbackTale(h, h2, r, launch.entry, c, ws[0]);
      }
    }
  }

  // ----- the two commands -----

  /** What a deploy opens with: which target it keeps, and whether it restarts the active commit. */
  function DeployOpens(r: Registry, c: Call): Registry {
    var again := r.active.Some? && r.active.value.commit == c.commit;
    Registry(
      None,
      if r.active.None? then None else if again then r.previous else Some(r.active.value.commit),
      Some(c.commit), r.rolledFrom, Some(c.path), Some(c.digest), Some(if again then Restarting else Starting))
  }

  /** The checkpoints of a command which has one chain of them at most. */
  ghost predicate Chained(h: Host, n: Host, opening: Registry, k: Chain, end: End) {
    exists ws :: Wrote(h, n, ws) && (ws == [] || Story(ws, opening, k, end))
  }

  lemma ChainedAfter(h: Host, m: Host, n: Host, ws: seq<Effect>, opening: Registry, k: Chain, end: End)
    requires Wrote(h, m, []) && Wrote(m, n, ws) && (ws == [] || Story(ws, opening, k, end))
    ensures Chained(h, n, opening, k, end)
  {
    hide Wrote, Story;
    WroteTrans(h, m, n, [], ws);
    assert [] + ws == ws;
  }

  lemma StopAndBeginWrites(
      h: Host, m: Host, e: Entry, c: Call, previous: Option<string>, recovering: bool, polls: nat)
    requires SoundWorld(m.world) && Wrote(h, m, []) && m.disk == h.disk
    ensures var (n, end) := StopAndBegin(m, e, c, previous, recovering, polls);
            Chained(h, n, Opening(h.disk, c, previous, recovering), Forward, end)
  {
    hide StopOwned, Begin, Wrote, Story, Quiet, Opening;
    StopOwnedFacts(m, e.supervisor, e.child, polls);
    var (k, stopped) := StopOwned(m, e.supervisor, e.child, polls);
    QuietWrites(m, k, e.supervisor, e.child);
    QuietPrelude(m, k, e.supervisor, e.child);
    StillNothing(h, m, k);
    var r := Opening(h.disk, c, previous, recovering);
    if stopped.Ok? {
      var ws := BeginWrites(k, c, previous, recovering, polls);
      ChainedAfter(h, k, Begin(k, c, previous, recovering, polls).0, ws, r, Forward,
        Begin(k, c, previous, recovering, polls).1);
    } else {
      ChainedAfter(h, m, k, [], r, Forward, stopped);
    }
  }

  lemma BeginChained(h: Host, m: Host, c: Call, previous: Option<string>, recovering: bool, polls: nat)
    requires SoundWorld(m.world) && Wrote(h, m, []) && m.disk == h.disk
    ensures var (n, end) := Begin(m, c, previous, recovering, polls);
            Chained(h, n, Opening(h.disk, c, previous, recovering), Forward, end)
  {
    hide Begin, Wrote, Story, Opening;
    var ws := BeginWrites(m, c, previous, recovering, polls);
    var (n, end) := Begin(m, c, previous, recovering, polls);
    ChainedAfter(h, m, n, ws, Opening(h.disk, c, previous, recovering), Forward, end);
  }

  /** Nothing was written, which is a chain too. */
  lemma Unchained(h: Host, n: Host, opening: Registry, k: Chain, end: End)
    requires Wrote(h, n, [])
    ensures Chained(h, n, opening, k, end)
  {
    hide Wrote;
  }

  /** An inspection of the recorded process. */
  lemma InspectionWrites(h: Host, m: Host, i: Ident)
    requires Wrote(h, m, []) && m.disk == h.disk && SoundWorld(m.world)
    ensures var n := Matches(m, i).0; Wrote(h, n, []) && n.disk == h.disk && SoundWorld(n.world)
  {
    hide Wrote, Quiet, Matches;
    MatchesFacts(m, i, i, i);
    var n := Matches(m, i).0;
    QuietWrites(m, n, i, i);
    QuietPrelude(m, n, i, i);
    StillNothing(h, m, n);
  }

  lemma RedeployWrites(h: Host, m: Host, e: Entry, c: Call, polls: nat)
    requires SoundWorld(m.world) && Wrote(h, m, []) && m.disk == h.disk
    ensures var (n, end) := Redeploy(m, e, c, polls);
            Chained(h, n, Opening(h.disk, c, h.disk.previous, true), Forward, end)
  {
    hide Begin, StopAndBegin, Matches, Probe, Wrote, Story, Opening, Chained;
    var r := Opening(h.disk, c, h.disk.previous, true);
    if e.boot != m.world.boot {
      BeginChained(h, m, c, m.disk.previous, true, polls);
    } else {
      var (h1, s) := Matches(m, e.supervisor);
      InspectionWrites(h, m, e.supervisor);
      if s.Mismatch? {
        Unchained(h, h1, r, Forward, Failed);
      } else {
        var (h2, k) := Matches(h1, e.child);
        InspectionWrites(h, h1, e.child);
        if k.Mismatch? {
          Unchained(h, h2, r, Forward, Failed);
        } else if s.Absent? && k.Absent? {
          BeginChained(h, h2, c, m.disk.previous, true, polls);
        } else if !(s.Live? && k.Live?) {
          StopAndBeginWrites(h, h2, e, c, m.disk.previous, true, polls);
        } else {
          var (h3, probed) := Probe(h2, e);
          ProbeWrites(h2, e);
          ProbeAsks(h2, e);
          PlainTime(h2, h3);
          StillNothing(h, h2, h3);
          if probed.Failed? {
            PlainPrelude(h2, h3);
            StopAndBeginWrites(h, h3, e, c, m.disk.previous, true, polls);
          } else {
            Unchained(h, h3, r, Forward, probed);
          }
        }
      }
    }
  }

  /**
   All that a deploy ever writes is one chain of checkpoints. It opens with the operation, without an active
   entry and with the commit that was active before as its rollback target (the old target when the active
   commit is deployed again, none when nothing was active). A launch that failed is then written down as
   unhealthy; one that ran is written down as being probed, and after that as unhealthy when that checkpoint
   or the probe failed, or else as healthy. Only the program's death cuts the chain short, or a release that
   no longer verifies.
   */
  lemma DeployCheckpoints(h: Host, c: Call, polls: nat)
    requires HostOk(h)
    ensures var (n, end) := Deploy(h, c, polls); Chained(h, n, DeployOpens(h.disk, c), Forward, end)
  {
    hide Begin, StopAndBegin, Redeploy, Wrote, Story, Chained, Plain;
    WroteNothing(h, h);
    if h.disk.active.None? {
      BeginChained(h, h, c, None, false, polls);
    } else {
      var e := h.disk.active.value;
      TryAsks(h, Verify(e.commit));
      TryWrites(h, Verify(e.commit));
      var (h1, verified) := Try(h, Verify(e.commit));
      if !verified.Ok? {
        Unchained(h, h1, DeployOpens(h.disk, c), Forward, verified);
      } else if e.commit == c.commit {
        RedeployWrites(h, h1, e, c, polls);
      } else if e.boot != h1.world.boot {
        BeginChained(h, h1, c, Some(e.commit), false, polls);
      } else {
        StopAndBeginWrites(h, h1, e, c, Some(e.commit), false, polls);
      }
      Unchained(h, h, DeployOpens(h.disk, c), Forward, Failed);
    }
  }

  /**
   A rollback likewise: it opens without an active entry, everything else as it was, and only its last
   checkpoint takes the target away and says what was rolled back.
   */
  lemma RollbackCheckpoints(h: Host, c: Call, polls: nat)
    requires HostOk(h)
    ensures var (n, end) := Rollback(h, c, polls);
            Chained(h, n, h.disk.(active := None, status := Some(RollingBack)), Back(c), end)
  {
    hide Restore, StopOwned, Wrote, Story, Chained, Plain, Quiet;
    var r := h.disk.(active := None, status := Some(RollingBack));
    WroteNothing(h, h);
    Unchained(h, h, r, Back(c), Failed);
    if h.disk.operation == Some(c.commit) && h.disk.digest == Some(c.digest) && h.disk.previous.Some? {
      var target := h.disk.previous.value;
      TryAsks(h, Verify(target));
      TryWrites(h, Verify(target));
      var (h1, verified) := Try(h, Verify(target));
      Unchained(h, h1, r, Back(c), verified);
      Unchained(h, h1, r, Back(c), Failed);
      if verified.Ok? && h.disk.active.None? {
        RestoreChained(h, h1, c, target, polls);
      } else if verified.Ok? && ValidEntry(h.disk.active.value, c.digest) {
        var e := h.disk.active.value;
        StopOwnedFacts(h1, e.supervisor, e.child, polls);
        var (h2, stopped) := StopOwned(h1, e.supervisor, e.child, polls);
        QuietWrites(h1, h2, e.supervisor, e.child);
        QuietPrelude(h1, h2, e.supervisor, e.child);
        StillNothing(h, h1, h2);
        Unchained(h, h2, r, Back(c), stopped);
        if stopped.Ok? { RestoreChained(h, h2, c, target, polls); }
      }
    }
  }

  lemma RestoreChained(h: Host, m: Host, c: Call, target: string, polls: nat)
    requires SoundWorld(m.world) && Wrote(h, m, []) && m.disk == h.disk
    ensures var (n, end) := Restore(m, c, target, polls);
            Chained(h, n, h.disk.(active := None, status := Some(RollingBack)), Back(c), end)
  {
    hide Restore, Wrote, Story;
    var ws := RestoreWrites(m, c, target, polls);
    var (n, end) := Restore(m, c, target, polls);
    ChainedAfter(h, m, n, ws, h.disk.(active := None, status := Some(RollingBack)), Back(c), end);
  }
}
