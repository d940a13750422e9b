/**
 The managed release machine: a registry file with checkpoints, a process table, and the five commands
 that may be refused, fail or die between any two of their steps. What the operating system will show
 and what external calls will answer is given in advance and used up as a command asks.
 */
module DeploymentSpec {
  import opened Wrappers

  type Pid = nat

  datatype Ident = Ident(pid: Pid, birth: nat, executable: string)

  /** One boot of the host: births of processes to come are at or after `clock`. */
  datatype World = World(boot: nat, clock: nat, procs: map<Pid, Ident>)

  predicate SoundWorld(w: World) {
    forall p :: p in w.procs ==> w.procs[p].pid == p && w.procs[p].birth < w.clock
  }

  /** The same boot later on: processes may have ended, others may have been born. */
  predicate Later(w: World, v: World) {
    && v.boot == w.boot && v.clock >= w.clock && SoundWorld(v)
    && forall p :: p in v.procs ==> (p in w.procs && v.procs[p] == w.procs[p]) || v.procs[p].birth >= w.clock
  }

  predicate Alive(w: World, i: Ident) {
    i.pid in w.procs && w.procs[i.pid] == i
  }

  datatype Entry = Entry(commit: string, digest: string, boot: nat, supervisor: Ident, child: Ident)

  datatype Status =
    | Starting | Restarting | Probing | Unhealthy | Healthy
    | RollingBack | ProbingRollback | RollbackUnhealthy | RolledBack | Halted

  datatype Registry = Registry(
    active: Option<Entry>, previous: Option<string>, operation: Option<string>, rolledFrom: Option<string>,
    spec: Option<string>, digest: Option<string>, status: Option<Status>)

  const NO_REGISTRY := Registry(None, None, None, None, None, None, None)

  /** What an external call answers; `Died` is the end of this program before its next step. */
  datatype Answer = Yes | No | Lost | Died | Launched(supervisor: Pid, child: Ident)

  /** What an external call is about. */
  datatype Question =
    | Verify(commit: string)         // the files of a release
    | Write(registry: Registry)      // a checkpoint
    | Spawn(commit: string)
    | Report                         // the supervisor's report on its child
    | Shutdown(supervisor: Ident)    // the request to stop
    | Reach(entry: Entry)            // the health probe

  datatype Effect =
    | Started(commit: string, world: World, supervisor: Pid, child: Ident)   // into which world, and what it launched
    | Killed(target: Ident, victim: Ident)
    | Asked(question: Question, answer: Answer)

  datatype Host = Host(world: World, future: seq<World>, answers: seq<Answer>, disk: Registry, effects: seq<Effect>)

  datatype End = Ok | Failed | Dead

  /** The commit and the deployment spec a command is called with. */
  datatype Call = Call(commit: string, path: string, digest: string)

  // ----- the outside -----

  /** An inspection of the process table, some time after the last one. */
  function Look(h: Host): Host {
    if h.future != [] && Later(h.world, h.future[0]) then h.(world := h.future[0], future := h.future[1..]) else h
  }

  /** The record of an answered call; a launch is on record with what it launched. */
  function Record(q: Question, a: Answer, w: World): Effect {
    if q.Spawn? && a.Launched? then Started(q.commit, w, a.supervisor, a.child) else Asked(q, a)
  }

  function Ask(h: Host, q: Question): (Host, Answer) {
    if h.answers == [] then (h, Died)
    else (h.(answers := h.answers[1..], effects := h.effects + [Record(q, h.answers[0], h.world)]), h.answers[0])
  }

  /** An external call that only succeeds or fails. */
  function Try(h: Host, q: Question): (Host, End) {
    var (n, a) := Ask(h, q);
    (n, if a.Yes? then Ok else if a.Died? then Dead else Failed)
  }

  /** `_checkpoint`. */
  function Save(h: Host, r: Registry): (Host, End) {
    var (n, end) := Try(h, Write(r));
    (if end.Ok? then n.(disk := r) else n, end)
  }

  datatype Match = Live | Absent | Mismatch

  /** `_identity_matches`, where another process under the recorded PID is an error. */
  function Matches(h: Host, i: Ident): (Host, Match) {
    var n := Look(h);
    (n, if i.pid !in n.world.procs then Absent else if n.world.procs[i.pid] == i then Live else Mismatch)
  }

  /** `_wait_gone` with as many polls as its deadline allows, and one more. */
  function WaitGone(h: Host, pid: Pid, polls: nat): (Host, bool)
    decreases polls
  {
    var n := Look(h);
    if pid !in n.world.procs then (n, true)
    else if polls == 0 then (n, false)
    else WaitGone(n, pid, polls - 1)
  }

  /** `_force_kill`: identity check and signal as one step. */
  function ForceKill(h: Host, i: Ident): (Host, End) {
    var (n, m) := Matches(h, i);
    if m.Mismatch? then (n, Failed)
    else if m.Absent? then (n, Ok)
    else (n.(effects := n.effects + [Killed(i, n.world.procs[i.pid])]), Ok)
  }

  /** One process of `_stop_owned` that was found alive: wait, then kill. */
  function EndProcess(h: Host, i: Ident, polls: nat): (Host, End) {
    var (n, gone) := WaitGone(h, i.pid, polls);
    if gone then (n, Ok) else ForceKill(n, i)
  }

  /** `_stop_owned`. */
  function StopOwned(h: Host, supervisor: Ident, child: Ident, polls: nat): (Host, End) {
    var (h1, s) := Matches(h, supervisor);
    if s.Mismatch? then (h1, Failed)
    else
      var (h2, c) := Matches(h1, child);
      if c.Mismatch? then (h2, Failed)
      else if s.Absent? && c.Absent? then (h2, Ok)
      else
        var (h3, asked) := if s.Live? then Ask(h2, Shutdown(supervisor)) else (h2, Yes);
        if asked.Died? then (h3, Dead)
        else if asked.No? then (h3, Failed)
        else
          var (h4, ended) := if c.Live? then EndProcess(h3, child, polls) else (h3, Ok);
          if !ended.Ok? then (h4, ended)
          else
            var (h5, stopped) := if s.Live? then EndProcess(h4, supervisor, polls) else (h4, Ok);
            if !stopped.Ok? then (h5, stopped) else ConfirmGone(h5, supervisor, child, polls)
  }

  function ConfirmGone(h: Host, supervisor: Ident, child: Ident, polls: nat): (Host, End) {
    var (h1, childGone) := WaitGone(h, child.pid, polls);
    if !childGone then (h1, Failed)
    else
      var (h2, supervisorGone) := WaitGone(h1, supervisor.pid, polls);
      (h2, if supervisorGone then Ok else Failed)
  }

  // ----- _start -----

  datatype Launch = Running(entry: Entry) | NotRunning | LaunchDied

  function Start(h: Host, commit: string, digest: string, polls: nat): (Host, Launch) {
    var (h1, a) := Ask(h, Spawn(commit));
    if a.Died? then (h1, LaunchDied)
    else if !a.Launched? then (h1, NotRunning)
    else
      var h2 := Look(h1);
      if a.supervisor !in h2.world.procs then (h2, NotRunning)
      else Handshake(h2, commit, digest, h2.world.procs[a.supervisor], a.child, polls)
  }

  /** The supervisor's report: `Yes` is a good one, `Lost` a bad one, anything else none in time. */
  function Handshake(
      h: Host, commit: string, digest: string, supervisor: Ident, child: Ident, polls: nat): (Host, Launch) {
    var (h1, ready) := Ask(h, Report);
    if ready.Died? then (h1, LaunchDied)
    else if ready.Yes? then
      var (h2, m) := Matches(h1, child);
      if m.Live? then (h2, Running(Entry(commit, digest, h2.world.boot, supervisor, child)))
      else Discard(h2, supervisor, child, polls)
    else if ready.Lost? then Discard(h1, supervisor, child, polls)
    else
      var (h2, killed) := ForceKill(h1, supervisor);
      (h2, NotRunning)
  }

  /** A launch that reported a child but failed is stopped as far as possible. */
  function Discard(h: Host, supervisor: Ident, child: Ident, polls: nat): (Host, Launch) {
    var (n, end) := StopOwned(h, supervisor, child, polls);
    (n, if end.Dead? then LaunchDied else NotRunning)
  }

  /** `_probe`. */
  function Probe(h: Host, e: Entry): (Host, End) { Try(Look(h), Reach(e)) }

  // ----- deploy -----

  /** The entry belongs to the registry's deployment spec. */
  predicate ValidEntry(e: Entry, digest: string) { e.digest == digest }

  function Deploy(h: Host, c: Call, polls: nat): (Host, End) {
    if h.disk.active.None? then Begin(h, c, None, false, polls)
    else
      var e := h.disk.active.value;
      if !ValidEntry(e, if h.disk.digest.Some? then h.disk.digest.value else c.digest) then (h, Failed)
      else
        var (h1, verified) := Try(h, Verify(e.commit));
        if !verified.Ok? then (h1, verified)
        else if e.commit == c.commit then Redeploy(h1, e, c, polls)
        else if e.boot != h1.world.boot then Begin(h1, c, Some(e.commit), false, polls)
        else StopAndBegin(h1, e, c, Some(e.commit), false, polls)
  }

  function StopAndBegin(
      h: Host, e: Entry, c: Call, previous: Option<string>, recovering: bool, polls: nat): (Host, End) {
    var (n, stopped) := StopOwned(h, e.supervisor, e.child, polls);
    if stopped.Ok? then Begin(n, c, previous, recovering, polls) else (n, stopped)
  }

  /** The active commit again: reused when it answers, restarted when it does not. */
  function Redeploy(h: Host, e: Entry, c: Call, polls: nat): (Host, End) {
    if e.boot != h.world.boot then Begin(h, c, h.disk.previous, true, polls)
    else
      var (h1, s) := Matches(h, e.supervisor);
      if s.Mismatch? then (h1, Failed)
      else
        var (h2, k) := Matches(h1, e.child);
        if k.Mismatch? then (h2, Failed)
        else if s.Absent? && k.Absent? then Begin(h2, c, h.disk.previous, true, polls)
        else if !(s.Live? && k.Live?) then StopAndBegin(h2, e, c, h.disk.previous, true, polls)
        else
          var (h3, probed) := Probe(h2, e);
          if probed.Failed? then StopAndBegin(h3, e, c, h.disk.previous, true, polls) else (h3, probed)
  }

  function Opening(r: Registry, c: Call, previous: Option<string>, recovering: bool): Registry {
    r.(operation := Some(c.commit), active := None, previous := previous, spec := Some(c.path),
       digest := Some(c.digest), status := Some(if recovering then Restarting else Starting))
  }

  /** From the first checkpoint on. */
  function Begin(h: Host, c: Call, previous: Option<string>, recovering: bool, polls: nat): (Host, End) {
    var r := Opening(h.disk, c, previous, recovering);
    var (h1, saved) := Save(h, r);
    if !saved.Ok? then (h1, saved)
    else
      var (h2, launch) := Start(h1, c.commit, c.digest, polls);
      if launch.LaunchDied? then (h2, Dead)
      else if launch.NotRunning? then GiveUp(h2, r, Unhealthy)
      else
        var probing := r.(active := Some(launch.entry), status := Some(Probing));
        var (h3, end) := Establish(h2, probing, launch.entry, Unhealthy);
        if !end.Ok? then (h3, end)
        else
          var (h4, verified) := Try(h3, Verify(c.commit));
          if verified.Ok? then Save(h4, probing.(status := Some(Healthy))) else (h4, verified)
  }

  /** The exception path: one more checkpoint, and the error goes on. */
  function GiveUp(h: Host, r: Registry, status: Status): (Host, End) {
    var (n, saved) := Save(h, r.(status := Some(status)));
    (n, if saved.Dead? then Dead else Failed)
  }

  /** The checkpoint of a started entry and its probe; both under the same exception path. */
  function Establish(h: Host, r: Registry, e: Entry, bad: Status): (Host, End) {
    var (h1, saved) := Save(h, r);
    if saved.Dead? then (h1, Dead)
    else if saved.Failed? then GiveUp(h1, r, bad)
    else
      var (h2, probed) := Probe(h1, e);
      if probed.Failed? then GiveUp(h2, r, bad) else (h2, probed)
  }

  // ----- health, rollback, stop, recover -----

  /** `_assert_active`. */
  function AssertActive(h: Host, digest: string): (Host, End) {
    if h.disk.active.None? || !ValidEntry(h.disk.active.value, digest) then (h, Failed)
    else
      var (h1, s) := Matches(h, h.disk.active.value.supervisor);
      if !s.Live? then (h1, Failed)
      else
        var (h2, k) := Matches(h1, h1.disk.active.value.child);
        (h2, if k.Live? then Ok else Failed)
  }

  function Health(h: Host, c: Call): (Host, End) {
    if h.disk.operation != Some(c.commit) then (h, Failed)
    else
      var (h1, active) := AssertActive(h, c.digest);
      if !active.Ok? then (h1, active)
      else
        var e := h1.disk.active.value;
        var (h2, verified) := Try(h1, Verify(e.commit));
        if !verified.Ok? then (h2, verified)
        else
          var (h3, probed) := Probe(h2, e);
          if probed.Ok? then Save(h3, h3.disk.(status := Some(Healthy))) else (h3, probed)
  }

  function Rollback(h: Host, c: Call, polls: nat): (Host, End) {
    if h.disk.operation != Some(c.commit) || h.disk.digest != Some(c.digest) || h.disk.previous.None? then (h, Failed)
    else
      var (h1, verified) := Try(h, Verify(h.disk.previous.value));
      if !verified.Ok? then (h1, verified)
      else if h.disk.active.None? then Restore(h1, c, h.disk.previous.value, polls)
      else
        var e := h.disk.active.value;
        if !ValidEntry(e, c.digest) then (h1, Failed)
        else
          var (h2, stopped) := StopOwned(h1, e.supervisor, e.child, polls);
          if stopped.Ok? then Restore(h2, c, h.disk.previous.value, polls) else (h2, stopped)
  }

  function Restore(h: Host, c: Call, target: string, polls: nat): (Host, End) {
    var r := h.disk.(active := None, status := Some(RollingBack));
    var (h1, saved) := Save(h, r);
    if !saved.Ok? then (h1, saved)
    else
      var (h2, launch) := Start(h1, target, c.digest, polls);
      if launch.LaunchDied? then (h2, Dead)
      else if launch.NotRunning? then GiveUp(h2, r, RollbackUnhealthy)
      else
        var probing := r.(active := Some(launch.entry), status := Some(ProbingRollback));
        var (h3, end) := Establish(h2, probing, launch.entry, RollbackUnhealthy);
        if !end.Ok? then (h3, end)
        else
          Save(h3, probing.(previous := None, rolledFrom := Some(c.commit), spec := Some(c.path),
            status := Some(RolledBack)))
  }

  function Stop(h: Host, c: Call, polls: nat): (Host, End) {
    if h.disk.operation != Some(c.commit) then (h, Failed)
    else
      var (h1, active) := AssertActive(h, c.digest);
      if !active.Ok? then (h1, active)
      else
        var e := h1.disk.active.value;
        var (h2, stopped) := StopOwned(h1, e.supervisor, e.child, polls);
        if stopped.Ok? then Save(h2, h2.disk.(active := None, status := Some(Halted))) else (h2, stopped)
  }

  predicate Established(status: Option<Status>) {
    status == Some(Healthy) || status == Some(RolledBack)
  }

  /** Skipped unless the last command established its entry; then reused or restarted. */
  function Recover(h: Host, path: string, digest: string, polls: nat): (Host, End) {
    if !Established(h.disk.status) then (h, Ok)
    else if h.disk.spec != Some(path) || h.disk.digest != Some(digest) then (h, Failed)
    else if h.disk.active.None? || !ValidEntry(h.disk.active.value, digest) then (h, Failed)
    else
      var e := h.disk.active.value;
      var (h1, verified) := Try(h, Verify(e.commit));
      if !verified.Ok? then (h1, verified)
      else if e.boot != h1.world.boot then Restart(h1, e, polls)
      else
        var (h2, s) := Matches(h1, e.supervisor);
        if s.Mismatch? then (h2, Failed)
        else
          var (h3, k) := Matches(h2, e.child);
          if k.Mismatch? then (h3, Failed)
          else if s.Absent? && k.Absent? then Restart(h3, e, polls)
          else if !(s.Live? && k.Live?) then StopAndRestart(h3, e, polls)
          else
            var (h4, probed) := Probe(h3, e);
            if probed.Failed? then StopAndRestart(h4, e, polls) else (h4, probed)
  }

  function StopAndRestart(h: Host, e: Entry, polls: nat): (Host, End) {
    var (n, stopped) := StopOwned(h, e.supervisor, e.child, polls);
    if stopped.Ok? then Restart(n, e, polls) else (n, stopped)
  }

  function Restart(h: Host, e: Entry, polls: nat): (Host, End) {
    var (h1, launch) := Start(h, e.commit, e.digest, polls);
    if launch.LaunchDied? then (h1, Dead)
    else if launch.NotRunning? then (h1, Failed)
    else
      var restored := launch.entry;
      var r := h1.disk.(active := Some(restored));
      var (h2, saved) := Save(h1, r);
      if !saved.Ok? then (h2, saved)
      else
        var (h3, probed) := Probe(h2, restored);
        if probed.Dead? then (h3, Dead)
        else if probed.Failed? then
          var (h4, stopped) := StopOwned(h3, restored.supervisor, restored.child, polls);
          (h4, if stopped.Dead? then Dead else Failed)
        else
          var (h4, verified) := Try(h3, Verify(e.commit));
          if verified.Ok? then Save(h4, r) else (h4, verified)
  }
}
