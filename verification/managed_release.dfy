/**
 The managed release commands as the program runs them: the registry file, the process table and the
 record of launches and kills change step by step. Each command does exactly what `DeploymentSpec` says.
 */
module ManagedRelease {
  import opened Wrappers
  import opened DeploymentSpec

  class Machine {
    var world: World
    var future: seq<World>
    var answers: seq<Answer>
    var disk: Registry
    var effects: seq<Effect>

    /** Polls a stop deadline admits. */
    const polls: nat

    function Value(): Host
      reads this
    {
      Host(world, future, answers, disk, effects)
    }

    constructor (h: Host, polls: nat)
      ensures Value() == h && this.polls == polls
    {
      world, future, answers, disk, effects := h.world, h.future, h.answers, h.disk, h.effects;
      this.polls := polls;
    }

    // ----- the outside -----

    method Look()
      modifies this`world, this`future
      ensures Value() == DeploymentSpec.Look(old(Value()))
    {
      if future != [] && Later(world, future[0]) {
        world, future := future[0], future[1..];
      }
    }

    method Ask(q: Question) returns (a: Answer)
      modifies this`answers, this`effects
      ensures (Value(), a) == DeploymentSpec.Ask(old(Value()), q)
    {
      if answers == [] { return Died; }
      a := answers[0];
      answers := answers[1..];
      if q.Spawn? && a.Launched? {
        effects := effects + [Started(q.commit, world, a.supervisor, a.child)];
      } else {
        effects := effects + [Asked(q, a)];
      }
    }

    method Attempt(q: Question) returns (end: End)
      modifies this`answers, this`effects
      ensures (Value(), end) == Try(old(Value()), q)
    {
      var a := Ask(q);
      end := if a.Yes? then Ok else if a.Died? then Dead else Failed;
    }

    /** `_checkpoint`. */
    method Checkpoint(registry: Registry) returns (end: End)
      modifies this`answers, this`effects, this`disk
      ensures (Value(), end) == Save(old(Value()), registry)
    {
      end := Attempt(Write(registry));
      if end.Ok? { disk := registry; }
    }

    method IdentityMatches(i: Ident) returns (m: Match)
      modifies this`world, this`future
      ensures (Value(), m) == Matches(old(Value()), i)
    {
      Look();
      m := if i.pid !in world.procs then Absent else if world.procs[i.pid] == i then Live else Mismatch;
    }

    method WaitGone(pid: Pid) returns (gone: bool)
      modifies this`world, this`future
      ensures (Value(), gone) == DeploymentSpec.WaitGone(old(Value()), pid, polls)
    {
      hide Later;
      var left: nat := polls;
      while left > 0
        invariant left <= polls
        invariant DeploymentSpec.WaitGone(Value(), pid, left) == DeploymentSpec.WaitGone(old(Value()), pid, polls)
        invariant answers == old(answers) && disk == old(disk) && effects == old(effects)
      {
        Look();
        if pid !in world.procs { return true; }
        left := left - 1;
      }
      Look();
      gone := pid !in world.procs;
    }

    method ForceKill(i: Ident) returns (end: End)
      modifies this`world, this`future, this`effects
      ensures (Value(), end) == DeploymentSpec.ForceKill(old(Value()), i)
    {
      var m := IdentityMatches(i);
      if m.Mismatch? { return Failed; }
      if m.Live? { effects := effects + [Killed(i, world.procs[i.pid])]; }
      end := Ok;
    }

    method EndProcess(i: Ident) returns (end: End)
      modifies this`world, this`future, this`effects
      ensures (Value(), end) == DeploymentSpec.EndProcess(old(Value()), i, polls)
    {
      hide DeploymentSpec.WaitGone, DeploymentSpec.ForceKill;
      var gone := WaitGone(i.pid);
      if gone { return Ok; }
      end := ForceKill(i);
    }

    /** `_stop_owned`. */
    method StopOwned(supervisor: Ident, child: Ident) returns (end: End)
      modifies this`world, this`future, this`answers, this`effects
      ensures (Value(), end) == DeploymentSpec.StopOwned(old(Value()), supervisor, child, polls)
    {
      hide Matches, DeploymentSpec.Ask, DeploymentSpec.EndProcess, DeploymentSpec.WaitGone;
      var supervisorLive := IdentityMatches(supervisor);
      if supervisorLive.Mismatch? { return Failed; }
      var childLive := IdentityMatches(child);
      if childLive.Mismatch? { return Failed; }
      if supervisorLive.Absent? && childLive.Absent? { return Ok; }
      if supervisorLive.Live? {
        var reply := Ask(Shutdown(supervisor));
        if reply.Died? { return Dead; }
        if reply.No? { return Failed; }
      }
      if childLive.Live? {
        end := EndProcess(child);
        if !end.Ok? { return; }
      }
      if supervisorLive.Live? {
        end := EndProcess(supervisor);
        if !end.Ok? { return; }
      }
      var childGone := WaitGone(child.pid);
      if !childGone { return Failed; }
      var supervisorGone := WaitGone(supervisor.pid);
      end := if supervisorGone then Ok else Failed;
    }

    method Probe(e: Entry) returns (end: End)
      modifies this`world, this`future, this`answers, this`effects
      ensures (Value(), end) == DeploymentSpec.Probe(old(Value()), e)
    {
      Look();
      end := Attempt(Reach(e));
    }

    // ----- _start -----

    method Start(commit: string, digest: string) returns (launch: Launch)
      modifies this`world, this`future, this`answers, this`effects
      ensures (Value(), launch) == DeploymentSpec.Start(old(Value()), commit, digest, polls)
    {
      hide DeploymentSpec.Handshake, Later;
      var a := Ask(Spawn(commit));
      if a.Died? { return LaunchDied; }
      if !a.Launched? { return NotRunning; }
      Look();
      if a.supervisor !in world.procs { return NotRunning; }
      launch := Handshake(commit, digest, world.procs[a.supervisor], a.child);
    }

    method Handshake(commit: string, digest: string, supervisor: Ident, child: Ident) returns (launch: Launch)
      modifies this`world, this`future, this`answers, this`effects
      ensures (Value(), launch) == DeploymentSpec.Handshake(old(Value()), commit, digest, supervisor, child, polls)
    {
      hide Matches, DeploymentSpec.Ask, DeploymentSpec.StopOwned, DeploymentSpec.ForceKill;
      var ready := Ask(Report);
      if ready.Died? { return LaunchDied; }
      if !ready.Yes? && !ready.Lost? {
        var killed := ForceKill(supervisor);
        return NotRunning;
      }
      if ready.Yes? {
        var m := IdentityMatches(child);
        if m.Live? { return Running(Entry(commit, digest, world.boot, supervisor, child)); }
      }
      var end := StopOwned(supervisor, child);
      launch := if end.Dead? then LaunchDied else NotRunning;
    }

    // ----- deploy -----

    method Deploy(c: Call) returns (end: End)
      modifies this
      ensures (Value(), end) == DeploymentSpec.Deploy(old(Value()), c, polls)
    {
      hide DeploymentSpec.Begin, DeploymentSpec.StopOwned, DeploymentSpec.Probe, Matches, Try;
      var previous: Option<string> := None;
      var recovering := false;
      if disk.active.Some? {
        var e := disk.active.value;
        if !ValidEntry(e, if disk.digest.Some? then disk.digest.value else c.digest) { return Failed; }
        end := Attempt(Verify(e.commit));
        if !end.Ok? { return; }
        var sameBoot := e.boot == world.boot;
        var stops := sameBoot;
        previous := Some(e.commit);
        if e.commit == c.commit {
          previous := disk.previous;
          recovering := true;
          if sameBoot {
            var supervisorLive := IdentityMatches(e.supervisor);
            if supervisorLive.Mismatch? { return Failed; }
            var childLive := IdentityMatches(e.child);
            if childLive.Mismatch? { return Failed; }
            if supervisorLive.Live? && childLive.Live? {
              end := Probe(e);
              if !end.Failed? { return; }
            }
            stops := supervisorLive.Live? || childLive.Live?;
          }
        }
        if stops {
          end := StopOwned(e.supervisor, e.child);
          if !end.Ok? { return; }
        }
      }
      end := Begin(c, previous, recovering);
    }

    method Begin(c: Call, previous: Option<string>, recovering: bool) returns (end: End)
      modifies this
      ensures (Value(), end) == DeploymentSpec.Begin(old(Value()), c, previous, recovering, polls)
    {
      hide DeploymentSpec.Start, DeploymentSpec.Establish, Save, Try;
      var registry := disk.(operation := Some(c.commit), active := None, previous := previous,
                            spec := Some(c.path), digest := Some(c.digest),
                            status := Some(if recovering then Restarting else Starting));
      end := Checkpoint(registry);
      if !end.Ok? { return; }
      var launch := Start(c.commit, c.digest);
      if launch.LaunchDied? { return Dead; }
      if launch.NotRunning? {
        end := GiveUp(registry, Unhealthy);
        return;
      }
      registry := registry.(active := Some(launch.entry), status := Some(Probing));
      end := Establish(registry, launch.entry, Unhealthy);
      if !end.Ok? { return; }
      end := Attempt(Verify(c.commit));
      if !end.Ok? { return; }
      end := Checkpoint(registry.(status := Some(Healthy)));
    }

    method GiveUp(registry: Registry, status: Status) returns (end: End)
      modifies this`answers, this`effects, this`disk
      ensures (Value(), end) == DeploymentSpec.GiveUp(old(Value()), registry, status)
    {
      var saved := Checkpoint(registry.(status := Some(status)));
      end := if saved.Dead? then Dead else Failed;
    }

    method Establish(registry: Registry, e: Entry, bad: Status) returns (end: End)
      modifies this
      ensures (Value(), end) == DeploymentSpec.Establish(old(Value()), registry, e, bad)
    {
      hide DeploymentSpec.Probe;
      end := Checkpoint(registry);
      if end.Dead? { return; }
      if end.Ok? {
        end := Probe(e);
        if !end.Failed? { return; }
      }
      end := GiveUp(registry, bad);
    }

    // ----- health, rollback, stop, recover -----

    method AssertActive(digest: string) returns (end: End)
      modifies this`world, this`future
      ensures (Value(), end) == DeploymentSpec.AssertActive(old(Value()), digest)
      ensures end.Ok? ==> disk.active.Some?
    {
      hide Later;
      if disk.active.None? || !ValidEntry(disk.active.value, digest) { return Failed; }
      var supervisorLive := IdentityMatches(disk.active.value.supervisor);
      if !supervisorLive.Live? { return Failed; }
      var childLive := IdentityMatches(disk.active.value.child);
      end := if childLive.Live? then Ok else Failed;
    }

    method Health(c: Call) returns (end: End)
      modifies this
      ensures (Value(), end) == DeploymentSpec.Health(old(Value()), c)
    {
      hide DeploymentSpec.AssertActive, DeploymentSpec.Probe, Try, Save;
      if disk.operation != Some(c.commit) { return Failed; }
      end := AssertActive(c.digest);
      if !end.Ok? { return; }
      var e := disk.active.value;
      end := Attempt(Verify(e.commit));
      if !end.Ok? { return; }
      end := Probe(e);
      if !end.Ok? { return; }
      end := Checkpoint(disk.(status := Some(Healthy)));
    }

    method Rollback(c: Call) returns (end: End)
      modifies this
      ensures (Value(), end) == DeploymentSpec.Rollback(old(Value()), c, polls)
    {
      hide DeploymentSpec.Restore, DeploymentSpec.StopOwned, Try;
      if disk.operation != Some(c.commit) || disk.digest != Some(c.digest) || disk.previous.None? { return Failed; }
      var target := disk.previous.value;
      end := Attempt(Verify(target));
      if !end.Ok? { return; }
      if disk.active.Some? {
        var e := disk.active.value;
        if !ValidEntry(e, c.digest) { return Failed; }
        end := StopOwned(e.supervisor, e.child);
        if !end.Ok? { return; }
      }
      end := Restore(c, target);
    }

    method Restore(c: Call, target: string) returns (end: End)
      modifies this
      ensures (Value(), end) == DeploymentSpec.Restore(old(Value()), c, target, polls)
    {
      hide DeploymentSpec.Start, DeploymentSpec.Establish, Save;
      var registry := disk.(active := None, status := Some(RollingBack));
      end := Checkpoint(registry);
      if !end.Ok? { return; }
      var launch := Start(target, c.digest);
      if launch.LaunchDied? { return Dead; }
      if launch.NotRunning? {
        end := GiveUp(registry, RollbackUnhealthy);
        return;
      }
      registry := registry.(active := Some(launch.entry), status := Some(ProbingRollback));
      end := Establish(registry, launch.entry, RollbackUnhealthy);
      if !end.Ok? { return; }
      end := Checkpoint(registry.(previous := None, rolledFrom := Some(c.commit), spec := Some(c.path),
        status := Some(RolledBack)));
    }

    method Stop(c: Call) returns (end: End)
      modifies this
      ensures (Value(), end) == DeploymentSpec.Stop(old(Value()), c, polls)
    {
      hide DeploymentSpec.StopOwned, Save, Matches;
      if disk.operation != Some(c.commit) { return Failed; }
      end := AssertActive(c.digest);
      if !end.Ok? { return; }
      var e := disk.active.value;
      end := StopOwned(e.supervisor, e.child);
      if !end.Ok? { return; }
      end := Checkpoint(disk.(active := None, status := Some(Halted)));
    }

    method Recover(path: string, digest: string) returns (end: End)
      modifies this
      ensures (Value(), end) == DeploymentSpec.Recover(old(Value()), path, digest, polls)
    {
      hide DeploymentSpec.StopOwned, DeploymentSpec.Restart, DeploymentSpec.Probe, Matches, Try;
      if !Established(disk.status) { return Ok; }
      if disk.spec != Some(path) || disk.digest != Some(digest) { return Failed; }
      if disk.active.None? || !ValidEntry(disk.active.value, digest) { return Failed; }
      var e := disk.active.value;
      end := Attempt(Verify(e.commit));
      if !end.Ok? { return; }
      if e.boot == world.boot {
        var supervisorLive := IdentityMatches(e.supervisor);
        if supervisorLive.Mismatch? { return Failed; }
        var childLive := IdentityMatches(e.child);
        if childLive.Mismatch? { return Failed; }
        if supervisorLive.Live? && childLive.Live? {
          end := Probe(e);
          if !end.Failed? { return; }
        }
        if supervisorLive.Live? || childLive.Live? {
          end := StopOwned(e.supervisor, e.child);
          if !end.Ok? { return; }
        }
      }
      end := Restart(e);
    }

    method Restart(e: Entry) returns (end: End)
      modifies this
      ensures (Value(), end) == DeploymentSpec.Restart(old(Value()), e, polls)
    {
      hide DeploymentSpec.Start, DeploymentSpec.StopOwned, DeploymentSpec.Probe, Save, Try;
      var launch := Start(e.commit, e.digest);
      if launch.LaunchDied? { return Dead; }
      if launch.NotRunning? { return Failed; }
      var restored := launch.entry;
      var registry := disk.(active := Some(restored));
      end := Checkpoint(registry);
      if !end.Ok? { return; }
      end := Probe(restored);
      if end.Dead? { return; }
      if end.Failed? {
        var stopped := StopOwned(restored.supervisor, restored.child);
        return if stopped.Dead? then Dead else Failed;
      }
      end := Attempt(Verify(e.commit));
      if !end.Ok? { return; }
      end := Checkpoint(registry);
    }
  }
}
