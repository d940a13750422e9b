/**
 The control store as the program keeps it: tables updated in place inside transactions. Every method
 is one write transaction; a refused one leaves all tables as they were.
 */
module ControlStore {
  import opened Wrappers
  import opened Rows
  import StoreSpec
  import opened StoreDeliveries
  import opened StoreRuns

  datatype Reply<+T> = Answer(value: T) | Refused(error: StoreSpec.Error)

  function ReplyOf<T>(outcome: StoreSpec.Outcome<T>): Reply<T> {
    if outcome.Done? then Answer(outcome.value) else Refused(outcome.error)
  }

  class Store {
    var tasks: map<TaskId, Task>
    var log: seq<Event>
    var groups: map<Scope, nat>
    var members: map<TaskId, StoreSpec.Membership>
    var deliveries: map<StoreSpec.DeliveryKey, StoreSpec.Delivery>
    var replays: map<StoreSpec.ReplayKey, string>
    var aliases: map<StoreSpec.DeliveryKey, string>

    function Files(): StoreSpec.Files
      reads this
    {
      StoreSpec.Files(groups, members, deliveries, replays, aliases)
    }

    function Value(): StoreSpec.Db
      reads this
    {
      StoreSpec.Db(tasks, log, Files())
    }

    /** The tables came about by transactions of this store. */
    ghost predicate Valid()
      reads this
    {
      Reachable(Value())
    }

    constructor ()
      ensures Valid() && Value() == StoreSpec.EMPTY
    {
      tasks, log, groups, members := map[], [], map[], map[];
      deliveries, replays, aliases := map[], map[], map[];
      new;
      assert Run(StoreSpec.EMPTY, []) == Value();
    }

    /** `_event`. */
    method Log(id: TaskId, kind: Kind, state: State, epoch: nat, at: real)
      modifies this`log
      ensures log == old(log) + [Event(id, kind, state, epoch, at)]
    {
      log := log + [Event(id, kind, state, epoch, at)];
    }

    method CreateTask(repository: string, payload: string, key: Option<string>, id: TaskId, now: real)
      returns (r: Reply<TaskId>)
      requires Valid()
      modifies this
      ensures Valid()
      ensures Value() == StoreSpec.After(old(Value()),
          StoreSpec.CreateTask(old(Value()), id, repository, payload, key, now))
      ensures r == ReplyOf(StoreSpec.CreateTask(old(Value()), id, repository, payload, key, now))
    {
      ReachableStep(Value(), CreateStep(id, repository, payload, key, now));
      if Blank(repository) { return Refused(StoreSpec.BadValue); }
      if key.Some? {
        var same := set t | t in tasks && tasks[t].key == key;
        if same != {} {
          var existing :| existing in same;
          assert StoreSpec.KeyTaken(Value(), key.value);
          ReachableKeysUnique(Value());
          if tasks[existing].repository != repository || tasks[existing].payload != payload {
            return Refused(StoreSpec.BadValue);
          }
          return Answer(existing);
        }
        assert forall t :: t in tasks && tasks[t].key == key ==> t in same;
      }
      if id in tasks { return Refused(StoreSpec.IdCollision); }
      tasks := tasks[id := Task(repository, payload, key, now, [], None, Queued, 0, None, now)];
      Log(id, Created(None, false), Queued, 0, now);
      r := Answer(id);
    }

    method Claim(id: TaskId, worker: string, now: real, ttl: int) returns (r: Reply<Lease>)
      requires Valid()
      modifies this
      ensures Valid()
      ensures Value() == StoreSpec.After(old(Value()), StoreSpec.Claim(old(Value()), id, worker, now, ttl))
      ensures r == ReplyOf(StoreSpec.Claim(old(Value()), id, worker, now, ttl))
    {
      ReachableStep(Value(), ClaimStep(id, worker, now, ttl));
      r := Grant(id, worker, now, ttl);
    }

    method Grant(id: TaskId, worker: string, now: real, ttl: int) returns (r: Reply<Lease>)
      modifies this`tasks, this`log
      ensures Value() == StoreSpec.After(old(Value()), StoreSpec.Claim(old(Value()), id, worker, now, ttl))
      ensures r == ReplyOf(StoreSpec.Claim(old(Value()), id, worker, now, ttl))
    {
      if ttl <= 0 || Blank(worker) { return Refused(StoreSpec.BadValue); }
      var expires := now + ttl as real;
      if id !in tasks { return Refused(StoreSpec.TaskNotFound); }
      var row := tasks[id];
      if row.state != Queued { return Refused(StoreSpec.LeaseConflict); }
      if row.lease.Some? && row.lease.value.expires > now { return Refused(StoreSpec.LeaseConflict); }
      if StoreSpec.RepositoryBusy(Value(), id, row.repository, now) { return Refused(StoreSpec.LeaseConflict); }
      var previous := if row.lease.Some? then Some(row.lease.value.worker) else None;
      var epoch := row.epoch + 1;
      tasks := tasks[id := row.(epoch := epoch, lease := Some(Holder(worker, epoch, expires)), updatedAt := now)];
      Log(id, Claimed(worker, expires, previous), Queued, epoch, now);
      r := Answer(Lease(id, worker, epoch, expires));
    }

    method Renew(lease: Lease, now: real, ttl: int) returns (r: Reply<Lease>)
      requires Valid()
      modifies this
      ensures Valid()
      ensures Value() == StoreSpec.After(old(Value()), StoreSpec.Renew(old(Value()), lease, now, ttl))
      ensures r == ReplyOf(StoreSpec.Renew(old(Value()), lease, now, ttl))
    {
      ReachableStep(Value(), RenewStep(lease, now, ttl));
      if ttl <= 0 { return Refused(StoreSpec.BadValue); }
      var expires := now + ttl as real;
      if lease.task !in tasks { return Refused(StoreSpec.TaskNotFound); }
      var row := tasks[lease.task];
      if !ValidLease(row, lease, now) { return Refused(StoreSpec.StaleLease); }
      tasks := tasks[lease.task := row.(lease := Some(Holder(lease.worker, lease.epoch, expires)), updatedAt := now)];
      Log(lease.task, LeaseRenewed(lease.worker, expires), row.state, lease.epoch, now);
      r := Answer(Lease(lease.task, lease.worker, lease.epoch, expires));
    }

    method AssertActive(lease: Lease, now: real) returns (error: Option<StoreSpec.Error>)
      ensures error == StoreSpec.AssertActive(Value(), lease, now)
    {
      if lease.task !in tasks { return Some(StoreSpec.TaskNotFound); }
      var row := tasks[lease.task];
      if !ValidLease(row, lease, now) { return Some(StoreSpec.StaleLease); }
      if Terminal(row.state) || row.state == Paused { return Some(StoreSpec.StaleLease); }
      error := None;
    }

    method CountReservations(id: TaskId) returns (count: nat)
      ensures count == StoreSpec.Reservations(log, id)
    {
      count := 0;
      for i := 0 to |log|
        invariant count == StoreSpec.Reservations(log[..i], id)
      {
        assert log[..i + 1][..|log[..i + 1]| - 1] == log[..i];
        if log[i].task == id && log[i].kind.AiCallReserved? { count := count + 1; }
      }
      assert log[..|log|] == log;
    }

    method ReserveAiCall(lease: Lease, role: string, limit: int, now: real) returns (r: Reply<nat>)
      requires Valid()
      modifies this
      ensures Valid()
      ensures Value() == StoreSpec.After(old(Value()), StoreSpec.ReserveAiCall(old(Value()), lease, role, limit, now))
      ensures r == ReplyOf(StoreSpec.ReserveAiCall(old(Value()), lease, role, limit, now))
    {
      ReachableStep(Value(), ReserveStep(lease, role, limit, now));
      if limit <= 0 { return Refused(StoreSpec.BadValue); }
      if lease.task !in tasks { return Refused(StoreSpec.TaskNotFound); }
      var row := tasks[lease.task];
      if !ValidLease(row, lease, now) { return Refused(StoreSpec.StaleLease); }
      var count := CountReservations(lease.task);
      if count >= limit { return Refused(StoreSpec.BudgetExhausted); }
      Log(lease.task, AiCallReserved(role, count + 1, limit), row.state, lease.epoch, now);
      assert tasks[lease.task := row] == tasks;
      r := Answer(count + 1);
    }

    method RecordReleaseSuccess(lease: Lease, commit: string, now: real) returns (r: Reply<()>)
      requires Valid()
      modifies this
      ensures Valid()
      ensures Value() == StoreSpec.After(old(Value()), StoreSpec.RecordReleaseSuccess(old(Value()), lease, commit, now))
      ensures r == ReplyOf(StoreSpec.RecordReleaseSuccess(old(Value()), lease, commit, now))
    {
      ReachableStep(Value(), RecordStep(lease, commit, now));
      if !StoreSpec.CommitSha(commit) { return Refused(StoreSpec.BadValue); }
      if lease.task !in tasks { return Refused(StoreSpec.TaskNotFound); }
      var row := tasks[lease.task];
      if !ValidLease(row, lease, now) { return Refused(StoreSpec.StaleLease); }
      if row.state != Monitoring { return Refused(StoreSpec.InvalidTransition); }
      Log(lease.task, ReleaseSuccess(commit), Monitoring, lease.epoch, now);
      assert tasks[lease.task := row] == tasks;
      r := Answer(());
    }

    /** `transition`. */
    method Move(lease: Lease, state: State, details: string, now: real) returns (r: Reply<()>)
      requires Valid()
      modifies this
      ensures Valid()
      ensures Value() == StoreSpec.After(old(Value()), StoreSpec.Move(old(Value()), lease, state, details, now))
      ensures r == ReplyOf(StoreSpec.Move(old(Value()), lease, state, details, now))
    {
      ReachableStep(Value(), MoveStep(lease, state, details, now));
      if state == Queued || state == Paused { return Refused(StoreSpec.InvalidTransition); }
      if lease.task !in tasks { return Refused(StoreSpec.TaskNotFound); }
      var row := tasks[lease.task];
      if !ValidLease(row, lease, now) { return Refused(StoreSpec.StaleLease); }
      if Terminal(row.state) || row.state == Paused { return Refused(StoreSpec.InvalidTransition); }
      if Terminal(state) {
        tasks := tasks[lease.task := row.(state := state, result := Some(Reported(details)), lease := None,
          updatedAt := now)];
      } else {
        tasks := tasks[lease.task := row.(state := state, updatedAt := now)];
      }
      Log(lease.task, Transition(details), state, lease.epoch, now);
      r := Answer(());
    }

    method Release(lease: Lease, now: real) returns (r: Reply<()>)
      requires Valid()
      modifies this
      ensures Valid()
      ensures Value() == StoreSpec.After(old(Value()), StoreSpec.Release(old(Value()), lease, now))
      ensures r == ReplyOf(StoreSpec.Release(old(Value()), lease, now))
    {
      ReachableStep(Value(), ReleaseStep(lease, now));
      if lease.task !in tasks { return Refused(StoreSpec.TaskNotFound); }
      var row := tasks[lease.task];
      if !ValidLease(row, lease, now) { return Refused(StoreSpec.StaleLease); }
      if Terminal(row.state) || row.state == Paused { return Refused(StoreSpec.StaleLease); }
      tasks := tasks[lease.task := row.(state := Queued, lease := None, updatedAt := now)];
      Log(lease.task, Released(lease.worker, row.state), Queued, lease.epoch, now);
      r := Answer(());
    }

    method Control(id: TaskId, action: Action, instruction: Option<string>, now: real) returns (r: Reply<()>)
      requires Valid()
      modifies this
      ensures Valid()
      ensures Value() == StoreSpec.After(old(Value()), StoreSpec.Control(old(Value()), id, action, instruction, now))
      ensures r == ReplyOf(StoreSpec.Control(old(Value()), id, action, instruction, now))
    {
      ReachableStep(Value(), ControlStep(id, action, instruction, now));
      if action.Steer? && (instruction.None? || Blank(instruction.value)) { return Refused(StoreSpec.BadValue); }
      if !action.Steer? && instruction.Some? { return Refused(StoreSpec.BadValue); }
      if id !in tasks { return Refused(StoreSpec.TaskNotFound); }
      var row := tasks[id];
      var previous := row.state;
      if Terminal(previous) { return Refused(StoreSpec.InvalidTransition); }
      if action.Resume? && previous != Paused { return Refused(StoreSpec.InvalidTransition); }
      var unknown := UnknownOutcome(previous) && (action.Pause? || action.Cancel? || action.Steer?);
      var state := Queued;
      if unknown {
        state := Unresolved;
      } else if action.Pause? {
        state := Paused;
      } else if action.Cancel? {
        state := Cancelled;
      }
      var instructions := row.instructions;
      if action.Steer? { instructions := instructions + [instruction.value]; }
      var epoch := row.epoch + 1;
      var result := row.result;
      if unknown {
        result := Some(ControlInterrupted(action, previous));
      } else if action.Cancel? {
        result := Some(ControlCancelled(previous));
      }
      tasks := tasks[id := row.(state := state, epoch := epoch, instructions := instructions, result := result,
                                lease := None, updatedAt := now)];
      Log(id, Controlled(action, previous, instruction, unknown), state, epoch, now);
      r := Answer(());
    }

    /** The next row of a query ordered by creation time and id. */
    method Least(ids: set<TaskId>, ghost table: map<TaskId, Task>) returns (id: TaskId)
      requires ids != {} && ids <= tasks.Keys && ids <= table.Keys
      requires forall t :: t in ids ==> tasks[t] == table[t]
      ensures id in ids && id == StoreSpec.First(table, ids)
    {
      id :| id in ids;
      var rest := ids - {id};
      while rest != {}
        invariant rest <= ids && id in ids && id !in rest
        invariant forall t :: t in ids && t !in rest && t != id ==> StoreSpec.Before(table, id, t)
        decreases rest
      {
        var other :| other in rest;
        rest := rest - {other};
        if tasks[other].createdAt < tasks[id].createdAt
           || (tasks[other].createdAt == tasks[id].createdAt && other < id) {
          id := other;
        }
      }
      assert StoreSpec.Least(table, ids, id);
    }

    method RecoverExpired(now: real) returns (recovered: seq<TaskId>)
      requires Valid()
      modifies this
      ensures Valid()
      ensures Value() == StoreSpec.After(old(Value()), StoreSpec.RecoverExpired(old(Value()), now))
      ensures recovered == StoreSpec.Sorted(old(tasks), StoreSpec.Expired(old(Value()), now))
    {
      ReachableStep(Value(), RecoverStep(now));
      recovered := RecoverRows(now);
    }

    method RecoverRows(now: real) returns (recovered: seq<TaskId>)
      modifies this`tasks, this`log
      ensures recovered == StoreSpec.Sorted(old(tasks), StoreSpec.Expired(old(Value()), now))
      ensures Value() == StoreSpec.PutAll(old(Value()), StoreSpec.RecoverWrites(old(tasks), recovered, now))
    {
      var ids := set id | id in tasks && tasks[id].lease.Some? && tasks[id].lease.value.expires <= now
                          && !Terminal(tasks[id].state) && !tasks[id].state.Paused?;
      assert ids == StoreSpec.Expired(Value(), now);
      recovered := RecoverEach(ids, now);
    }

    method RecoverEach(ids: set<TaskId>, now: real) returns (recovered: seq<TaskId>)
      requires ids <= tasks.Keys
      modifies this`tasks, this`log
      ensures recovered == StoreSpec.Sorted(old(tasks), ids)
      ensures Value() == RecoverOn(old(Value()), old(tasks), ids, now)
    {
      hide RecoverOn, StoreSpec.RecoverWrite, StoreSpec.Put;
      ghost var before := tasks;
      ghost var final := RecoverOn(Value(), before, ids, now);
      var rest := ids;
      recovered := [];
      while rest != {}
        invariant rest <= ids && before.Keys == tasks.Keys
        invariant forall t :: t in rest ==> tasks[t] == before[t]
        invariant recovered + StoreSpec.Sorted(before, rest) == StoreSpec.Sorted(before, ids)
        invariant RecoverOn(Value(), before, rest, now) == final
        decreases rest
      {
        var id := Least(rest, before);
        RecoverOnStep(Value(), before, rest, now);
        SortedStep(before, rest, recovered);
        RecoverRow(id, now);
        recovered := recovered + [id];
        rest := rest - {id};
      }
      RecoverOnNone(Value(), before, now);
    }

    method RecoverRow(id: TaskId, now: real)
      requires id in tasks
      modifies this`tasks, this`log
      ensures tasks.Keys == old(tasks).Keys && forall t :: t in tasks && t != id ==> tasks[t] == old(tasks)[t]
      ensures Value() == StoreSpec.Put(old(Value()), StoreSpec.RecoverWrite(old(tasks)[id], id, now))
    {
      var row := tasks[id];
      var unknown := UnknownOutcome(row.state);
      var state := if unknown then Unresolved else Queued;
      var result := if unknown then Some(LeaseLost(row.state)) else row.result;
      tasks := tasks[id := row.(state := state, epoch := row.epoch + 1, result := result, lease := None,
        updatedAt := now)];
      Log(id, LeaseExpired(row.lease, row.state, unknown), state, row.epoch + 1, now);
    }

    /** `ingest_event`. */
    method Ingest(r: StoreSpec.Request, id: TaskId, now: real) returns (reply: Reply<StoreSpec.Receipt>)
      requires Valid()
      modifies this
      ensures Valid()
      ensures Value() == StoreSpec.After(old(Value()), StoreSpec.Ingest(old(Value()), r, id, now))
      ensures reply == ReplyOf(StoreSpec.Ingest(old(Value()), r, id, now))
    {
      ReachableStep(Value(), IngestStep(r, id, now));
      var key := StoreSpec.DeliveryKey(r.provider, r.delivery);
      if r.expected.Some? && (r.expected.value < 0 || r.group.None?) { return Refused(StoreSpec.BadValue); }
      if key in deliveries {
        if deliveries[key].body != r.body || deliveries[key].repository != r.repository {
          return Refused(StoreSpec.EventConflict);
        }
        if key in aliases && Some(aliases[key]) != r.replay { return Refused(StoreSpec.EventConflict); }
        return Answer(StoreSpec.ReceiptOf(Files(), key, true));
      }
      if r.replay.Some? {
        var rk := StoreSpec.ReplayKey(r.provider, r.repository, r.replay.value);
        if rk in replays && StoreSpec.DeliveryKey(r.provider, replays[rk]) in deliveries {
          var canonical := deliveries[StoreSpec.DeliveryKey(r.provider, replays[rk])];
          if canonical.body != r.body { return Refused(StoreSpec.EventConflict); }
          deliveries := deliveries[key := StoreSpec.Delivery(canonical.body, r.repository, canonical.slot,
            canonical.task)];
          aliases := aliases[key := r.replay.value];
          return Answer(StoreSpec.ReceiptOf(Files(), key, true));
        }
      }
      reply := FirstDelivery(r, id, now);
    }

    /** The part of `ingest_event` after both duplicate checks. */
    method FirstDelivery(r: StoreSpec.Request, id: TaskId, now: real) returns (reply: Reply<StoreSpec.Receipt>)
      modifies this
      ensures Value() == StoreSpec.After(old(Value()), StoreSpec.Accept(old(Value()), r, id, now))
      ensures reply == ReplyOf(StoreSpec.Accept(old(Value()), r, id, now))
    {
      hide StoreSpec.Accept, StoreSpec.PutAll, StoreSpec.SupersedeWrites, StoreSpec.CreatedWrite;
      hide StoreSpec.StartsPaused, StoreSpec.Reconciles, StoreSpec.Outdated, StoreSpec.Filed;
      ghost var before := Value();
      AcceptRefuses(before, r, id, now);
      var version: Option<nat> := None;
      if r.group.Some? {
        var scope := StoreSpec.ScopeOf(r);
        var current := if scope in groups then groups[scope] else 0;
        if r.expected.Some? && r.expected.value != current { return Refused(StoreSpec.EventConflict); }
        version := Some(current + 1);
      }
      if r.payload.Some? && id in tasks { return Refused(StoreSpec.IdCollision); }
      var task := if r.payload.Some? then Some(id) else None;
      var paused, reconcile := SupersedeGroup(r, version, task, now);
      AcceptSplits(before, r, id, now, Value(), paused, reconcile);
      if r.payload.Some? { AddReplacement(r, id, paused, reconcile, version, now); }
      FileReceipt(r, version, task);
      reply := Answer(StoreSpec.ReceiptOf(Files(), StoreSpec.KeyOf(r), false));
    }

    /** The task of a delivery. */
    method AddReplacement(r: StoreSpec.Request, id: TaskId, paused: bool, reconcile: bool, version: Option<nat>,
        now: real)
      requires r.payload.Some?
      modifies this`tasks, this`log
      ensures Value() == StoreSpec.Put(old(Value()), StoreSpec.CreatedWrite(id,
                NewRow(r.repository, r.payload.value, None, if paused then Paused else Queued, now),
                Some(StoreSpec.OriginOf(r, version)), reconcile))
    {
      var state := if paused then Paused else Queued;
      tasks := tasks[id := Task(r.repository, r.payload.value, None, now, [], None, state, 0, None, now)];
      Log(id, Created(Some(Origin(r.provider, r.delivery, r.group, version)), reconcile), state, 0, now);
    }

    /** The group's version, its new member, the receipt and, if the delivery names one, its replay key. */
    method FileReceipt(r: StoreSpec.Request, version: Option<nat>, task: Option<TaskId>)
      requires version == StoreSpec.NextVersion(Files(), r)
      modifies this`groups, this`members, this`deliveries, this`aliases, this`replays
      ensures Files() == StoreSpec.Filed(old(Files()), r, task)
    {
      var key, scope := StoreSpec.DeliveryKey(r.provider, r.delivery), StoreSpec.ScopeOf(r);
      if version.Some? {
        groups := groups[scope := version.value];
        if task.Some? { members := members[task.value := StoreSpec.Membership(scope, version.value)]; }
      }
      var slot := if version.Some? then Some(StoreSpec.Slot(r.group.value, version.value)) else None;
      deliveries := deliveries[key := StoreSpec.Delivery(r.body, r.repository, slot, task)];
      if r.replay.Some? {
        aliases := aliases[key := r.replay.value];
        replays := replays[StoreSpec.ReplayKey(r.provider, r.repository, r.replay.value) := r.delivery];
      }
    }

    /** Ends every task of the group that has not ended; says whether the replacement must wait. */
    method SupersedeGroup(r: StoreSpec.Request, version: Option<nat>, replacement: Option<TaskId>, now: real)
      returns (paused: bool, reconcile: bool)
      requires version == StoreSpec.NextVersion(Files(), r)
      modifies this`tasks, this`log
      ensures var ids := StoreSpec.Outdated(old(Value()), r);
              && paused == StoreSpec.StartsPaused(old(Value()), ids)
              && reconcile == StoreSpec.Reconciles(old(Value()), ids)
              && Value() == StoreSpec.PutAll(old(Value()), StoreSpec.SupersedeWrites(
                   old(Value()), StoreSpec.Sorted(old(tasks), ids), StoreSpec.OriginOf(r, version), replacement, now))
    {
      ghost var before := Value();
      var rest: set<TaskId> := {};
      if r.group.Some? {
        var scope := StoreSpec.ScopeOf(r);
        rest := set t | t in tasks && t in members && members[t].scope == scope && !Terminal(tasks[t].state);
      }
      assert rest == StoreSpec.Outdated(before, r);
      reconcile := exists t | t in rest :: UnknownOutcome(tasks[t].state);
      paused := reconcile || exists t | t in rest :: tasks[t].state == Paused;
      SupersedeRows(rest, Origin(r.provider, r.delivery, r.group, version), replacement, now);
    }

    method SupersedeRows(ids: set<TaskId>, origin: Origin, replacement: Option<TaskId>, now: real)
      requires ids <= tasks.Keys
      modifies this`tasks, this`log
      ensures Value() == StoreSpec.PutAll(old(Value()), StoreSpec.SupersedeWrites(
                old(Value()), StoreSpec.Sorted(old(tasks), ids), origin, replacement, now))
    {
      ghost var before := Value();
      ghost var final := SupersedeOn(before, before, ids, origin, replacement, now);
      var rest := ids;
      while rest != {}
        invariant rest <= ids && before.tasks.Keys == tasks.Keys
        invariant forall t :: t in rest ==> tasks[t] == before.tasks[t]
        invariant SupersedeOn(Value(), before, rest, origin, replacement, now) == final
        decreases rest
      {
        var id := Least(rest, before.tasks);
        SupersedeOnStep(Value(), before, rest, origin, replacement, now);
        SupersedeRow(id, origin, replacement, now);
        rest := rest - {id};
      }
    }

    method SupersedeRow(id: TaskId, origin: Origin, replacement: Option<TaskId>, now: real)
      requires id in tasks
      modifies this`tasks, this`log
      ensures Value() == StoreSpec.Put(old(Value()),
          StoreSpec.SupersedeWrite(old(tasks)[id], id, origin, replacement, now))
    {
      var row := tasks[id];
      var unknown := UnknownOutcome(row.state);
      var state := if unknown then Unresolved else Cancelled;
      var result := SupersededBy(origin, replacement, row.state, unknown);
      tasks := tasks[id := row.(state := state, epoch := row.epoch + 1, result := Some(result), lease := None,
        updatedAt := now)];
      Log(id, Superseded(result), state, row.epoch + 1, now);
    }
  }

  lemma SortedStep(tasks: map<TaskId, Task>, rest: set<TaskId>, done: seq<TaskId>)
    requires rest != {} && rest <= tasks.Keys
    ensures var id := StoreSpec.First(tasks, rest);
            done + StoreSpec.Sorted(tasks, rest) == (done + [id]) + StoreSpec.Sorted(tasks, rest - {id})
  {
  }

  lemma SortedHead(tasks: map<TaskId, Task>, rest: set<TaskId>)
    requires rest != {} && rest <= tasks.Keys
    ensures StoreSpec.Sorted(tasks, rest)
        == [StoreSpec.First(tasks, rest)] + StoreSpec.Sorted(tasks, rest - {StoreSpec.First(tasks, rest)})
  {
  }

  /** The recovery of `rest`, rows as they were in `before`, applied to `db`. */
  ghost function RecoverOn(db: StoreSpec.Db, before: map<TaskId, Task>, rest: set<TaskId>, now: real): StoreSpec.Db
    requires rest <= before.Keys
  {
    StoreSpec.PutAll(db, StoreSpec.RecoverWrites(before, StoreSpec.Sorted(before, rest), now))
  }

  lemma RecoverOnNone(db: StoreSpec.Db, before: map<TaskId, Task>, now: real)
    ensures RecoverOn(db, before, {}, now) == db
    ensures StoreSpec.Sorted(before, {}) == []
  {
  }

  lemma RecoverOnStep(db: StoreSpec.Db, before: map<TaskId, Task>, rest: set<TaskId>, now: real)
    requires rest != {} && rest <= before.Keys
    ensures var id := StoreSpec.First(before, rest);
            RecoverOn(db, before, rest, now)
            == RecoverOn(StoreSpec.Put(db, StoreSpec.RecoverWrite(before[id], id, now)), before, rest - {id}, now)
  {
    hide StoreSpec.RecoverWrite, StoreSpec.Put;
    var id := StoreSpec.First(before, rest);
    SortedHead(before, rest);
    var ws := StoreSpec.RecoverWrites(before, StoreSpec.Sorted(before, rest), now);
    assert ws[1..] == StoreSpec.RecoverWrites(before, StoreSpec.Sorted(before, rest - {id}), now);
  }

  /** The supersession of `rest`, rows as they were in `before`, applied to `db`. */
  ghost function SupersedeOn(
      db: StoreSpec.Db, before: StoreSpec.Db, rest: set<TaskId>, origin: Origin, replacement: Option<TaskId>,
        now: real): StoreSpec.Db
    requires rest <= before.tasks.Keys
  {
    StoreSpec.PutAll(db,
      StoreSpec.SupersedeWrites(before, StoreSpec.Sorted(before.tasks, rest), origin, replacement, now))
  }

  lemma SupersedeOnStep(
      db: StoreSpec.Db, before: StoreSpec.Db, rest: set<TaskId>, origin: Origin, replacement: Option<TaskId>, now: real)
    requires rest != {} && rest <= before.tasks.Keys
    ensures var id := StoreSpec.First(before.tasks, rest);
            SupersedeOn(db, before, rest, origin, replacement, now)
            == SupersedeOn(StoreSpec.Put(db, StoreSpec.SupersedeWrite(before.tasks[id], id, origin, replacement, now)),
                           before, rest - {id}, origin, replacement, now)
  {
    hide StoreSpec.SupersedeWrite, StoreSpec.Put;
    var id := StoreSpec.First(before.tasks, rest);
    SortedHead(before.tasks, rest);
    var ws := StoreSpec.SupersedeWrites(before, StoreSpec.Sorted(before.tasks, rest), origin, replacement, now);
    assert ws[1..] == StoreSpec.SupersedeWrites(before, StoreSpec.Sorted(before.tasks, rest - {id}), origin,
      replacement, now);
  }

  lemma {:induction false} PutAllSnoc(db: StoreSpec.Db, ws: seq<Write>, w: Write)
    ensures StoreSpec.PutAll(db, ws + [w]) == StoreSpec.Put(StoreSpec.PutAll(db, ws), w)
    decreases |ws|
  {
    if ws == [] {
      assert ([] + [w])[1..] == [];
    } else {
      assert (ws + [w])[1..] == ws[1..] + [w];
      PutAllSnoc(StoreSpec.Put(db, ws[0]), ws[1..], w);
    }
  }

  lemma AcceptRefuses(db: StoreSpec.Db, r: StoreSpec.Request, id: TaskId, now: real)
    ensures var conflict := r.group.Some? && r.expected.Some?
        && r.expected.value != StoreSpec.GroupVersion(db.files, StoreSpec.ScopeOf(r));
            && (conflict ==> StoreSpec.Accept(db, r, id, now) == StoreSpec.Rejected(StoreSpec.EventConflict))
            && (!conflict && r.payload.Some? && id in db.tasks ==>
                  StoreSpec.Accept(db, r, id, now) == StoreSpec.Rejected(StoreSpec.IdCollision))
  {
  }

  /** An accepted delivery: the group superseded, the replacement added, the receipt filed. */
  lemma AcceptSplits(
      db: StoreSpec.Db, r: StoreSpec.Request, id: TaskId, now: real, mid: StoreSpec.Db, paused: bool, reconcile: bool)
    requires r.group.Some? && r.expected.Some? ==>
        r.expected.value == StoreSpec.GroupVersion(db.files, StoreSpec.ScopeOf(r))
    requires r.payload.Some? ==> id !in db.tasks
    requires paused == StoreSpec.StartsPaused(db, StoreSpec.Outdated(db, r))
    requires reconcile == StoreSpec.Reconciles(db, StoreSpec.Outdated(db, r))
    requires mid == StoreSpec.PutAll(db,
        StoreSpec.SupersedeWrites(db, StoreSpec.Sorted(db.tasks, StoreSpec.Outdated(db, r)),
      StoreSpec.OriginOf(r, StoreSpec.NextVersion(db.files, r)), if r.payload.Some? then Some(id) else None, now))
    ensures var files := StoreSpec.Filed(db.files, r, if r.payload.Some? then Some(id) else None);
            var rows := if r.payload.None? then mid
                        else StoreSpec.Put(mid, StoreSpec.CreatedWrite(id,
                               NewRow(r.repository, r.payload.value, None, if paused then Paused else Queued, now),
                               Some(StoreSpec.OriginOf(r, StoreSpec.NextVersion(db.files, r))), reconcile));
            StoreSpec.Accept(db, r, id, now)
            == StoreSpec.Done(rows.(files := files), StoreSpec.ReceiptOf(files, StoreSpec.KeyOf(r), false))
  {
    hide StoreSpec.StartsPaused, StoreSpec.Reconciles, StoreSpec.SupersedeWrites, StoreSpec.Outdated, StoreSpec.Filed,
      StoreSpec.PutAll, StoreSpec.CreatedWrite;
    var supersede := StoreSpec.SupersedeWrites(db, StoreSpec.Sorted(db.tasks, StoreSpec.Outdated(db, r)),
      StoreSpec.OriginOf(r, StoreSpec.NextVersion(db.files, r)), if r.payload.Some? then Some(id) else None, now);
    var writes := StoreSpec.AcceptWrites(db, r, id, now);
    if r.payload.Some? {
      PutAllSnoc(db, supersede, writes[|supersede|]);
    } else {
      assert writes == supersede;
    }
  }
}
