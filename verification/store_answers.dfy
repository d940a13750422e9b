/**
 What each transaction answers and writes, column by column, said of the tables alone: the requested
 state is the stored one, every refusal has its guard, and everything not named stays.
 */
module StoreAnswers {
  import opened Wrappers
  import opened Rows
  import opened StoreSpec
  import opened StoreRuns
  import opened StoreLog
  import opened StoreDeliveries
  import opened StoreLeases

  const ENDED := {Completed, Failed, Cancelled, Unresolved}

  /** Stages that may have had an effect outside. */
  const EFFECTFUL := {Publishing, Deploying, Monitoring}

  /** The row is under this very lease, which has not run out. */
  predicate Held(db: Db, lease: Lease, now: real) {
    && lease.task in db.tasks
    && var row := db.tasks[lease.task];
       && row.epoch == lease.epoch
       && row.lease.Some?
       && row.lease.value.worker == lease.worker && row.lease.value.epoch == lease.epoch
       && now < row.lease.value.expires
  }

  /** Only the row of one task is written, beside one event of it; its identity columns stay. */
  ghost predicate Writes1(db: Db, next: Db, id: TaskId, kind: Kind, now: real) {
    && id in db.tasks && id in next.tasks
    && next.files == db.files
    && next.tasks.Keys == db.tasks.Keys
    && (forall other :: other in db.tasks && other != id ==> next.tasks[other] == db.tasks[other])
    && next.log == db.log + [Event(id, kind, next.tasks[id].state, next.tasks[id].epoch, now)]
    && var was, row := db.tasks[id], next.tasks[id];
       && row.repository == was.repository && row.payload == was.payload
       && row.key == was.key && row.createdAt == was.createdAt
  }

  lemma PutWrites1(db: Db, w: Write)
    requires w.id in db.tasks && w.event == Event(w.id, w.event.kind, w.row.state, w.row.epoch, w.event.at)
    requires var was := db.tasks[w.id];
             && w.row.repository == was.repository && w.row.payload == was.payload
             && w.row.key == was.key && w.row.createdAt == was.createdAt
    ensures Writes1(db, Put(db, w), w.id, w.event.kind, w.event.at) && Put(db, w).tasks[w.id] == w.row
  {
  }

  // ----- workers -----

  /** Every lease in the repository has run out. */
  ghost predicate NobodyWorks(db: Db, repository: string, now: real) {
    forall t :: t in db.tasks && db.tasks[t].repository == repository && db.tasks[t].lease.Some? ==>
      db.tasks[t].lease.value.expires <= now
  }

  /** A claim succeeds exactly on a queued task, free itself and in a repository without a live lease. */
  lemma ClaimAnswers(db: Db, id: TaskId, worker: string, now: real, ttl: int)
    ensures var free := id in db.tasks && db.tasks[id].state == Queued && NobodyWorks(db, db.tasks[id].repository, now);
            var o := Claim(db, id, worker, now, ttl);
            if ttl <= 0 || Blank(worker) then o == Rejected(BadValue)
            else if id !in db.tasks then o == Rejected(TaskNotFound)
            else if !free then o == Rejected(LeaseConflict)
            else
              && o.Done?
              && var was, row := db.tasks[id], o.db.tasks[id];
                 && o.value == Lease(id, worker, was.epoch + 1, now + ttl as real)
                 && Writes1(db, o.db, id, Claimed(worker, now + ttl as real,
                      if was.lease.Some? then Some(was.lease.value.worker) else None), now)
                 && row.lease == Some(Holder(worker, was.epoch + 1, now + ttl as real)) && row.epoch == was.epoch + 1
                 && row.state == Queued && row.result == was.result && row.instructions == was.instructions
                 && row.updatedAt == now
  {
    hide Writes1, Put, Blank;
    if Claim(db, id, worker, now, ttl).Done? {
      var row, expires := db.tasks[id], now + ttl as real;
      var replaced := if row.lease.Some? then Some(row.lease.value.worker) else None;
      PutWrites1(db, Write(id, ClaimedRow(row, worker, expires, now),
                           Event(id, Claimed(worker, expires, replaced), Queued, row.epoch + 1, now)));
    }
  }

  /** A renewal succeeds exactly for the holder, moves the expiry and nothing else of the task. */
  lemma RenewAnswers(db: Db, lease: Lease, now: real, ttl: int)
    ensures var o := Renew(db, lease, now, ttl);
            if ttl <= 0 then o == Rejected(BadValue)
            else if lease.task !in db.tasks then o == Rejected(TaskNotFound)
            else if !Held(db, lease, now) then o == Rejected(StaleLease)
            else
              && o.Done? && o.value == lease.(expires := now + ttl as real)
              && Writes1(db, o.db, lease.task, LeaseRenewed(lease.worker, now + ttl as real), now)
              && var was, row := db.tasks[lease.task], o.db.tasks[lease.task];
                 && row.lease == Some(Holder(lease.worker, lease.epoch, now + ttl as real)) && row.epoch == was.epoch
                 && row.state == was.state && row.result == was.result && row.instructions == was.instructions
                 && row.updatedAt == now
  {
    hide Writes1, Put;
    if Renew(db, lease, now, ttl).Done? {
      var row, expires := db.tasks[lease.task], now + ttl as real;
      PutWrites1(db, Write(lease.task, RenewedRow(row, expires, now),
                           Event(lease.task, LeaseRenewed(lease.worker, expires), row.state, lease.epoch, now)));
    }
  }

  /**
   A transition of the holder stores the requested state, in the row and in the event. A state that ends
   the task takes the details as its result and gives up the lease; any other keeps result and lease.
   */
  lemma MoveAnswers(db: Db, lease: Lease, state: State, details: string, now: real)
    ensures var o := Move(db, lease, state, details, now);
            if state == Queued || state == Paused then o == Rejected(InvalidTransition)
            else if lease.task !in db.tasks then o == Rejected(TaskNotFound)
            else if !Held(db, lease, now) then o == Rejected(StaleLease)
            else if db.tasks[lease.task].state in ENDED + {Paused} then o == Rejected(InvalidTransition)
            else
              && o.Done? && Writes1(db, o.db, lease.task, Transition(details), now)
              && var was, row := db.tasks[lease.task], o.db.tasks[lease.task];
                 && row.state == state
                 && row.result == (if state in ENDED then Some(Reported(details)) else was.result)
                 && (row.lease.None? <==> state in ENDED) && (row.lease.Some? ==> row.lease == was.lease)
                 && row.epoch == was.epoch && row.instructions == was.instructions && row.updatedAt == now
  {
    hide Writes1, Put;
    if Move(db, lease, state, details, now).Done? {
      PutWrites1(db, Write(lease.task, MovedRow(db.tasks[lease.task], state, details, now),
                           Event(lease.task, Transition(details), state, lease.epoch, now)));
    }
  }

  /** A release of the holder queues the task without a lease under the same epoch. */
  lemma ReleaseAnswers(db: Db, lease: Lease, now: real)
    ensures var o := Release(db, lease, now);
            if lease.task !in db.tasks then o == Rejected(TaskNotFound)
            else if !Held(db, lease, now) || db.tasks[lease.task].state in ENDED + {Paused} then
              o == Rejected(StaleLease)
            else
              && o.Done?
              && Writes1(db, o.db, lease.task, Released(lease.worker, db.tasks[lease.task].state), now)
              && var was, row := db.tasks[lease.task], o.db.tasks[lease.task];
                 && row.state == Queued && row.lease.None? && row.epoch == was.epoch
                 && row.result == was.result && row.instructions == was.instructions && row.updatedAt == now
  {
    hide Writes1, Put;
    if Release(db, lease, now).Done? {
      var row := db.tasks[lease.task];
      PutWrites1(db, Write(lease.task, ReleasedRow(row, now),
                           Event(lease.task, Released(lease.worker, row.state), Queued, lease.epoch, now)));
    }
  }

  /** Work may go on exactly for the holder of a task that has neither ended nor been paused. */
  lemma ActiveAnswers(db: Db, lease: Lease, now: real)
    ensures var error := AssertActive(db, lease, now);
            && (error.None? <==> Held(db, lease, now) && db.tasks[lease.task].state !in ENDED + {Paused})
            && (error == Some(TaskNotFound) <==> lease.task !in db.tasks)
            && (error.Some? ==> error.value == TaskNotFound || error.value == StaleLease)
  {
  }

  /** A reservation of the holder is charged exactly below the limit, and touches no row. */
  lemma ReserveAnswers(db: Db, lease: Lease, role: string, limit: int, now: real)
    ensures var spent := |Calls(db.log, lease.task)|;
            var o := ReserveAiCall(db, lease, role, limit, now);
            if limit <= 0 then o == Rejected(BadValue)
            else if lease.task !in db.tasks then o == Rejected(TaskNotFound)
            else if !Held(db, lease, now) then o == Rejected(StaleLease)
            else if spent >= limit then o == Rejected(BudgetExhausted)
            else
              && o.Done? && o.value == spent + 1 && o.db.tasks == db.tasks
              && Writes1(db, o.db, lease.task, AiCallReserved(role, spent + 1, limit), now)
  {
    ReservationsAreCalls(db.log, lease.task);
  }

  /** The places of a task's reservations in the log. */
  function Calls(log: seq<Event>, id: TaskId): set<nat> {
    set i: nat | i < |log| && log[i].task == id && log[i].kind.AiCallReserved?
  }

  lemma {:induction false} ReservationsAreCalls(log: seq<Event>, id: TaskId)
    ensures Reservations(log, id) == |Calls(log, id)|
    decreases |log|
  {
    hide Calls;
    if log == [] {
      NoCalls(id);
    } else {
      ReservationsAreCalls(log[..|log| - 1], id);
      OneCallMore(log, id);
    }
  }

  lemma NoCalls(id: TaskId)
    ensures Calls([], id) == {}
  {
  }

  lemma OneCallMore(log: seq<Event>, id: TaskId)
    requires log != []
    ensures var n := |log| - 1;
            && n !in Calls(log[..n], id)
            && Calls(log, id)
               == Calls(log[..n], id) + if log[n].task == id && log[n].kind.AiCallReserved? then {n} else {}
  {
  }

  /** A release is recorded exactly for a full commit id by the holder of a monitoring task, and touches no row. */
  lemma RecordAnswers(db: Db, lease: Lease, commit: string, now: real)
    ensures var o := RecordReleaseSuccess(db, lease, commit, now);
            if !(|commit| in {40, 64} && forall i :: 0 <= i < |commit| ==> commit[i] in "0123456789abcdef") then
              o == Rejected(BadValue)
            else if lease.task !in db.tasks then o == Rejected(TaskNotFound)
            else if !Held(db, lease, now) then o == Rejected(StaleLease)
            else if db.tasks[lease.task].state != Monitoring then o == Rejected(InvalidTransition)
            else
              && o.Done? && o.db.tasks == db.tasks && Writes1(db, o.db, lease.task, ReleaseSuccess(commit), now)
  {
  }

  // ----- operators -----

  /**
   What an operator asked for is what is stored, except that a task with a possible outside effect ends
   unresolved. Every control takes the lease away and raises the epoch.
   */
  lemma ControlAnswers(db: Db, id: TaskId, action: Action, instruction: Option<string>, now: real)
    ensures var o := Control(db, id, action, instruction, now);
            if (action == Steer && (instruction.None? || Blank(instruction.value)))
               || (action != Steer && instruction.Some?) then o == Rejected(BadValue)
            else if id !in db.tasks then o == Rejected(TaskNotFound)
            else if db.tasks[id].state in ENDED || (action == Resume && db.tasks[id].state != Paused) then
              o == Rejected(InvalidTransition)
            else
              && o.Done?
              && var was, row := db.tasks[id], o.db.tasks[id];
                 var unknown := was.state in EFFECTFUL;
                 && Writes1(db, o.db, id, Controlled(action, was.state, instruction, unknown), now)
                 && (unknown ==> row.state == Unresolved && row.result == Some(ControlInterrupted(action, was.state)))
                 && (!unknown && action == Cancel ==>
                       row.state == Cancelled && row.result == Some(ControlCancelled(was.state)))
                 && (!unknown && action == Pause ==> row.state == Paused && row.result == was.result)
                 && (!unknown && action in {Resume, Steer} ==> row.state == Queued && row.result == was.result)
                 && row.instructions == was.instructions + (if instruction.Some? then [instruction.value] else [])
                 && row.lease.None? && row.epoch == was.epoch + 1 && row.updatedAt == now
  {
    hide Writes1, Put, Blank;
    if Control(db, id, action, instruction, now).Done? {
      var row := db.tasks[id];
      var next := ControlledRow(row, action, instruction, now);
      PutWrites1(db, Write(id, next, Event(id, Controlled(action, row.state, instruction,
        UnknownOutcome(row.state) && !action.Resume?), next.state, next.epoch, now)));
    }
  }

  // ----- creation -----

  /** A creation returns the owner of its idempotency key, or stores one queued task that nobody has touched. */
  lemma CreateAnswers(db: Db, id: TaskId, repository: string, payload: string, key: Option<string>, now: real)
    requires KeysUnique(db.tasks)
    ensures var o := CreateTask(db, id, repository, payload, key, now);
            && (Blank(repository) ==> o == Rejected(BadValue))
            && (!Blank(repository) ==>
                  forall owner :: owner in db.tasks && key.Some? && db.tasks[owner].key == key ==>
                    o == if db.tasks[owner].repository == repository && db.tasks[owner].payload == payload
                         then Done(db, owner) else Rejected(BadValue))
            && (!Blank(repository)
                && (key.None? || forall owner :: owner in db.tasks ==> db.tasks[owner].key != key) ==>
                  if id in db.tasks then o == Rejected(IdCollision)
                  else
                    && o.Done? && o.value == id && o.db.files == db.files
                    && o.db.tasks == db.tasks[id := o.db.tasks[id]]
                    && Untouched(o.db.tasks[id], repository, payload, key, Queued, now)
                    && o.db.log == db.log + [Event(id, Created(None, false), Queued, 0, now)])
  {
  }

  /** A row as it was inserted. */
  predicate Untouched(row: Task, repository: string, payload: string, key: Option<string>, state: State, now: real) {
    && row.repository == repository && row.payload == payload && row.key == key && row.state == state
    && row.createdAt == now && row.updatedAt == now
    && row.instructions == [] && row.result.None? && row.epoch == 0 && row.lease.None?
  }

  // ----- expiry -----

  /** In the order of creation, ties by identifier. */
  ghost predicate InOrder(tasks: map<TaskId, Task>, ids: seq<TaskId>) {
    forall i, j :: 0 <= i < j < |ids| ==>
      && ids[i] in tasks && ids[j] in tasks
      && (tasks[ids[i]].createdAt < tasks[ids[j]].createdAt
          || (tasks[ids[i]].createdAt == tasks[ids[j]].createdAt && ids[i] < ids[j]))
  }

  predicate RanOut(row: Task, now: real) {
    row.lease.Some? && row.lease.value.expires <= now && row.state !in ENDED + {Paused}
  }

  /** A row whose lease was taken back: queued again, or ended as unresolved if it may have had an effect. */
  predicate TakenBack(was: Task, row: Task, now: real) {
    && row.state == (if was.state in EFFECTFUL then Unresolved else Queued)
    && row.result == (if was.state in EFFECTFUL then Some(LeaseLost(was.state)) else was.result)
    && row.lease.None? && row.epoch == was.epoch + 1 && row.updatedAt == now
    && row.instructions == was.instructions && row.repository == was.repository && row.payload == was.payload
    && row.key == was.key && row.createdAt == was.createdAt
  }

  /** Recovery takes back exactly the leases that ran out, oldest task first, and leaves every other row alone. */
  lemma RecoverAnswers(db: Db, now: real)
    ensures var o := RecoverExpired(db, now);
            && o.Done? && o.db.files == db.files && o.db.tasks.Keys == db.tasks.Keys
            && InOrder(db.tasks, o.value)
            && (forall t :: t in o.value <==> t in db.tasks && RanOut(db.tasks[t], now))
            && (forall t :: t in db.tasks ==>
                  if RanOut(db.tasks[t], now) then TakenBack(db.tasks[t], o.db.tasks[t], now)
                  else o.db.tasks[t] == db.tasks[t])
  {
    var o := RecoverExpired(db, now);
    RecoveredInOrder(db, now);
    RecoveredLog(db, now);
    hide RecoverExpired, TakenBack, RanOut, InOrder, RecoverWrite;
    forall t | t in db.tasks || t in o.db.tasks
      ensures t in db.tasks && t in o.db.tasks
      ensures if RanOut(db.tasks[t], now) then TakenBack(db.tasks[t], o.db.tasks[t], now)
              else o.db.tasks[t] == db.tasks[t]
    {
      RecoveredRowAt(db, now, t);
      if t in db.tasks { RecoveredIsTakenBack(db.tasks[t], t, now); }
    }
  }

  /** Each lease taken back is logged, in that order, with its holder and whether an operator must look at it. */
  lemma RecoveryIsLogged(db: Db, now: real)
    ensures var o := RecoverExpired(db, now);
            && |o.db.log| == |db.log| + |o.value| && db.log <= o.db.log
            && forall i :: 0 <= i < |o.value| ==>
                 && o.value[i] in db.tasks
                 && var was := db.tasks[o.value[i]];
                    o.db.log[|db.log| + i]
                    == Event(o.value[i], LeaseExpired(was.lease, was.state, was.state in EFFECTFUL),
                             if was.state in EFFECTFUL then Unresolved else Queued, was.epoch + 1, now)
  {
    var o := RecoverExpired(db, now);
    RecoveredInOrder(db, now);
    RecoveredLog(db, now);
    hide RecoverExpired, RecoverWrite, RanOut, InOrder;
    forall i | 0 <= i < |o.value|
      ensures && o.value[i] in db.tasks
              && var was := db.tasks[o.value[i]];
                 o.db.log[|db.log| + i]
                 == Event(o.value[i], LeaseExpired(was.lease, was.state, was.state in EFFECTFUL),
                          if was.state in EFFECTFUL then Unresolved else Queued, was.epoch + 1, now)
    {
      assert o.value[i] in o.value;
      RecoveredIsTakenBack(db.tasks[o.value[i]], o.value[i], now);
    }
  }

  lemma RecoveredLog(db: Db, now: real)
    ensures var o := RecoverExpired(db, now);
            && o.Done? && o.db.files == db.files
            && (forall t :: t in o.value ==> t in db.tasks)
            && o.db.log == db.log + Events(RecoverWrites(db.tasks, o.value, now))
  {
    hide RecoverWrite;
    PutAllLog(db, RecoverWrites(db.tasks, RecoverExpired(db, now).value, now));
  }

  lemma RecoveredInOrder(db: Db, now: real)
    ensures var ids := RecoverExpired(db, now).value;
            InOrder(db.tasks, ids) && forall t :: t in ids <==> t in db.tasks && RanOut(db.tasks[t], now)
  {
  }

  lemma RecoveredRowAt(db: Db, now: real, t: TaskId)
    ensures var o := RecoverExpired(db, now);
            RowOf(o.db, t) == if t in o.value then Some(RecoverWrite(db.tasks[t], t, now).row) else RowOf(db, t)
  {
    hide RecoverWrite, Legal;
    var ids := RecoverExpired(db, now).value;
    var ws := RecoverWrites(db.tasks, ids, now);
    RecoverIsBatch(db, now);
    RecoverNames(db, now);
    if i :| 0 <= i < |ids| && ids[i] == t {
      PutAllAt(db, ws, i);
    } else {
      PutAllOther(db, ws, t);
    }
  }

  lemma RecoverNames(db: Db, now: real)
    ensures var ids := RecoverExpired(db, now).value;
            forall i :: 0 <= i < |ids| ==> RecoverWrites(db.tasks, ids, now)[i].id == ids[i]
  {
  }

  lemma RecoveredIsTakenBack(was: Task, id: TaskId, now: real)
    ensures TakenBack(was, RecoverWrite(was, id, now).row, now)
    ensures RecoverWrite(was, id, now).event
        == Event(id, LeaseExpired(was.lease, was.state, was.state in EFFECTFUL),
                 if was.state in EFFECTFUL then Unresolved else Queued, was.epoch + 1, now)
  {
  }

  // ----- deliveries -----

  /** The canonical delivery of the replay key that the request names, if there is one. */
  predicate Replays(db: Db, r: Request, canonical: DeliveryKey) {
    && r.replay.Some?
    && ReplayKey(r.provider, r.repository, r.replay.value) in db.files.replays
    && canonical == DeliveryKey(r.provider, db.files.replays[ReplayKey(r.provider, r.repository, r.replay.value)])
    && canonical in db.files.deliveries
  }

  /** The delivery was made before, by its own identifier or under its replay key. */
  ghost predicate Repeated(db: Db, r: Request) {
    DeliveryKey(r.provider, r.delivery) in db.files.deliveries || exists c :: Replays(db, r, c)
  }

  /** The group has moved on since the caller looked. */
  predicate Outpaced(db: Db, r: Request) {
    && r.group.Some? && r.expected.Some?
    && var scope := Scope(r.repository, r.group.value);
       r.expected.value != if scope in db.files.groups then db.files.groups[scope] else 0
  }

  predicate Misshaped(r: Request) { r.expected.Some? && (r.expected.value < 0 || r.group.None?) }

  /** A new delivery is refused exactly when it is misshaped, outpaced or its identifier is taken. */
  lemma NewDeliveriesAnswer(db: Db, r: Request, id: TaskId, now: real)
    requires !Repeated(db, r)
    ensures var o := Ingest(db, r, id, now);
            if Misshaped(r) then o == Rejected(BadValue)
            else if Outpaced(db, r) then o == Rejected(EventConflict)
            else if r.payload.Some? && id in db.tasks then o == Rejected(IdCollision)
            else o.Done? && !o.value.duplicate && Accepts(db, r, id)
  {
    assert Known(db.files, r).Some? ==> Replays(db, r, Known(db.files, r).value);
  }

  /**
   A repeated delivery is answered with the receipt of the first one exactly if it says the same; it writes
   no task, event, group, member or replay key.
   */
  lemma RepeatedDeliveriesAnswer(db: Db, r: Request, id: TaskId, now: real, canonical: DeliveryKey)
    requires !Misshaped(r)
    requires var key := DeliveryKey(r.provider, r.delivery);
             if key in db.files.deliveries then canonical == key else Replays(db, r, canonical)
    ensures var key, first := DeliveryKey(r.provider, r.delivery), db.files.deliveries[canonical];
            var known := canonical == key;
            var o := Ingest(db, r, id, now);
            if first.body != r.body || (known && first.repository != r.repository)
               || (known && key in db.files.aliases && r.replay != Some(db.files.aliases[key])) then
              o == Rejected(EventConflict)
            else
              && o.Done? && o.value.duplicate && o.value.key == key
              && o.value.delivery == Delivery(r.body, r.repository, first.slot, first.task)
              && o.db.tasks == db.tasks && o.db.log == db.log
              && o.db.files.groups == db.files.groups && o.db.files.members == db.files.members
              && o.db.files.replays == db.files.replays
              && (known ==> o.db == db)
              && (known || (
                && o.value.replay == r.replay
                && o.db.files.deliveries == db.files.deliveries[key := o.value.delivery]
                && o.db.files.aliases == db.files.aliases[key := r.replay.value]))
  {
  }

  /** A task of the delivery's group that has not ended. */
  predicate Outdates(db: Db, r: Request, t: TaskId) {
    && r.group.Some? && t in db.tasks && t in db.files.members
    && db.files.members[t].scope == Scope(r.repository, r.group.value)
    && db.tasks[t].state !in ENDED
  }

  /** What replaces it must wait for an operator. */
  predicate NeedsOperator(state: State) { state == Paused || state in EFFECTFUL }

  /** What the delivery records about itself, and the group version that it makes. */
  function Cause(db: Db, r: Request): Origin {
    var scope := Scope(r.repository, if r.group.Some? then r.group.value else "");
    var current := if scope in db.files.groups then db.files.groups[scope] else 0;
    Origin(r.provider, r.delivery, r.group, if r.group.Some? then Some(current + 1) else None)
  }

  function Replacement(r: Request, id: TaskId): Option<TaskId> { if r.payload.Some? then Some(id) else None }

  lemma OutdatedIs(db: Db, r: Request, t: TaskId)
    ensures t in Outdated(db, r) <==> Outdates(db, r, t)
  {
  }

  /**
   The task of an accepted delivery starts paused exactly if a task of its group that had not ended was
   paused or may have had an effect outside, and queued otherwise.
   */
  lemma NewTasksStart(db: Db, r: Request, id: TaskId, now: real)
    requires Accepts(db, r, id) && r.payload.Some?
    ensures var o := Ingest(db, r, id, now);
            var waits := exists t :: Outdates(db, r, t) && NeedsOperator(db.tasks[t].state);
            && o.Done? && id !in db.tasks && id in o.db.tasks
            && Untouched(o.db.tasks[id], r.repository, r.payload.value, None, if waits then Paused else Queued, now)
            && (r.group.None? ==> o.db.tasks[id].state == Queued)
  {
    hide Accepts, Outdates, Inv;
    var step := IngestStep(r, id, now);
    IngestCases(db, r, id, now);
    AcceptRows(db, r, id, now);
    WaitsIff(db, r);
  }

  lemma WaitsIff(db: Db, r: Request)
    ensures StartsPaused(db, Outdated(db, r)) <==>
        exists t :: Outdates(db, r, t) && NeedsOperator(db.tasks[t].state)
    ensures Reconciles(db, Outdated(db, r)) <==>
        exists t :: Outdates(db, r, t) && db.tasks[t].state in EFFECTFUL
  {
    forall t ensures t in Outdated(db, r) <==> Outdates(db, r, t) { OutdatedIs(db, r, t); }
  }

  /** A row that a newer delivery ended, with the reason as its result. */
  predicate Replaced(was: Task, row: Task, origin: Origin, replacement: Option<TaskId>, now: real) {
    && row.state == (if was.state in EFFECTFUL then Unresolved else Cancelled)
    && row.result == Some(SupersededBy(origin, replacement, was.state, was.state in EFFECTFUL))
    && row.lease.None? && row.epoch == was.epoch + 1 && row.updatedAt == now
    && row.instructions == was.instructions && row.repository == was.repository && row.payload == was.payload
    && row.key == was.key && row.createdAt == was.createdAt
  }

  lemma SupersededIsReplaced(was: Task, id: TaskId, origin: Origin, replacement: Option<TaskId>, now: real)
    ensures var w := SupersedeWrite(was, id, origin, replacement, now);
            && w.id == id && Replaced(was, w.row, origin, replacement, now)
            && w.event == Event(id, Superseded(w.row.result.value), w.row.state, was.epoch + 1, now)
  {
  }

  /** An accepted delivery ends every task of its group that has not ended, and no other row changes. */
  lemma DeliveriesReplace(db: Db, r: Request, id: TaskId, now: real, t: TaskId)
    requires Accepts(db, r, id) && t in db.tasks
    ensures var o := Ingest(db, r, id, now);
            && o.Done? && t in o.db.tasks
            && if Outdates(db, r, t) then Replaced(db.tasks[t], o.db.tasks[t], Cause(db, r), Replacement(r, id), now)
               else o.db.tasks[t] == db.tasks[t]
  {
    var ids := Sorted(db.tasks, Outdated(db, r));
    var ws := AcceptWrites(db, r, id, now);
    AcceptedWrites(db, r, id, now);
    AcceptIsBatch(db, r, id, now) by { hide Ingest; }
    OutdatedIs(db, r, t);
    hide Accepts, Outdates, Replaced, SupersedeWrite, Outdated, Sorted, Legal, Ingest, AcceptWrites, CreatedWrite,
      Cause;
    if i :| 0 <= i < |ids| && ids[i] == t {
      SupersededIsReplaced(db.tasks[t], t, Cause(db, r), Replacement(r, id), now);
      PutAllAt(db, ws, i);
    } else {
      NotWritten(db, r, id, now, t);
      PutAllOther(db, ws, t);
    }
  }

  /** The writes of an accepted delivery, in order. */
  lemma AcceptedWrites(db: Db, r: Request, id: TaskId, now: real)
    requires Accepts(db, r, id)
    ensures var o := Ingest(db, r, id, now);
            var ids := Sorted(db.tasks, Outdated(db, r));
            var ws := AcceptWrites(db, r, id, now);
            && o.Done? && o.db.tasks == PutAll(db, ws).tasks && o.db.log == db.log + Events(ws)
            && (forall t :: t in ids ==> t in db.tasks)
            && |ws| == |ids| + (if r.payload.Some? then 1 else 0)
            && (forall i :: 0 <= i < |ids| ==>
                  ws[i] == SupersedeWrite(db.tasks[ids[i]], ids[i], Cause(db, r), Replacement(r, id), now))
            && (r.payload.Some? ==>
                  && ws[|ids|].id == id
                  && ws[|ids|].event == Event(id, Created(Some(Cause(db, r)), Reconciles(db, Outdated(db, r))),
                                              ws[|ids|].row.state, 0, now))
  {
    hide SupersedeWrite, Reconciles, StartsPaused, Outdated, Sorted, Legal;
    PutAllLog(db, AcceptWrites(db, r, id, now));
  }

  lemma NotWritten(db: Db, r: Request, id: TaskId, now: real, t: TaskId)
    requires Accepts(db, r, id) && t in db.tasks && t !in Sorted(db.tasks, Outdated(db, r))
    ensures t !in Outdated(db, r)
    ensures var ws := AcceptWrites(db, r, id, now); forall i :: 0 <= i < |ws| ==> ws[i].id != t
  {
  }

  /** No row appears but the delivery's own task. */
  lemma OnlyOneAppears(db: Db, r: Request, id: TaskId, now: real)
    requires Accepts(db, r, id)
    ensures Ingest(db, r, id, now).db.tasks.Keys == db.tasks.Keys + if r.payload.Some? then {id} else {}
  {
    var step := IngestStep(r, id, now);
    var next := Apply(db, step);
    IngestCases(db, r, id, now);
    AcceptRows(db, r, id, now);
    forall t ensures t in next.tasks <==> t in db.tasks || (r.payload.Some? && t == id) {
      if t in db.tasks {
        DeliveriesReplace(db, r, id, now, t);
      } else if t in next.tasks {
        StepIsBatched(db, step);
        BatchAt(db, Writes(db, step), t);
        NewRowKey(db, step, t);
      }
    }
  }

  /** The supersessions are logged first, oldest task first, each with its cause. */
  lemma SupersessionsAreLogged(db: Db, r: Request, id: TaskId, now: real)
    requires Accepts(db, r, id)
    ensures var o := Ingest(db, r, id, now);
            var ids := Sorted(db.tasks, Outdated(db, r));
            && InOrder(db.tasks, ids) && (forall t :: t in ids <==> Outdates(db, r, t))
            && |o.db.log| == |db.log| + |ids| + (if r.payload.Some? then 1 else 0) && db.log <= o.db.log
            && forall i :: 0 <= i < |ids| ==> LoggedAs(db, r, id, now, ids[i], o.db.log[|db.log| + i])
  {
    var ids := Sorted(db.tasks, Outdated(db, r));
    var ws := AcceptWrites(db, r, id, now);
    AcceptedWrites(db, r, id, now);
    SortedInOrder(db, Outdated(db, r));
    forall t ensures t in ids <==> Outdates(db, r, t) { OutdatedIs(db, r, t); }
    hide Accepts, Outdates, InOrder, SupersedeWrite, Outdated, Sorted, Ingest, AcceptWrites, Cause, LoggedAs;
    forall i | 0 <= i < |ids| ensures LoggedAs(db, r, id, now, ids[i], ws[i].event) {
      assert ids[i] in ids;
      SupersededIsLogged(db, r, id, now, ids[i]);
    }
  }

  /** The event of a task that the delivery superseded. */
  predicate LoggedAs(db: Db, r: Request, id: TaskId, now: real, t: TaskId, event: Event) {
    && t in db.tasks
    && var was := db.tasks[t];
       var unknown := was.state in EFFECTFUL;
       event == Event(t, Superseded(SupersededBy(Cause(db, r), Replacement(r, id), was.state, unknown)),
                      if unknown then Unresolved else Cancelled, was.epoch + 1, now)
  }

  lemma SupersededIsLogged(db: Db, r: Request, id: TaskId, now: real, t: TaskId)
    requires t in db.tasks
    ensures LoggedAs(db, r, id, now, t, SupersedeWrite(db.tasks[t], t, Cause(db, r), Replacement(r, id), now).event)
  {
  }

  /** The creation is logged last, with its cause and whether an operator must look at what it replaces. */
  lemma CreationIsLogged(db: Db, r: Request, id: TaskId, now: real)
    requires Accepts(db, r, id) && r.payload.Some?
    ensures var o := Ingest(db, r, id, now);
            var unknown := exists t :: Outdates(db, r, t) && db.tasks[t].state in EFFECTFUL;
            && id in o.db.tasks && o.db.log != []
            && o.db.log[|o.db.log| - 1] == Event(id, Created(Some(Cause(db, r)), unknown), o.db.tasks[id].state, 0, now)
  {
    var ws := AcceptWrites(db, r, id, now);
    AcceptedWrites(db, r, id, now);
    WaitsIff(db, r);
    CreatedLands(db, r, id, now);
    hide Accepts, Outdates, SupersedeWrite, Outdated, Sorted, Ingest, AcceptWrites, Cause, Reconciles;
    assert Events(ws)[|ws| - 1] == ws[|ws| - 1].event;
  }

  lemma SortedInOrder(db: Db, ids: set<TaskId>)
    requires ids <= db.tasks.Keys
    ensures InOrder(db.tasks, Sorted(db.tasks, ids))
  {
  }

  lemma CreatedLands(db: Db, r: Request, id: TaskId, now: real)
    requires Accepts(db, r, id) && r.payload.Some?
    ensures var ws := AcceptWrites(db, r, id, now);
            ws != [] && RowOf(Ingest(db, r, id, now).db, id) == Some(ws[|ws| - 1].row)
  {
    var ws := AcceptWrites(db, r, id, now);
    AcceptedWrites(db, r, id, now);
    AcceptIsBatch(db, r, id, now) by { hide Ingest; }
    hide Ingest, AcceptWrites, SupersedeWrite, Legal;
    PutAllAt(db, ws, |ws| - 1);
  }

  /** What an accepted delivery files: the next version of its group, its member, its receipt, its replay key. */
  lemma DeliveriesAreFiled(db: Db, r: Request, id: TaskId, now: real)
    requires Accepts(db, r, id)
    ensures var o := Ingest(db, r, id, now);
            var was, files := db.files, o.db.files;
            var key, cause := DeliveryKey(r.provider, r.delivery), Cause(db, r);
            var scope := Scope(r.repository, if r.group.Some? then r.group.value else "");
            && o.value.key == key && o.value.delivery == files.deliveries[key] && !o.value.duplicate
            && files.deliveries == was.deliveries[key := files.deliveries[key]]
            && files.deliveries[key].body == r.body && files.deliveries[key].repository == r.repository
            && files.deliveries[key].task == Replacement(r, id)
            && files.deliveries[key].slot
               == (if r.group.Some? then Some(Slot(r.group.value, cause.version.value)) else None)
            && files.groups == (if r.group.Some? then was.groups[scope := cause.version.value] else was.groups)
            && files.members == (if r.group.Some? && r.payload.Some?
                                 then was.members[id := Membership(scope, cause.version.value)] else was.members)
            && files.aliases == (if r.replay.Some? then was.aliases[key := r.replay.value] else was.aliases)
            && files.replays
               == (if r.replay.Some?
                   then was.replays[ReplayKey(r.provider, r.repository, r.replay.value) := r.delivery] else was.replays)
  {
  }

  // ----- every end has its cause -----

  /** The step ended the task: on whose word, as what and with which result. */
  ghost predicate EndedBy(db: Db, step: Step, id: TaskId, row: Task)
    requires id in db.tasks
  {
    var was := db.tasks[id];
    match step
    case MoveStep(lease, state, details, now) =>
      && lease.task == id && Held(db, lease, now)
      && state in ENDED && row.state == state && row.result == Some(Reported(details))
    case ControlStep(task, action, _, _) =>
      && task == id
      && if was.state in EFFECTFUL then
           row.state == Unresolved && row.result == Some(ControlInterrupted(action, was.state))
         else action == Cancel && row.state == Cancelled && row.result == Some(ControlCancelled(was.state))
    case RecoverStep(now) => was.state in EFFECTFUL && RanOut(was, now) && TakenBack(was, row, now)
    case IngestStep(r, made, now) =>
      && Accepts(db, r, made) && Outdates(db, r, id)
      && Replaced(was, row, Cause(db, r), Replacement(r, made), now)
    case _ => false
  }

  lemma EndsBecause(db: Db, step: Step, id: TaskId)
    requires id in db.tasks && db.tasks[id].state !in ENDED && KeysUnique(db.tasks)
    ensures id in Apply(db, step).tasks
    ensures Apply(db, step).tasks[id].state in ENDED ==> EndedBy(db, step, id, Apply(db, step).tasks[id])
  {
    hide Held, TakenBack, RanOut, Outdates, Replaced, Move, Control, RecoverExpired, Ingest, Accepts, KeysUnique,
      CreateTask, Claim, Renew, Release, ReserveAiCall, RecordReleaseSuccess, Cause;
    match step {
      case MoveStep(lease, state, details, now) => MoveAnswers(db, lease, state, details, now);
      case ControlStep(task, action, instruction, now) => ControlAnswers(db, task, action, instruction, now);
      case RecoverStep(now) => RecoverEnds(db, now, id);
      case IngestStep(r, made, now) => IngestEnds(db, r, made, now, id);
      case CreateStep(made, repository, payload, key, now) => CreateEndsNothing(db, step, id);
      case ClaimStep(task, worker, now, ttl) => ClaimAnswers(db, task, worker, now, ttl);
      case RenewStep(lease, now, ttl) => RenewAnswers(db, lease, now, ttl);
      case ReleaseStep(lease, now) => ReleaseAnswers(db, lease, now);
      case ReserveStep(lease, role, limit, now) => ReserveAnswers(db, lease, role, limit, now);
      case RecordStep(lease, commit, now) => RecordAnswers(db, lease, commit, now);
    }
  }

  lemma CreateEndsNothing(db: Db, step: Step, id: TaskId)
    requires step.CreateStep? && id in db.tasks
    ensures id in Apply(db, step).tasks && Apply(db, step).tasks[id] == db.tasks[id]
  {
  }

  lemma RecoverEnds(db: Db, now: real, id: TaskId)
    requires id in db.tasks && db.tasks[id].state !in ENDED
    ensures var next := Apply(db, RecoverStep(now));
            id in next.tasks
            && (next.tasks[id].state in ENDED ==> EndedBy(db, RecoverStep(now), id, next.tasks[id]))
  {
    hide RecoverExpired, RanOut;
    RecoverAnswers(db, now);
  }

  lemma IngestEnds(db: Db, r: Request, made: TaskId, now: real, id: TaskId)
    requires id in db.tasks && db.tasks[id].state !in ENDED
    ensures var next := Apply(db, IngestStep(r, made, now));
            id in next.tasks
            && (next.tasks[id].state in ENDED ==> EndedBy(db, IngestStep(r, made, now), id, next.tasks[id]))
  {
    hide Ingest, Accepts, Outdates, Replaced, Cause;
    IngestCases(db, r, made, now);
    if Accepts(db, r, made) {
      DeliveriesReplace(db, r, made, now, id);
    }
  }

  /** The step `i` of the run ended the task, which from then on has this row. */
  ghost predicate EndedAt(steps: seq<Step>, i: nat, id: TaskId, row: Task) {
    && i < |steps|
    && var db := Run(EMPTY, steps[..i]);
       id in db.tasks && db.tasks[id].state !in ENDED && EndedBy(db, steps[i], id, row)
  }

  /**
   Over whole runs, no task ends without its cause: completed and failed are what the holder of the live
   lease asked for, with its report as result; cancelled and unresolved are that, an operator's control, a
   lease that ran out, or a newer delivery, each exactly where it applies and each named in the result.
   */
  lemma {:induction false} EveryEndHasItsCause(steps: seq<Step>, id: TaskId)
    requires id in Run(EMPTY, steps).tasks && Run(EMPTY, steps).tasks[id].state in ENDED
    ensures exists i: nat :: EndedAt(steps, i, id, Run(EMPTY, steps).tasks[id])
    decreases |steps|
  {
    hide Apply, EndedBy, Inv, RowInv, KeysUnique;
    if steps != [] {
      var n := |steps| - 1;
      var first, db := steps[..n], Run(EMPTY, steps[..n]);
      LastStep(steps);
      EmptyInv();
      RunKeepsInv(EMPTY, first);
      InvParts(db);
      if id !in db.tasks {
        AppearsLive(db, steps[n], id);
      } else if db.tasks[id].state in ENDED {
        EveryEndHasItsCause(first, id);
        StepOnRow(db, steps[n], id);
        var i: nat :| EndedAt(first, i, id, db.tasks[id]);
        assert steps[..i] == first[..i];
        assert EndedAt(steps, i, id, db.tasks[id]);
      } else {
        EndsBecause(db, steps[n], id);
        assert EndedAt(steps, n, id, Run(EMPTY, steps).tasks[id]);
      }
    }
  }

  lemma LastStep(steps: seq<Step>)
    requires steps != []
    ensures Run(EMPTY, steps) == Apply(Run(EMPTY, steps[..|steps| - 1]), steps[|steps| - 1])
  {
    hide Apply;
    var first, last := steps[..|steps| - 1], steps[|steps| - 1];
    assert steps == first + [last];
    RunAppend(EMPTY, first, [last]);
    assert Run(Run(EMPTY, first), [last]) == Apply(Run(EMPTY, first), last) by { assert [last][1..] == []; }
  }

  lemma InvParts(db: Db)
    requires Inv(db)
    ensures RowInv(db) && KeysUnique(db.tasks)
  {
  }

  lemma AppearsLive(db: Db, step: Step, id: TaskId)
    requires id !in db.tasks && id in Apply(db, step).tasks
    ensures Apply(db, step).tasks[id].state !in ENDED
  {
    hide Apply, Writes, Batch;
    StepIsBatched(db, step);
    BatchAt(db, Writes(db, step), id);
  }
}
