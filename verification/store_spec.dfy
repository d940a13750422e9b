/**
 The control store as a value: the tables of the database and, for every transaction, the database
 it commits or the error that rolls it back. Class `ControlStore.Store` is proved against these.
 */
module StoreSpec {
  import opened Wrappers
  import opened Rows

  datatype DeliveryKey = DeliveryKey(provider: string, delivery: string)
  datatype ReplayKey = ReplayKey(provider: string, repository: string, digest: string)

  /** Group key and group version are both null or both present in `provider_deliveries`. */
  datatype Slot = Slot(group: string, version: nat)
  datatype Delivery = Delivery(body: string, repository: string, slot: Option<Slot>, task: Option<TaskId>)
  datatype Membership = Membership(scope: Scope, version: nat)

  /** The tables only `ingest_event` writes: event_groups, event_task_groups and the three provider tables. */
  datatype Files = Files(
    groups: map<Scope, nat>,
    members: map<TaskId, Membership>,
    deliveries: map<DeliveryKey, Delivery>,
    replays: map<ReplayKey, string>,
    aliases: map<DeliveryKey, string>)

  datatype Db = Db(tasks: map<TaskId, Task>, log: seq<Event>, files: Files)

  const EMPTY := Db(map[], [], Files(map[], map[], map[], map[], map[]))

  datatype Error =
    | BadValue | TaskNotFound | LeaseConflict | StaleLease | InvalidTransition | EventConflict
    | BudgetExhausted | IdCollision

  datatype Outcome<+T> = Done(db: Db, value: T) | Rejected(error: Error)

  /** The database after a transaction: a rejected one is rolled back. */
  function After<T>(db: Db, outcome: Outcome<T>): Db {
    if outcome.Done? then outcome.db else db
  }

  function Put(db: Db, w: Write): Db {
    db.(tasks := db.tasks[w.id := w.row], log := db.log + [w.event])
  }

  function PutAll(db: Db, ws: seq<Write>): Db
    decreases |ws|
  {
    if ws == [] then db else PutAll(Put(db, ws[0]), ws[1..])
  }

  // ----- query order: created_at, then id -----

  predicate Before(tasks: map<TaskId, Task>, a: TaskId, b: TaskId)
    requires a in tasks && b in tasks
  {
    tasks[a].createdAt < tasks[b].createdAt || (tasks[a].createdAt == tasks[b].createdAt && a < b)
  }

  predicate Least(tasks: map<TaskId, Task>, ids: set<TaskId>, a: TaskId)
    requires ids <= tasks.Keys
  {
    a in ids && forall b :: b in ids && b != a ==> Before(tasks, a, b)
  }

  lemma {:induction false} LeastExists(tasks: map<TaskId, Task>, ids: set<TaskId>)
    requires ids != {} && ids <= tasks.Keys
    ensures exists a :: Least(tasks, ids, a)
    decreases |ids|
  {
    var a :| a in ids;
    var rest := ids - {a};
    assert forall c :: c in ids && c != a ==> c in rest;
    if rest != {} {
      LeastExists(tasks, rest);
      var b :| Least(tasks, rest, b);
      if Before(tasks, b, a) {
        assert Least(tasks, ids, b);
      } else {
        assert Least(tasks, ids, a);
      }
    } else {
      assert Least(tasks, ids, a);
    }
  }

  ghost function First(tasks: map<TaskId, Task>, ids: set<TaskId>): (a: TaskId)
    requires ids != {} && ids <= tasks.Keys
    ensures Least(tasks, ids, a)
  {
    LeastExists(tasks, ids);
    var a :| Least(tasks, ids, a);
    a
  }

  /** The rows of a query `ORDER BY created_at, id`. */
  ghost function Sorted(tasks: map<TaskId, Task>, ids: set<TaskId>): (order: seq<TaskId>)
    requires ids <= tasks.Keys
    ensures forall id :: id in order <==> id in ids
    ensures forall i, j :: 0 <= i < j < |order| ==>
        order[i] in tasks && order[j] in tasks && Before(tasks, order[i], order[j])
    decreases |ids|
  {
    if ids == {} then []
    else
      var a := First(tasks, ids);
      [a] + Sorted(tasks, ids - {a})
  }

  // ----- create_task -----

  predicate KeyTaken(db: Db, key: string) {
    exists id | id in db.tasks :: db.tasks[id].key == Some(key)
  }

  ghost function CreateTask(
      db: Db, id: TaskId, repository: string, payload: string, key: Option<string>, now: real): Outcome<TaskId> {
    if Blank(repository) then Rejected(BadValue)
    else if key.Some? && KeyTaken(db, key.value) then
      var owner :| owner in db.tasks && db.tasks[owner].key == key;
      if db.tasks[owner].repository != repository || db.tasks[owner].payload != payload then Rejected(BadValue)
      else Done(db, owner)
    else if id in db.tasks then Rejected(IdCollision)
    else
      Done(Put(db, CreatedWrite(id, NewRow(repository, payload, key, Queued, now), None, false)), id)
  }

  function CreatedWrite(id: TaskId, row: Task, origin: Option<Origin>, reconcile: bool): Write {
    Write(id, row, Event(id, Created(origin, reconcile), row.state, 0, row.createdAt))
  }

  // ----- leases -----

  predicate RepositoryBusy(db: Db, id: TaskId, repository: string, now: real) {
    exists other | other in db.tasks ::
      other != id && db.tasks[other].repository == repository && LiveAt(db.tasks[other], now)
  }

  function Claim(db: Db, id: TaskId, worker: string, now: real, ttl: int): Outcome<Lease> {
    if ttl <= 0 || Blank(worker) then Rejected(BadValue)
    else if id !in db.tasks then Rejected(TaskNotFound)
    else
      var row := db.tasks[id];
      if !row.state.Queued? || LiveAt(row, now) || RepositoryBusy(db, id, row.repository, now) then
        Rejected(LeaseConflict)
      else
        var expires := now + ttl as real;
        var replaced := if row.lease.Some? then Some(row.lease.value.worker) else None;
        Done(Put(db, Write(id, ClaimedRow(row, worker, expires, now),
                           Event(id, Claimed(worker, expires, replaced), Queued, row.epoch + 1, now))),
             Lease(id, worker, row.epoch + 1, expires))
  }

  function Renew(db: Db, lease: Lease, now: real, ttl: int): Outcome<Lease> {
    if ttl <= 0 then Rejected(BadValue)
    else if lease.task !in db.tasks then Rejected(TaskNotFound)
    else
      var row := db.tasks[lease.task];
      if !ValidLease(row, lease, now) then Rejected(StaleLease)
      else
        var expires := now + ttl as real;
        Done(Put(db, Write(lease.task, RenewedRow(row, expires, now),
                           Event(lease.task, LeaseRenewed(lease.worker, expires), row.state, lease.epoch, now))),
             lease.(expires := expires))
  }

  /** `assert_active`: a read, so only its verdict matters. */
  function AssertActive(db: Db, lease: Lease, now: real): Option<Error> {
    if lease.task !in db.tasks then Some(TaskNotFound)
    else
      var row := db.tasks[lease.task];
      if !ValidLease(row, lease, now) || Terminal(row.state) || row.state.Paused? then Some(StaleLease)
      else None
  }

  function Reservations(log: seq<Event>, id: TaskId): nat {
    if log == [] then 0
    else
      Reservations(log[..|log| - 1], id)
      + (if log[|log| - 1].task == id && log[|log| - 1].kind.AiCallReserved? then 1 else 0)
  }

  function ReserveAiCall(db: Db, lease: Lease, role: string, limit: int, now: real): Outcome<nat> {
    if limit <= 0 then Rejected(BadValue)
    else if lease.task !in db.tasks then Rejected(TaskNotFound)
    else
      var row := db.tasks[lease.task];
      if !ValidLease(row, lease, now) then Rejected(StaleLease)
      else
        var count := Reservations(db.log, lease.task);
        if count >= limit then Rejected(BudgetExhausted)
        else
          Done(Put(db, Write(lease.task, row,
                             Event(lease.task, AiCallReserved(role, count + 1, limit), row.state, lease.epoch, now))),
               count + 1)
  }

  /** Forty or sixty-four lower-case hexadecimal digits. */
  predicate CommitSha(commit: string) {
    && (|commit| == 40 || |commit| == 64)
    && forall i :: 0 <= i < |commit| ==> commit[i] in "0123456789abcdef"
  }

  function RecordReleaseSuccess(db: Db, lease: Lease, commit: string, now: real): Outcome<()> {
    if !CommitSha(commit) then Rejected(BadValue)
    else if lease.task !in db.tasks then Rejected(TaskNotFound)
    else
      var row := db.tasks[lease.task];
      if !ValidLease(row, lease, now) then Rejected(StaleLease)
      else if !row.state.Monitoring? then Rejected(InvalidTransition)
      else
        Done(Put(db, Write(lease.task, row,
                           Event(lease.task, ReleaseSuccess(commit), Monitoring, lease.epoch, now))), ())
  }

  function Move(db: Db, lease: Lease, state: State, details: string, now: real): Outcome<()> {
    if state.Queued? || state.Paused? then Rejected(InvalidTransition)
    else if lease.task !in db.tasks then Rejected(TaskNotFound)
    else
      var row := db.tasks[lease.task];
      if !ValidLease(row, lease, now) then Rejected(StaleLease)
      else if Terminal(row.state) || row.state.Paused? then Rejected(InvalidTransition)
      else
        Done(Put(db, Write(lease.task, MovedRow(row, state, details, now),
                           Event(lease.task, Transition(details), state, lease.epoch, now))), ())
  }

  function Release(db: Db, lease: Lease, now: real): Outcome<()> {
    if lease.task !in db.tasks then Rejected(TaskNotFound)
    else
      var row := db.tasks[lease.task];
      if !ValidLease(row, lease, now) || Terminal(row.state) || row.state.Paused? then Rejected(StaleLease)
      else
        Done(Put(db, Write(lease.task, ReleasedRow(row, now),
                           Event(lease.task, Released(lease.worker, row.state), Queued, lease.epoch, now))), ())
  }

  // ----- operator control -----

  predicate ControlShape(action: Action, instruction: Option<string>) {
    if action.Steer? then instruction.Some? && !Blank(instruction.value) else instruction.None?
  }

  function Control(db: Db, id: TaskId, action: Action, instruction: Option<string>, now: real): Outcome<()> {
    if !ControlShape(action, instruction) then Rejected(BadValue)
    else if id !in db.tasks then Rejected(TaskNotFound)
    else
      var row := db.tasks[id];
      if Terminal(row.state) || (action.Resume? && !row.state.Paused?) then Rejected(InvalidTransition)
      else
        var next := ControlledRow(row, action, instruction, now);
        var unknown := UnknownOutcome(row.state) && !action.Resume?;
        Done(Put(db, Write(id, next, Event(id, Controlled(action, row.state, instruction, unknown),
                                           next.state, next.epoch, now))), ())
  }

  // ----- expiry recovery -----

  /** The rows `recover_expired` selects and does not skip. */
  function Expired(db: Db, now: real): set<TaskId> {
    set id | id in db.tasks && db.tasks[id].lease.Some? && db.tasks[id].lease.value.expires <= now
             && !Terminal(db.tasks[id].state) && !db.tasks[id].state.Paused?
  }

  function RecoverWrite(row: Task, id: TaskId, now: real): Write {
    var next := RecoveredRow(row, now);
    Write(id, next, Event(id, LeaseExpired(row.lease, row.state, UnknownOutcome(row.state)), next.state, next.epoch,
      now))
  }

  function RecoverWrites(tasks: map<TaskId, Task>, ids: seq<TaskId>, now: real): (ws: seq<Write>)
    requires forall id :: id in ids ==> id in tasks
    ensures |ws| == |ids|
    ensures forall i :: 0 <= i < |ids| ==> ws[i] == RecoverWrite(tasks[ids[i]], ids[i], now)
  {
    seq(|ids|, i requires 0 <= i < |ids| => RecoverWrite(tasks[ids[i]], ids[i], now))
  }

  ghost function RecoverExpired(db: Db, now: real): Outcome<seq<TaskId>> {
    var ids := Sorted(db.tasks, Expired(db, now));
    Done(PutAll(db, RecoverWrites(db.tasks, ids, now)), ids)
  }

  // ----- provider deliveries -----

  /** The arguments of `ingest_event`. */
  datatype Request = Request(
    provider: string, delivery: string, body: string, repository: string, payload: Option<string>,
    group: Option<string>, expected: Option<int>, replay: Option<string>)

  datatype Receipt = Receipt(
    key: DeliveryKey, delivery: Delivery, replay: Option<string>, duplicate: bool)

  function KeyOf(r: Request): DeliveryKey { DeliveryKey(r.provider, r.delivery) }

  function GroupVersion(files: Files, scope: Scope): nat {
    if scope in files.groups then files.groups[scope] else 0
  }

  function ReceiptOf(files: Files, key: DeliveryKey, duplicate: bool): Receipt
    requires key in files.deliveries
  {
    Receipt(key, files.deliveries[key], if key in files.aliases then Some(files.aliases[key]) else None, duplicate)
  }

  /** The join of `provider_replays` with `provider_deliveries`. */
  function Canonical(files: Files, key: ReplayKey): Option<DeliveryKey> {
    if key in files.replays && DeliveryKey(key.provider, files.replays[key]) in files.deliveries
    then Some(DeliveryKey(key.provider, files.replays[key])) else None
  }

  function Known(files: Files, r: Request): Option<DeliveryKey> {
    if r.replay.None? then None else Canonical(files, ReplayKey(r.provider, r.repository, r.replay.value))
  }

  /** The rows of the scope that have not ended. */
  function LiveMembers(db: Db, scope: Scope): set<TaskId> {
    set id | id in db.tasks && id in db.files.members && db.files.members[id].scope == scope
      && !Terminal(db.tasks[id].state)
  }

  function OriginOf(r: Request, version: Option<nat>): Origin {
    Origin(r.provider, r.delivery, r.group, version)
  }

  function SupersedeWrite(
      row: Task, id: TaskId, origin: Origin, replacement: Option<TaskId>, now: real): Write {
    var outcome := SupersededBy(origin, replacement, row.state, UnknownOutcome(row.state));
    var next := SupersededRow(row, outcome, now);
    Write(id, next, Event(id, Superseded(outcome), next.state, next.epoch, now))
  }

  function SupersedeWrites(
      db: Db, ids: seq<TaskId>, origin: Origin, replacement: Option<TaskId>, now: real): (ws: seq<Write>)
    requires forall id :: id in ids ==> id in db.tasks
    ensures |ws| == |ids|
    ensures forall i :: 0 <= i < |ids| ==> ws[i] == SupersedeWrite(db.tasks[ids[i]], ids[i], origin, replacement, now)
  {
    seq(|ids|, i requires 0 <= i < |ids| => SupersedeWrite(db.tasks[ids[i]], ids[i], origin, replacement, now))
  }

  predicate Reconciles(db: Db, ids: set<TaskId>) {
    exists id | id in ids :: id in db.tasks && UnknownOutcome(db.tasks[id].state)
  }

  predicate StartsPaused(db: Db, ids: set<TaskId>) {
    exists id | id in ids :: id in db.tasks && (db.tasks[id].state.Paused? || UnknownOutcome(db.tasks[id].state))
  }

  function ScopeOf(r: Request): Scope {
    Scope(r.repository, if r.group.Some? then r.group.value else "")
  }

  function NextVersion(files: Files, r: Request): Option<nat> {
    if r.group.Some? then Some(GroupVersion(files, ScopeOf(r)) + 1) else None
  }

  /** The tasks a new delivery supersedes. */
  function Outdated(db: Db, r: Request): (live: set<TaskId>)
    ensures live <= db.tasks.Keys
  {
    if r.group.Some? then LiveMembers(db, ScopeOf(r)) else {}
  }

  /** What an accepted delivery files. */
  function Filed(files: Files, r: Request, task: Option<TaskId>): (filed: Files)
    ensures KeyOf(r) in filed.deliveries
  {
    var key, scope, version := KeyOf(r), ScopeOf(r), NextVersion(files, r);
    Files(
      if version.Some? then files.groups[scope := version.value] else files.groups,
      if version.Some? && task.Some? then files.members[task.value := Membership(scope, version.value)]
      else files.members,
      files.deliveries[key := Delivery(r.body, r.repository,
        if version.Some? then Some(Slot(r.group.value, version.value)) else None, task)],
      if r.replay.Some?
      then files.replays[ReplayKey(r.provider, r.repository, r.replay.value) := r.delivery] else files.replays,
      if r.replay.Some? then files.aliases[key := r.replay.value] else files.aliases)
  }

  /** What a delivery with a known replay key files: a copy of the canonical receipt. */
  function Aliased(files: Files, r: Request, original: Delivery): Files
    requires r.replay.Some?
  {
    files.(deliveries := files.deliveries[KeyOf(r) := original.(repository := r.repository)],
           aliases := files.aliases[KeyOf(r) := r.replay.value])
  }

  /** The scope's superseded tasks, in query order, and the replacement, if any. */
  ghost function AcceptWrites(db: Db, r: Request, id: TaskId, now: real): seq<Write> {
    var live := Outdated(db, r);
    var origin := OriginOf(r, NextVersion(db.files, r));
    var replacement := if r.payload.Some? then Some(id) else None;
    SupersedeWrites(db, Sorted(db.tasks, live), origin, replacement, now)
    + (if r.payload.None? then []
       else [CreatedWrite(id, NewRow(r.repository, r.payload.value, None,
                                     if StartsPaused(db, live) then Paused else Queued, now),
                          Some(origin), Reconciles(db, live))])
  }

  /** A delivery seen for the first time. */
  ghost function Accept(db: Db, r: Request, id: TaskId, now: real): Outcome<Receipt> {
    if r.group.Some? && r.expected.Some? && r.expected.value != GroupVersion(db.files, ScopeOf(r)) then
      Rejected(EventConflict)
    else if r.payload.Some? && id in db.tasks then Rejected(IdCollision)
    else
      var files := Filed(db.files, r, if r.payload.Some? then Some(id) else None);
      Done(PutAll(db, AcceptWrites(db, r, id, now)).(files := files), ReceiptOf(files, KeyOf(r), false))
  }

  ghost function Ingest(db: Db, r: Request, id: TaskId, now: real): Outcome<Receipt> {
    var key := KeyOf(r);
    if r.expected.Some? && (r.expected.value < 0 || r.group.None?) then Rejected(BadValue)
    else if key in db.files.deliveries then
      var existing := db.files.deliveries[key];
      if existing.body != r.body || existing.repository != r.repository then Rejected(EventConflict)
      else if key in db.files.aliases && Some(db.files.aliases[key]) != r.replay then Rejected(EventConflict)
      else Done(db, ReceiptOf(db.files, key, true))
    else if Known(db.files, r).Some? then
      var original := db.files.deliveries[Known(db.files, r).value];
      if original.body != r.body then Rejected(EventConflict)
      else
        var files := Aliased(db.files, r, original);
        Done(db.(files := files), ReceiptOf(files, key, true))
    else Accept(db, r, id, now)
  }
}
