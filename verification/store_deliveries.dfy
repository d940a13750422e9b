/**
 Deliveries, replay keys and event groups over all runs: what is filed once stays, one replay key
 never makes two tasks, and each group has at most one task that has not ended.
 */
module StoreDeliveries {
  import opened Wrappers
  import opened Rows
  import opened StoreSpec
  import opened StoreRuns
  import opened StoreLog

  /** The canonical receipt of the replay key that delivery `k` recorded. */
  function Root(files: Files, k: DeliveryKey): Option<DeliveryKey> {
    if k in files.aliases && k in files.deliveries
    then Canonical(files, ReplayKey(k.provider, files.deliveries[k].repository, files.aliases[k])) else None
  }

  /** The first delivery under its replay key, or one filed without a key. */
  predicate Original(files: Files, k: DeliveryKey) {
    k in files.deliveries && (k in files.aliases ==> Root(files, k) == Some(k))
  }

  /** Foreign keys: a replay key points at the delivery that recorded it. */
  ghost predicate ReplaysRooted(files: Files) {
    forall rk :: rk in files.replays ==>
      var k := DeliveryKey(rk.provider, files.replays[rk]);
      k in files.deliveries && k in files.aliases
      && files.deliveries[k].repository == rk.repository && files.aliases[k] == rk.digest
  }

  /** Every alias says exactly what its canonical receipt says. */
  ghost predicate AliasesAgree(files: Files) {
    forall k :: k in files.aliases ==>
      && k in files.deliveries
      && Root(files, k).Some?
      && files.deliveries[Root(files, k).value] == files.deliveries[k]
  }

  /** No two original deliveries name the same task. */
  ghost predicate TasksFiledOnce(files: Files) {
    forall a, b :: Original(files, a) && Original(files, b) && a != b && files.deliveries[a].task.Some? ==>
      files.deliveries[a].task != files.deliveries[b].task
  }

  /** Foreign keys: every task a delivery names is stored. */
  ghost predicate TasksStored(tasks: map<TaskId, Task>, files: Files) {
    forall k :: k in files.deliveries && files.deliveries[k].task.Some? ==> files.deliveries[k].task.value in tasks
  }

  predicate FiledIn(files: Files, k: DeliveryKey, scope: Scope) {
    && Original(files, k)
    && files.deliveries[k].repository == scope.repository
    && files.deliveries[k].slot.Some?
    && files.deliveries[k].slot.value.group == scope.group
  }

  /** The accepted deliveries of a group. */
  function Filings(files: Files, scope: Scope): set<DeliveryKey> {
    set k | k in files.deliveries && FiledIn(files, k, scope)
  }

  ghost predicate VersionsCount(files: Files) {
    forall scope :: |Filings(files, scope)| == GroupVersion(files, scope)
  }

  /** Versions of a group number its accepted deliveries without repetition. */
  ghost predicate VersionsBounded(files: Files) {
    forall k, scope :: FiledIn(files, k, scope) ==>
      1 <= files.deliveries[k].slot.value.version <= GroupVersion(files, scope)
  }

  ghost predicate VersionsDiffer(files: Files) {
    forall a, b, scope :: FiledIn(files, a, scope) && FiledIn(files, b, scope) && a != b ==>
      files.deliveries[a].slot.value.version != files.deliveries[b].slot.value.version
  }

  /** Tasks of a group carry its versions, and one that has not ended carries the current one. */
  ghost predicate MembersCurrent(tasks: map<TaskId, Task>, files: Files) {
    forall t :: t in files.members ==>
      && t in tasks
      && tasks[t].repository == files.members[t].scope.repository
      && 1 <= files.members[t].version <= GroupVersion(files, files.members[t].scope)
      && (!Terminal(tasks[t].state) ==> files.members[t].version == GroupVersion(files, files.members[t].scope))
  }

  ghost predicate MembersDiffer(files: Files) {
    forall t, u :: t in files.members && u in files.members && t != u ==> files.members[t] != files.members[u]
  }

  ghost predicate FilesOk(files: Files) {
    && ReplaysRooted(files) && AliasesAgree(files) && TasksFiledOnce(files)
    && VersionsCount(files) && VersionsBounded(files) && VersionsDiffer(files) && MembersDiffer(files)
  }

  ghost predicate KeysUnique(tasks: map<TaskId, Task>) {
    forall a, b :: a in tasks && b in tasks && a != b && tasks[a].key.Some? ==> tasks[a].key != tasks[b].key
  }

  ghost predicate Inv(db: Db) {
    && RowInv(db) && FilesOk(db.files) && KeysUnique(db.tasks)
    && TasksStored(db.tasks, db.files) && MembersCurrent(db.tasks, db.files)
  }

  // ----- rows under a step -----

  /** Stored rows stay, keep their identity, and stay ended once ended. */
  ghost predicate RowsCarried(old_: map<TaskId, Task>, new_: map<TaskId, Task>) {
    forall t :: t in old_ ==>
      && t in new_
      && new_[t].repository == old_[t].repository
      && new_[t].key == old_[t].key
      && (Terminal(old_[t].state) ==> Terminal(new_[t].state))
  }

  lemma StepCarriesRows(db: Db, step: Step)
    requires RowInv(db)
    ensures RowsCarried(db.tasks, Apply(db, step).tasks)
  {
    forall t | t in db.tasks
      ensures && t in Apply(db, step).tasks
              && Apply(db, step).tasks[t].repository == db.tasks[t].repository
              && Apply(db, step).tasks[t].key == db.tasks[t].key
              && (Terminal(db.tasks[t].state) ==> Terminal(Apply(db, step).tasks[t].state))
    {
      StepOnRow(db, step, t);
    }
  }

  lemma CarriedKeeps(old_: map<TaskId, Task>, new_: map<TaskId, Task>, files: Files)
    requires RowsCarried(old_, new_) && TasksStored(old_, files) && MembersCurrent(old_, files)
    ensures TasksStored(new_, files) && MembersCurrent(new_, files)
  {
  }

  // ----- an alias -----

  /** A copy of canonical receipt `root` filed under the unused key of `r`. */
  ghost predicate IsAlias(files: Files, r: Request, root: DeliveryKey, next: Files) {
    && KeyOf(r) !in files.deliveries && KeyOf(r) !in files.aliases
    && Known(files, r) == Some(root)
    && root in files.deliveries
    && files.deliveries[root].repository == r.repository
    && next == Aliased(files, r, files.deliveries[root])
  }

  lemma AliasRootOf(files: Files, r: Request, root: DeliveryKey, next: Files, k: DeliveryKey)
    requires ReplaysRooted(files) && IsAlias(files, r, root, next)
    ensures k != KeyOf(r) ==> Root(next, k) == Root(files, k)
    ensures k == KeyOf(r) ==> Root(next, k) == Some(root) && root != k
  {
  }

  lemma AliasRoots(files: Files, r: Request, root: DeliveryKey, next: Files)
    requires ReplaysRooted(files) && AliasesAgree(files) && IsAlias(files, r, root, next)
    ensures ReplaysRooted(next) && AliasesAgree(next)
    ensures Root(next, KeyOf(r)) == Some(root) && root != KeyOf(r)
    ensures forall k :: k != KeyOf(r) ==> Root(next, k) == Root(files, k)
  {
    forall k ensures k != KeyOf(r) ==> Root(next, k) == Root(files, k) {
      AliasRootOf(files, r, root, next, k);
    }
    AliasRootOf(files, r, root, next, KeyOf(r));
    forall k | k in next.aliases
      ensures k in next.deliveries && Root(next, k).Some?
              && next.deliveries[Root(next, k).value] == next.deliveries[k]
    {
      if k != KeyOf(r) { assert k in files.aliases; }
    }
  }

  lemma AliasOriginals(files: Files, r: Request, root: DeliveryKey, next: Files)
    requires FilesOk(files) && IsAlias(files, r, root, next)
    ensures forall k :: Original(next, k) <==> Original(files, k)
    ensures forall k, scope :: FiledIn(next, k, scope) <==> FiledIn(files, k, scope)
  {
    hide Original, FiledIn, IsAlias;
    forall k ensures Original(next, k) <==> Original(files, k) {
      AliasOriginalOf(files, r, root, next, k, Scope("", ""));
    }
    forall k, scope ensures FiledIn(next, k, scope) <==> FiledIn(files, k, scope) {
      AliasOriginalOf(files, r, root, next, k, scope);
    }
  }

  lemma AliasOriginalOf(files: Files, r: Request, root: DeliveryKey, next: Files, k: DeliveryKey, scope: Scope)
    requires ReplaysRooted(files) && IsAlias(files, r, root, next)
    ensures Original(next, k) <==> Original(files, k)
    ensures FiledIn(next, k, scope) <==> FiledIn(files, k, scope)
  {
    hide Root;
    AliasRootOf(files, r, root, next, k);
  }

  /** Files with the same originals, groups and members keep everything that is about originals. */
  lemma SameOriginals(files: Files, next: Files)
    requires FilesOk(files) && ReplaysRooted(next) && AliasesAgree(next)
    requires forall k :: Original(next, k) <==> Original(files, k)
    requires forall k, scope :: FiledIn(next, k, scope) <==> FiledIn(files, k, scope)
    requires forall k :: k in files.deliveries ==> k in next.deliveries && next.deliveries[k] == files.deliveries[k]
    requires next.groups == files.groups && next.members == files.members
    ensures FilesOk(next)
  {
    hide ReplaysRooted, AliasesAgree, Root;
    assert forall k :: Original(files, k) ==> next.deliveries[k] == files.deliveries[k];
    forall scope ensures |Filings(next, scope)| == GroupVersion(next, scope) {
      assert Filings(next, scope) == Filings(files, scope);
      assert |Filings(files, scope)| == GroupVersion(files, scope);
    }
  }

  lemma AliasKeeps(files: Files, r: Request, root: DeliveryKey, next: Files)
    requires FilesOk(files) && IsAlias(files, r, root, next)
    ensures FilesOk(next)
  {
    AliasRoots(files, r, root, next);
    AliasOriginals(files, r, root, next);
    hide FilesOk, Original, FiledIn, Root;
    SameOriginals(files, next);
  }

  // ----- an accepted delivery -----

  predicate Unnamed(files: Files, task: TaskId) {
    task !in files.members && forall k :: k in files.deliveries ==> files.deliveries[k].task != Some(task)
  }

  ghost predicate IsFiling(files: Files, r: Request, task: Option<TaskId>, next: Files) {
    && KeyOf(r) !in files.deliveries && KeyOf(r) !in files.aliases
    && Known(files, r).None?
    && (task.Some? ==> Unnamed(files, task.value))
    && next == Filed(files, r, task)
  }

  lemma FilingKeyIsNew(files: Files, r: Request)
    requires ReplaysRooted(files) && Known(files, r).None? && r.replay.Some?
    ensures ReplayKey(r.provider, r.repository, r.replay.value) !in files.replays
  {
  }

  lemma FilingRootOf(files: Files, r: Request, task: Option<TaskId>, next: Files, k: DeliveryKey)
    requires ReplaysRooted(files) && AliasesAgree(files) && IsFiling(files, r, task, next)
    ensures k != KeyOf(r) ==> Root(next, k) == Root(files, k)
    ensures k == KeyOf(r) && k in next.aliases ==> Root(next, k) == Some(k)
  {
    if r.replay.Some? { FilingKeyIsNew(files, r); }
    if k in files.aliases { assert Root(files, k).Some?; }
  }

  lemma FilingReplays(files: Files, r: Request, task: Option<TaskId>, next: Files)
    requires ReplaysRooted(files) && AliasesAgree(files) && IsFiling(files, r, task, next)
    ensures ReplaysRooted(next)
  {
    if r.replay.Some? { FilingKeyIsNew(files, r); }
  }

  lemma FilingAliasOf(files: Files, r: Request, task: Option<TaskId>, next: Files, k: DeliveryKey)
    requires ReplaysRooted(files) && AliasesAgree(files) && IsFiling(files, r, task, next) && k in next.aliases
    ensures k in next.deliveries && Root(next, k).Some?
    ensures next.deliveries[Root(next, k).value] == next.deliveries[k]
  {
    FilingRootOf(files, r, task, next, k);
    if k != KeyOf(r) { assert k in files.aliases; }
  }

  lemma FilingRoots(files: Files, r: Request, task: Option<TaskId>, next: Files)
    requires ReplaysRooted(files) && AliasesAgree(files) && IsFiling(files, r, task, next)
    ensures ReplaysRooted(next) && AliasesAgree(next)
    ensures Original(next, KeyOf(r))
    ensures forall k :: k != KeyOf(r) ==> Root(next, k) == Root(files, k)
  {
    FilingReplays(files, r, task, next);
    forall k ensures k != KeyOf(r) ==> Root(next, k) == Root(files, k) {
      FilingRootOf(files, r, task, next, k);
    }
    FilingRootOf(files, r, task, next, KeyOf(r));
    assert AliasesAgree(next) by {
      hide IsFiling, Root;
      forall k | k in next.aliases
        ensures k in next.deliveries && Root(next, k).Some?
                && next.deliveries[Root(next, k).value] == next.deliveries[k]
      {
        FilingAliasOf(files, r, task, next, k);
      }
    }
  }

  lemma FilingOriginals(files: Files, r: Request, task: Option<TaskId>, next: Files)
    requires FilesOk(files) && IsFiling(files, r, task, next)
    ensures forall k :: k != KeyOf(r) ==> (Original(next, k) <==> Original(files, k))
    ensures forall k, scope :: k != KeyOf(r) ==> (FiledIn(next, k, scope) <==> FiledIn(files, k, scope))
    ensures forall scope :: FiledIn(next, KeyOf(r), scope) <==> r.group.Some? && scope == ScopeOf(r)
  {
    FilingRoots(files, r, task, next);
  }

  lemma FilingCounts(files: Files, r: Request, task: Option<TaskId>, next: Files)
    requires FilesOk(files) && IsFiling(files, r, task, next)
    ensures VersionsCount(next)
  {
    FilingOriginals(files, r, task, next);
    forall scope ensures |Filings(next, scope)| == GroupVersion(next, scope) {
      FilingCount(files, r, task, next, scope);
    }
  }

  lemma FilingVersion(files: Files, r: Request, task: Option<TaskId>, scope: Scope)
    ensures var next := Filed(files, r, task);
            && GroupVersion(next, scope)
              == GroupVersion(files, scope) + (if r.group.Some? && scope == ScopeOf(r) then 1 else 0)
            && next.deliveries.Keys == files.deliveries.Keys + {KeyOf(r)}
  {
  }

  lemma FilingsGrow(files: Files, next: Files, key: DeliveryKey, scope: Scope)
    requires key !in files.deliveries && next.deliveries.Keys == files.deliveries.Keys + {key}
    requires forall k :: k != key ==> (FiledIn(next, k, scope) <==> FiledIn(files, k, scope))
    ensures key !in Filings(files, scope)
    ensures Filings(next, scope) == Filings(files, scope) + if FiledIn(next, key, scope) then {key} else {}
  {
    hide FiledIn;
  }

  lemma FilingCount(files: Files, r: Request, task: Option<TaskId>, next: Files, scope: Scope)
    requires |Filings(files, scope)| == GroupVersion(files, scope)
    requires KeyOf(r) !in files.deliveries && next == Filed(files, r, task)
    requires forall k :: k != KeyOf(r) ==> (FiledIn(next, k, scope) <==> FiledIn(files, k, scope))
    requires FiledIn(next, KeyOf(r), scope) <==> r.group.Some? && scope == ScopeOf(r)
    ensures |Filings(next, scope)| == GroupVersion(next, scope)
  {
    hide Filed, FiledIn, GroupVersion, Filings;
    FilingVersion(files, r, task, scope);
    FilingsGrow(files, next, KeyOf(r), scope);
  }

  /** The version of a filed delivery: the next one for the new delivery, an earlier one for the others. */
  lemma FiledVersion(files: Files, r: Request, task: Option<TaskId>, next: Files, k: DeliveryKey, scope: Scope)
    requires FilesOk(files) && IsFiling(files, r, task, next) && FiledIn(next, k, scope)
    ensures next.deliveries[k].slot.Some? && 1 <= next.deliveries[k].slot.value.version <= GroupVersion(next, scope)
    ensures k == KeyOf(r) ==> next.deliveries[k].slot.value.version == GroupVersion(files, scope) + 1
    ensures k != KeyOf(r) ==> FiledIn(files, k, scope) && next.deliveries[k] == files.deliveries[k]
  {
    hide AliasesAgree, ReplaysRooted, TasksFiledOnce, VersionsCount, VersionsDiffer, MembersDiffer;
    FilingOriginals(files, r, task, next);
    if k != KeyOf(r) { assert FiledIn(files, k, scope); }
  }

  lemma FilingVersions(files: Files, r: Request, task: Option<TaskId>, next: Files)
    requires FilesOk(files) && IsFiling(files, r, task, next)
    ensures VersionsBounded(next) && VersionsDiffer(next)
  {
    hide IsFiling, Root, GroupVersion, AliasesAgree, ReplaysRooted, TasksFiledOnce, VersionsCount, MembersDiffer;
    forall k, scope | FiledIn(next, k, scope)
      ensures 1 <= next.deliveries[k].slot.value.version <= GroupVersion(next, scope)
    {
      FiledVersion(files, r, task, next, k, scope);
    }
    forall a, b, scope | FiledIn(next, a, scope) && FiledIn(next, b, scope) && a != b
      ensures next.deliveries[a].slot.value.version != next.deliveries[b].slot.value.version
    {
      FiledVersion(files, r, task, next, a, scope);
      FiledVersion(files, r, task, next, b, scope);
    }
  }

  lemma FilingTasks(files: Files, r: Request, task: Option<TaskId>, next: Files)
    requires FilesOk(files) && IsFiling(files, r, task, next)
    ensures TasksFiledOnce(next)
  {
    FilingOriginals(files, r, task, next);
  }

  lemma FilingKeeps(files: Files, r: Request, task: Option<TaskId>, next: Files)
    requires FilesOk(files) && IsFiling(files, r, task, next)
    requires forall t :: t in files.members ==> files.members[t].version <= GroupVersion(files, files.members[t].scope)
    ensures FilesOk(next)
  {
    FilingRoots(files, r, task, next);
    FilingCounts(files, r, task, next);
    FilingVersions(files, r, task, next);
    FilingTasks(files, r, task, next);
  }

  /** The group moves on: its older tasks have ended, the new one carries the new version. */
  lemma FilingMembers(
      old_: map<TaskId, Task>, mid: map<TaskId, Task>, files: Files, r: Request, task: Option<TaskId>, next: Files)
    requires MembersCurrent(old_, files) && RowsCarried(old_, mid) && next == Filed(files, r, task)
    requires task.Some? ==> task.value in mid && mid[task.value].repository == r.repository
    requires r.group.Some? ==> forall t :: t in files.members && files.members[t].scope == ScopeOf(r) ==>
        Terminal(mid[t].state)
    ensures MembersCurrent(mid, next)
  {
  }

  // ----- ingest_event -----

  /** The rows an accepted delivery leaves behind. */
  ghost predicate Superseded(db: Db, r: Request, id: TaskId, now: real, mid: map<TaskId, Task>) {
    && (forall t :: t in Outdated(db, r) ==>
          && t in mid
          && mid[t].state == (if UnknownOutcome(db.tasks[t].state) then Unresolved else Cancelled)
          && mid[t].lease.None?)
    && (r.payload.Some? ==>
          && id in mid
          && mid[id] == NewRow(r.repository, r.payload.value, None,
                               if StartsPaused(db, Outdated(db, r)) then Paused else Queued, now))
  }

  lemma AcceptRows(db: Db, r: Request, id: TaskId, now: real)
    requires Accepts(db, r, id)
    ensures Superseded(db, r, id, now, PutAll(db, AcceptWrites(db, r, id, now)).tasks)
  {
    var ws := AcceptWrites(db, r, id, now);
    var mid := PutAll(db, ws).tasks;
    AcceptIsBatch(db, r, id, now);
    var ids := Sorted(db.tasks, Outdated(db, r));
    forall t | t in Outdated(db, r)
      ensures t in mid && mid[t].state == (if UnknownOutcome(db.tasks[t].state) then Unresolved else Cancelled)
              && mid[t].lease.None?
    {
      assert t in ids;
      var i :| 0 <= i < |ids| && ids[i] == t;
      PutAllAt(db, ws, i);
      var replacement := if r.payload.Some? then Some(id) else None;
      assert ws[i] == SupersedeWrite(db.tasks[t], t, OriginOf(r, NextVersion(db.files, r)), replacement, now);
    }
    if r.payload.Some? {
      PutAllAt(db, ws, |ids|);
    }
  }

  lemma AcceptKeeps(db: Db, r: Request, id: TaskId, now: real)
    requires Inv(db) && Accepts(db, r, id)
    ensures var next := Apply(db, IngestStep(r, id, now));
            FilesOk(next.files) && TasksStored(next.tasks, next.files) && MembersCurrent(next.tasks, next.files)
  {
    var task := if r.payload.Some? then Some(id) else None;
    var next := Apply(db, IngestStep(r, id, now));
    AcceptFilesOk(db, r, id, now, task, next);
    AcceptMembersCurrent(db, r, id, now, task, next);
    AcceptTasksStored(db, r, id, now, task, next);
  }

  lemma AcceptFilesOk(db: Db, r: Request, id: TaskId, now: real, task: Option<TaskId>, next: Db)
    requires Inv(db) && Accepts(db, r, id)
    requires task == (if r.payload.Some? then Some(id) else None) && next == Apply(db, IngestStep(r, id, now))
    ensures next.files == Filed(db.files, r, task) && FilesOk(next.files)
  {
    IngestCases(db, r, id, now);
    assert IsFiling(db.files, r, task, next.files) by { hide RowInv, KeysUnique, Apply; }
    assert FilesOk(next.files) by {
      hide RowInv, KeysUnique, FilesOk, Apply, IsFiling, TasksStored;
      FilingKeeps(db.files, r, task, next.files);
    }
  }

  lemma AcceptMembersCurrent(db: Db, r: Request, id: TaskId, now: real, task: Option<TaskId>, next: Db)
    requires Inv(db) && Accepts(db, r, id)
    requires task == (if r.payload.Some? then Some(id) else None) && next == Apply(db, IngestStep(r, id, now))
    ensures MembersCurrent(next.tasks, next.files)
  {
    hide RowInv, KeysUnique, FilesOk, TasksStored, Apply;
    IngestCases(db, r, id, now);
    AcceptRows(db, r, id, now);
    StepCarriesRows(db, IngestStep(r, id, now));
    forall t | r.group.Some? && t in db.files.members && db.files.members[t].scope == ScopeOf(r)
      ensures Terminal(next.tasks[t].state)
    {
      if !Terminal(db.tasks[t].state) { assert t in Outdated(db, r); }
    }
    FilingMembers(db.tasks, next.tasks, db.files, r, task, next.files);
  }

  lemma AcceptTasksStored(db: Db, r: Request, id: TaskId, now: real, task: Option<TaskId>, next: Db)
    requires Inv(db) && Accepts(db, r, id)
    requires task == (if r.payload.Some? then Some(id) else None) && next == Apply(db, IngestStep(r, id, now))
    ensures TasksStored(next.tasks, next.files)
  {
    hide RowInv, KeysUnique, FilesOk, MembersCurrent, Apply;
    IngestCases(db, r, id, now);
    AcceptRows(db, r, id, now);
    StepCarriesRows(db, IngestStep(r, id, now));
  }

  lemma IngestKeeps(db: Db, r: Request, id: TaskId, now: real)
    requires Inv(db)
    ensures var next := Apply(db, IngestStep(r, id, now));
            FilesOk(next.files) && TasksStored(next.tasks, next.files) && MembersCurrent(next.tasks, next.files)
  {
    hide RowInv, FilesOk, KeysUnique;
    if Accepts(db, r, id) {
      AcceptKeeps(db, r, id, now);
    } else {
      IngestCases(db, r, id, now);
      NotAcceptedCases(db, r, id, now);
      var next := Apply(db, IngestStep(r, id, now));
      if next != db {
        assert FilesOk(db.files) && TasksStored(db.tasks, db.files) && MembersCurrent(db.tasks, db.files);
        AliasKeeps(db.files, r, Known(db.files, r).value, next.files);
      }
    }
  }

  /** A delivery that is not accepted is an alias of a known one, or changes nothing. */
  lemma NotAcceptedCases(db: Db, r: Request, id: TaskId, now: real)
    requires Inv(db) && !Accepts(db, r, id)
    ensures var next := Apply(db, IngestStep(r, id, now));
            next == db || (Known(db.files, r).Some? && IsAlias(db.files, r, Known(db.files, r).value, next.files))
  {
  }

  lemma OnlyIngestFiles(db: Db, step: Step)
    requires !step.IngestStep?
    ensures Apply(db, step).files == db.files
  {
    if step.RecoverStep? {
      PutAllLog(db, Writes(db, step));
    } else {
      SingleIsBatched(db, step);
      PutAllLog(db, Writes(db, step));
    }
  }

  // ----- idempotency keys -----

  /** A row that appears in a step is unkeyed, or its key was free. */
  lemma NewRowKey(db: Db, step: Step, id: TaskId)
    requires id !in db.tasks && id in Apply(db, step).tasks
    ensures (step.CreateStep? || step.IngestStep?) && id == step.id
    ensures var key := Apply(db, step).tasks[id].key; key.None? || !KeyTaken(db, key.value)
  {
    hide Apply, Writes, Batch;
    StepIsBatched(db, step);
    BatchAt(db, Writes(db, step), id);
    var w :| w in Writes(db, step) && w.id == id && RowOf(PutAll(db, Writes(db, step)), id) == Some(w.row)
             && Legal(RowOf(db, id), w);
    CreationKinds(db, step, w);
  }

  lemma CreationKinds(db: Db, step: Step, w: Write)
    requires w in Writes(db, step) && w.event.kind.Created?
    ensures (step.CreateStep? || step.IngestStep?) && w.id == step.id
    ensures w.row.key.None? || !KeyTaken(db, w.row.key.value)
  {
  }

  lemma StepKeepsKeys(db: Db, step: Step)
    requires RowInv(db) && KeysUnique(db.tasks)
    ensures KeysUnique(Apply(db, step).tasks)
  {
    hide Apply, RowInv;
    StepCarriesRows(db, step);
    var next := Apply(db, step).tasks;
    forall a, b | a in next && b in next && a != b && next[a].key.Some?
      ensures next[a].key != next[b].key
    {
      if a !in db.tasks { NewRowKey(db, step, a); }
      if b !in db.tasks { NewRowKey(db, step, b); }
    }
  }

  // ----- every run -----

  lemma StepKeepsInv(db: Db, step: Step)
    requires Inv(db)
    ensures Inv(Apply(db, step))
  {
    StepKeepsRows(db, step);
    StepKeepsKeys(db, step);
    if step.IngestStep? {
      IngestKeeps(db, step.request, step.id, step.now);
    } else {
      StepCarriesRows(db, step);
      OnlyIngestFiles(db, step);
      CarriedKeeps(db.tasks, Apply(db, step).tasks, db.files);
    }
  }

  lemma {:induction false} RunKeepsInv(db: Db, steps: seq<Step>)
    requires Inv(db)
    ensures Inv(Run(db, steps))
    decreases |steps|
  {
    if steps != [] {
      StepKeepsInv(db, steps[0]);
      RunKeepsInv(Apply(db, steps[0]), steps[1..]);
    }
  }

  lemma EmptyInv()
    ensures Inv(EMPTY)
  {
    forall scope ensures |Filings(EMPTY.files, scope)| == GroupVersion(EMPTY.files, scope) {
      assert Filings(EMPTY.files, scope) == {};
    }
  }

  lemma ReachableKeysUnique(db: Db)
    requires Reachable(db)
    ensures KeysUnique(db.tasks)
  {
    hide RowInv, FilesOk, TasksStored, MembersCurrent;
    EmptyInv();
    var steps :| Run(EMPTY, steps) == db;
    RunKeepsInv(EMPTY, steps);
  }
}
