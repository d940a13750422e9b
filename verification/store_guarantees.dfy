/** What deliveries, groups and idempotency keys promise over every run of the store. */
module StoreGuarantees {
  import opened Wrappers
  import opened Rows
  import opened StoreSpec
  import opened StoreRuns
  import opened StoreLog
  import opened StoreDeliveries
  import opened StoreLeases

  ghost function Reached(steps: seq<Step>): Db {
    Run(EMPTY, steps)
  }

  lemma ReachedInv(steps: seq<Step>)
    ensures Inv(Reached(steps))
  {
    EmptyInv();
    RunKeepsInv(EMPTY, steps);
  }

  // ----- groups -----

  /** At most one task of an event group has not ended, and it carries the group's current version. */
  lemma OneLiveTaskPerGroup(steps: seq<Step>, t: TaskId, u: TaskId)
    requires t in Reached(steps).files.members
    requires t in LiveMembers(Reached(steps), Reached(steps).files.members[t].scope)
    requires u in LiveMembers(Reached(steps), Reached(steps).files.members[t].scope)
    ensures t == u
    ensures Reached(steps).files.members[t].version
        == GroupVersion(Reached(steps).files, Reached(steps).files.members[t].scope)
  {
    ReachedInv(steps);
  }

  /** The version of a group is the number of its accepted deliveries, which its versions number 1, 2, ... */
  lemma VersionCountsDeliveries(steps: seq<Step>, scope: Scope)
    ensures var files := Reached(steps).files;
            && GroupVersion(files, scope) == |Filings(files, scope)|
            && (forall k :: k in Filings(files, scope) ==>
              1 <= files.deliveries[k].slot.value.version <= |Filings(files, scope)|)
            && (forall a, b :: a in Filings(files, scope) && b in Filings(files, scope) && a != b ==>
                  files.deliveries[a].slot.value.version != files.deliveries[b].slot.value.version)
  {
    ReachedInv(steps);
    var files := Reached(steps).files;
    assert |Filings(files, scope)| == GroupVersion(files, scope);
  }

  /** How many of the steps file a new delivery in the scope. */
  ghost function AcceptedIn(db: Db, steps: seq<Step>, scope: Scope): nat
    decreases |steps|
  {
    if steps == [] then 0
    else
      (if Advances(db, steps[0], scope) then 1 else 0) + AcceptedIn(Apply(db, steps[0]), steps[1..], scope)
  }

  predicate Advances(db: Db, step: Step, scope: Scope) {
    step.IngestStep? && Accepts(db, step.request, step.id) && step.request.group.Some? && ScopeOf(step.request) == scope
  }

  lemma StepAdvancesVersion(db: Db, step: Step, scope: Scope)
    ensures GroupVersion(Apply(db, step).files, scope)
            == GroupVersion(db.files, scope) + if Advances(db, step, scope) then 1 else 0
  {
    if step.IngestStep? {
      IngestCases(db, step.request, step.id, step.now);
      if !Accepts(db, step.request, step.id) {
        RefusedKeepsGroups(db, step.request, step.id, step.now);
      }
    } else {
      OnlyIngestFiles(db, step);
    }
  }

  lemma RefusedKeepsGroups(db: Db, r: Request, id: TaskId, now: real)
    requires !Accepts(db, r, id)
    ensures var next := Apply(db, IngestStep(r, id, now)).files;
            next.groups == db.files.groups && next.members == db.files.members && next.replays == db.files.replays
  {
  }

  /** A group's version rises by exactly the deliveries accepted meanwhile. */
  lemma {:induction false} VersionMovesWithDeliveries(db: Db, steps: seq<Step>, scope: Scope)
    ensures GroupVersion(Run(db, steps).files, scope) == GroupVersion(db.files, scope) + AcceptedIn(db, steps, scope)
    decreases |steps|
  {
    if steps != [] {
      StepAdvancesVersion(db, steps[0], scope);
      VersionMovesWithDeliveries(Apply(db, steps[0]), steps[1..], scope);
    }
  }

  // ----- supersession -----

  /** Once a newer delivery of its group is accepted, a worker can move its task nowhere, at any later time. */
  lemma SupersededNeverCompletes(
      steps: seq<Step>, r: Request, id: TaskId, now: real, later: seq<Step>, t: TaskId,
      lease: Lease, state: State, details: string, at: real)
    requires Accepts(Reached(steps), r, id) && t in Outdated(Reached(steps), r) && lease.task == t
    ensures var final := Run(Apply(Reached(steps), IngestStep(r, id, now)), later);
            && t in final.tasks
            && final.tasks[t].state == (if UnknownOutcome(Reached(steps).tasks[t].state) then Unresolved else Cancelled)
            && Move(final, lease, state, details, at).Rejected?
  {
    hide FilesOk, KeysUnique, TasksStored, MembersCurrent, Apply, Accepts;
    var db := Reached(steps);
    ReachedInv(steps);
    var step := IngestStep(r, id, now);
    IngestCases(db, r, id, now);
    AcceptRows(db, r, id, now);
    StepKeepsRows(db, step);
    RunOnRow(Apply(db, step), later, t);
  }

  /** A replacement for work with a possible external effect waits, paused and marked, for an operator. */
  lemma ReplacementOfUnknownWaits(db: Db, r: Request, id: TaskId, now: real, t: TaskId)
    requires Inv(db) && Accepts(db, r, id) && r.payload.Some?
    requires t in Outdated(db, r) && (UnknownOutcome(db.tasks[t].state) || db.tasks[t].state.Paused?)
    ensures var next := Apply(db, IngestStep(r, id, now));
            && id in next.tasks && next.tasks[id].state.Paused? && next.tasks[id].lease.None?
            && forall worker, at, ttl :: Claim(next, id, worker, at, ttl).Rejected?
    ensures var next := Apply(db, IngestStep(r, id, now));
            UnknownOutcome(db.tasks[t].state) ==>
              && t in next.tasks && next.tasks[t].state.Unresolved?
              && next.log != []
              && next.log[|next.log| - 1].task == id
              && next.log[|next.log| - 1].kind.Created? && next.log[|next.log| - 1].kind.reconcile
  {
    hide RowInv, FilesOk, KeysUnique, TasksStored, MembersCurrent, Apply, Accepts;
    IngestCases(db, r, id, now);
    AcceptRows(db, r, id, now);
    var ws := AcceptWrites(db, r, id, now);
    PutAllLog(db, ws);
    assert StartsPaused(db, Outdated(db, r));
    assert ws[|ws| - 1] == CreatedWrite(id, NewRow(r.repository, r.payload.value, None, Paused, now),
                                        Some(OriginOf(r, NextVersion(db.files, r))), Reconciles(db, Outdated(db, r)));
  }

  /**
   Over every later run: no worker gets that replacement before an operator resumes or steers it, and as long
   as it is paused either of the two queues it.
   */
  lemma ReplacementsWaitForOperators(db: Db, r: Request, id: TaskId, now: real, t: TaskId, later: seq<Step>)
    requires Inv(db) && Accepts(db, r, id) && r.payload.Some?
    requires t in Outdated(db, r) && (UnknownOutcome(db.tasks[t].state) || db.tasks[t].state.Paused?)
    requires forall i :: 0 <= i < |later| ==> !LetsGo(later[i], id)
    ensures var final := Run(Apply(db, IngestStep(r, id, now)), later);
            && id in final.tasks && final.tasks[id].lease.None?
            && (forall worker, at, ttl :: Claim(final, id, worker, at, ttl).Rejected?)
            && (final.tasks[id].state.Paused? || Terminal(final.tasks[id].state))
            && (final.tasks[id].state.Paused? ==>
                  forall action: Action, instruction, at | ControlShape(action, instruction)
                    && (action.Resume? || action.Steer?) ::
                    id in Apply(final, ControlStep(id, action, instruction, at)).tasks
                    && Apply(final, ControlStep(id, action, instruction, at)).tasks[id].state.Queued?)
  {
    hide Inv, RowInv, Apply, Accepts, Run, Claim;
    var next := Apply(db, IngestStep(r, id, now));
    ReplacementOfUnknownWaits(db, r, id, now, t);
    StepKeepsInv(db, IngestStep(r, id, now));
    assert RowInv(next) by { InvRows(next); }
    HeldRowHasNoLease(next, id);
    PausedUntilLetGo(next, later, id);
    var final := Run(next, later);
    forall worker, at, ttl ensures Claim(final, id, worker, at, ttl).Rejected? {
      HeldTasksAreNotClaimed(final, id, worker, at, ttl);
    }
    if final.tasks[id].state.Paused? {
      forall action: Action, instruction, at | ControlShape(action, instruction) && (action.Resume? || action.Steer?)
        ensures id in Apply(final, ControlStep(id, action, instruction, at)).tasks
        ensures Apply(final, ControlStep(id, action, instruction, at)).tasks[id].state.Queued?
      {
        ResumeOrSteerQueues(final, id, action, instruction, at);
      }
    }
  }

  lemma InvRows(db: Db)
    requires Inv(db)
    ensures RowInv(db)
  {
  }

  // ----- receipts and replay keys -----

  lemma StepKeepsReceipts(db: Db, step: Step, k: DeliveryKey)
    requires Inv(db) && k in db.files.deliveries
    ensures k in Apply(db, step).files.deliveries
    ensures Apply(db, step).files.deliveries[k] == db.files.deliveries[k]
    ensures k in db.files.aliases <==> k in Apply(db, step).files.aliases
    ensures k in db.files.aliases ==> Apply(db, step).files.aliases[k] == db.files.aliases[k]
  {
    hide RowInv, FilesOk, KeysUnique, TasksStored, MembersCurrent, Apply;
    if step.IngestStep? {
      IngestCases(db, step.request, step.id, step.now);
      if !Accepts(db, step.request, step.id) {
        NotAcceptedCases(db, step.request, step.id, step.now);
      }
    } else {
      OnlyIngestFiles(db, step);
    }
  }

  /** A receipt never changes: body, repository, group, version, task and recorded replay key. */
  lemma {:induction false} ReceiptsNeverChange(db: Db, later: seq<Step>, k: DeliveryKey)
    requires Inv(db) && k in db.files.deliveries
    ensures k in Run(db, later).files.deliveries
    ensures ReceiptOf(Run(db, later).files, k, true) == ReceiptOf(db.files, k, true)
    decreases |later|
  {
    if later != [] {
      StepKeepsReceipts(db, later[0], k);
      StepKeepsInv(db, later[0]);
      ReceiptsNeverChange(Apply(db, later[0]), later[1..], k);
    }
  }

  /** All deliveries that recorded one (provider, repository, replay key) agree, so they name one task. */
  lemma OneReceiptPerReplayKey(steps: seq<Step>, a: DeliveryKey, b: DeliveryKey)
    requires var files := Reached(steps).files;
             && a in files.aliases && b in files.aliases && a in files.deliveries && b in files.deliveries
             && a.provider == b.provider && files.aliases[a] == files.aliases[b]
             && files.deliveries[a].repository == files.deliveries[b].repository
    ensures Reached(steps).files.deliveries[a] == Reached(steps).files.deliveries[b]
  {
    ReachedInv(steps);
    var files := Reached(steps).files;
    assert files.deliveries[Root(files, a).value] == files.deliveries[a];
    assert files.deliveries[Root(files, b).value] == files.deliveries[b];
  }

  /** Two deliveries that name the same task share their replay key's canonical receipt, or are the same. */
  lemma TasksComeFromOneDelivery(steps: seq<Step>, a: DeliveryKey, b: DeliveryKey)
    requires var files := Reached(steps).files;
             && Original(files, a) && Original(files, b)
             && files.deliveries[a].task.Some? && files.deliveries[a].task == files.deliveries[b].task
    ensures a == b
  {
    ReachedInv(steps);
  }

  /** A redelivery, by delivery id or by replay key, changes no task, event or group and repeats the receipt. */
  lemma RedeliveryRepeats(db: Db, r: Request, id: TaskId, now: real)
    requires Inv(db) && (KeyOf(r) in db.files.deliveries || Known(db.files, r).Some?)
    ensures var next := Apply(db, IngestStep(r, id, now));
            && next.tasks == db.tasks && next.log == db.log
            && next.files.groups == db.files.groups && next.files.members == db.files.members
            && next.files.replays == db.files.replays
    ensures var o := Ingest(db, r, id, now);
            var source := if KeyOf(r) in db.files.deliveries then KeyOf(r) else Known(db.files, r).value;
            o.Done? ==>
              && o.value.duplicate
              && o.value.delivery == db.files.deliveries[source] && o.value.delivery.body == r.body
  {
    hide RowInv, KeysUnique, TasksStored, MembersCurrent, AliasesAgree, TasksFiledOnce, VersionsCount, VersionsBounded,
      VersionsDiffer, MembersDiffer;
    RefusedKeepsGroups(db, r, id, now);
    IngestCases(db, r, id, now);
  }

  // ----- idempotency keys of create_task -----

  /** An idempotency key belongs to one task for ever, and repeating the request returns that task. */
  lemma CreateTaskIsIdempotent(
      steps: seq<Step>, id: TaskId, repository: string, payload: string, key: string, now: real,
      later: seq<Step>, again: TaskId, at: real)
    requires CreateTask(Reached(steps), id, repository, payload, Some(key), now).Done?
    ensures var first := CreateTask(Reached(steps), id, repository, payload, Some(key), now);
            var db := Run(first.db, later);
            CreateTask(db, again, repository, payload, Some(key), at) == Done(db, first.value)
  {
    ReachedInv(steps);
    var db := Reached(steps);
    var first := CreateTask(db, id, repository, payload, Some(key), now);
    var step := CreateStep(id, repository, payload, Some(key), now);
    assert first.db == Apply(db, step);
    StepKeepsInv(db, step);
    CreatedUnderKey(db, id, repository, payload, key, now);
    RunKeepsInv(first.db, later);
    KeyStays(first.db, later, first.value);
    RepeatFindsOwner(Run(first.db, later), first.value, again, repository, payload, key, at);
  }

  lemma CreatedUnderKey(db: Db, id: TaskId, repository: string, payload: string, key: string, now: real)
    requires CreateTask(db, id, repository, payload, Some(key), now).Done?
    ensures var o := CreateTask(db, id, repository, payload, Some(key), now);
            && o.value in o.db.tasks
            && o.db.tasks[o.value].key == Some(key)
            && o.db.tasks[o.value].repository == repository && o.db.tasks[o.value].payload == payload
            && !Blank(repository)
  {
  }

  lemma {:induction false} KeyStays(db: Db, later: seq<Step>, id: TaskId)
    requires Inv(db) && id in db.tasks
    ensures id in Run(db, later).tasks
    ensures var after := Run(db, later).tasks[id];
            && after.key == db.tasks[id].key && after.repository == db.tasks[id].repository
              && after.payload == db.tasks[id].payload
    decreases |later|
  {
    if later != [] {
      StepOnRow(db, later[0], id);
      StepKeepsInv(db, later[0]);
      KeyStays(Apply(db, later[0]), later[1..], id);
    }
  }

  lemma RepeatFindsOwner(db: Db, owner: TaskId, id: TaskId, repository: string, payload: string, key: string, now: real)
    requires KeysUnique(db.tasks) && owner in db.tasks && db.tasks[owner].key == Some(key)
    requires db.tasks[owner].repository == repository && db.tasks[owner].payload == payload && !Blank(repository)
    ensures CreateTask(db, id, repository, payload, Some(key), now) == Done(db, owner)
  {
    assert KeyTaken(db, key);
  }
}
