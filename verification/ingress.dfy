/**
 GitHub event ingestion above the store: duplicate lookup, replay lookup and the compare-and-swap retry
 loop of `_store_grouped`. Between any two store calls of a handler, other handlers, workers and
 operators may commit any steps; a schedule says which.
 */
module Ingress {
  import opened Wrappers
  import opened Rows
  import opened StoreSpec
  import opened StoreRuns
  import opened StoreLog
  import opened StoreDeliveries
  import opened StoreGuarantees

  const MAX_RECONCILE_ATTEMPTS := 3
  const RELEASE_PREFIX := "github:release:"

  /** One authenticated delivery: its id, the digests of body and of event with body, its repository. */
  datatype Incoming = Incoming(delivery: string, body: string, replay: string, repository: string)

  /** What `build_payload` found at the provider. */
  datatype Observation = Race | Invalid | Nothing | Found(payload: string)

  /** One turn of the loop: the observation, and what others commit around it. */
  datatype Attempt = Attempt(
    before: seq<Step>,      // until the group version is read
    during: seq<Step>,      // while the provider is queried, until the delivery is stored
    observed: Observation,
    id: TaskId,
    now: real,
    after: seq<Step>)       // after a conflict, until the duplicate lookup

  datatype Status = Enqueued | Ignored | CancelledRun

  datatype Answer =
    | Answered(receipt: Receipt, status: Status)
    | Conflicted            // EventConflict leaves the handler
    | GaveUp                // EventRace after the last attempt
    | Aborted               // InvalidEvent or a failed query
    | StoreFailed(error: Error)

  /** How a handler ends: the database, its answer, the steps of others, and its own step if it committed one. */
  datatype Handled = Handled(db: Db, answer: Answer, others: seq<Step>, own: Option<Step>)

  function ReceiptStatus(receipt: Receipt): Status {
    if receipt.delivery.task.Some? then Enqueued
    else if receipt.delivery.slot.None? || RELEASE_PREFIX <= receipt.delivery.slot.value.group then Ignored
    else CancelledRun
  }

  function DeliveryOf(d: Incoming): DeliveryKey { DeliveryKey("github", d.delivery) }

  /** `_duplicate`: nothing, the earlier receipt with its status, or a conflict. */
  function Duplicate(files: Files, d: Incoming): Option<Answer> {
    var key := DeliveryOf(d);
    if key !in files.deliveries then None
    else if files.deliveries[key].body != d.body || files.deliveries[key].repository != d.repository
            || (key in files.aliases && files.aliases[key] != d.replay) then Some(Conflicted)
    else Some(Answered(ReceiptOf(files, key, true), ReceiptStatus(ReceiptOf(files, key, true))))
  }

  function GroupedRequest(d: Incoming, group: string, observed: Observation, version: nat): Request {
    Request("github", d.delivery, d.body, d.repository, if observed.Found? then Some(observed.payload) else None,
            Some(group), Some(version), Some(d.replay))
  }

  function UngroupedRequest(d: Incoming): Request {
    Request("github", d.delivery, d.body, d.repository, None, None, None, Some(d.replay))
  }

  function Answering(o: StoreSpec.Outcome<Receipt>): Answer {
    if o.Done? then Answered(o.value, ReceiptStatus(o.value)) else StoreFailed(o.error)
  }

  /** `_store_grouped` over the attempts that are left. */
  ghost function StoreGrouped(db: Db, d: Incoming, group: string, attempts: seq<Attempt>): Handled
    decreases |attempts|
  {
    if attempts == [] then Handled(db, GaveUp, [], None)
    else
      var a := attempts[0];
      var read := Run(db, a.before);
      var version := GroupVersion(read.files, Scope(d.repository, group));
      var ready := Run(read, a.during);
      var seen := a.before + a.during;
      if a.observed.Invalid? then Handled(ready, Aborted, seen, None)
      else if a.observed.Race? then Following(seen, StoreGrouped(ready, d, group, attempts[1..]))
      else
        var r := GroupedRequest(d, group, a.observed, version);
        var o := Ingest(ready, r, a.id, a.now);
        if o.Done? then Handled(o.db, Answering(o), seen, Some(IngestStep(r, a.id, a.now)))
        else if o.error != EventConflict then Handled(ready, StoreFailed(o.error), seen, None)
        else
          var late := Run(ready, a.after);
          var earlier := Duplicate(late.files, d);
          if earlier.Some? then Handled(late, earlier.value, seen + a.after, None)
          else Following(seen + a.after, StoreGrouped(late, d, group, attempts[1..]))
  }

  function Following(steps: seq<Step>, h: Handled): Handled {
    h.(others := steps + h.others)
  }

  /** The database a handler finds when it enters attempt `k`. */
  ghost function Entering(db: Db, d: Incoming, group: string, attempts: seq<Attempt>, k: nat): Db
    requires k < |attempts|
    decreases k
  {
    if k == 0 then db
    else
      var a := attempts[0];
      var ready := Run(Run(db, a.before), a.during);
      Entering(if a.observed.Race? then ready else Run(ready, a.after), d, group, attempts[1..], k - 1)
  }

  /** Everything committed while a handler runs, its own step last. */
  function Trace(h: Handled): seq<Step> {
    h.others + (if h.own.Some? then [h.own.value] else [])
  }

  /** A handler ends where the steps of others and at most one step of its own lead. */
  lemma {:induction false} HandlerCommitsAtMostOnce(db: Db, d: Incoming, group: string, attempts: seq<Attempt>)
    ensures StoreGrouped(db, d, group, attempts).db == Run(db, Trace(StoreGrouped(db, d, group, attempts)))
    decreases |attempts|
  {
    hide Ingest, Apply, Run, Trace;
    var h := StoreGrouped(db, d, group, attempts);
    if attempts == [] {
      NoSteps(db);
      NothingCommitted(db, h);
    } else {
      var a := attempts[0];
      var read := Run(db, a.before);
      var ready := Run(read, a.during);
      var r := GroupedRequest(d, group, a.observed, GroupVersion(read.files, Scope(d.repository, group)));
      RunAppend(db, a.before, a.during);
      RunAppend(db, a.before + a.during, a.after);
      if a.observed.Race? {
        HandlerCommitsAtMostOnce(ready, d, group, attempts[1..]);
        TraceFollows(db, a.before + a.during, StoreGrouped(ready, d, group, attempts[1..]));
      } else if a.observed.Invalid? {
        NothingCommitted(db, h);
      } else if Ingest(ready, r, a.id, a.now).Done? {
        StoredLast(db, h);
      } else if Ingest(ready, r, a.id, a.now).error != EventConflict {
        NothingCommitted(db, h);
      } else if Duplicate(Run(ready, a.after).files, d).Some? {
        NothingCommitted(db, h);
      } else {
        HandlerCommitsAtMostOnce(Run(ready, a.after), d, group, attempts[1..]);
        TraceFollows(db, a.before + a.during + a.after, StoreGrouped(Run(ready, a.after), d, group, attempts[1..]));
      }
    }
  }

  lemma NoSteps(db: Db)
    ensures Run(db, []) == db
  {
  }

  lemma NothingCommitted(db: Db, h: Handled)
    requires h.own.None? && h.db == Run(db, h.others)
    ensures h.db == Run(db, Trace(h))
  {
    assert Trace(h) == h.others;
  }

  lemma StoredLast(db: Db, h: Handled)
    requires h.own.Some? && h.own.value.IngestStep?
    requires var s := h.own.value; h.db == After(Run(db, h.others), Ingest(Run(db, h.others), s.request, s.id, s.now))
    ensures h.db == Run(db, Trace(h))
  {
    hide Ingest;
    RunAppend(db, h.others, [h.own.value]);
    var last := Run(db, h.others);
    assert Run(last, [h.own.value]) == Run(Apply(last, h.own.value), []) by { assert [h.own.value][1..] == []; }
  }

  lemma TraceFollows(db: Db, steps: seq<Step>, h: Handled)
    requires h.db == Run(Run(db, steps), Trace(h))
    ensures h.db == Run(db, Trace(Following(steps, h)))
  {
    RunAppend(db, steps, Trace(h));
    assert Trace(Following(steps, h)) == steps + Trace(h);
  }

  // ----- freshness -----

  /** The receipt carries the version after the one read, and nobody advanced the group in between. */
  ghost predicate FreshIn(start: Db, d: Incoming, group: string, a: Attempt, h: Handled) {
    var scope := Scope(d.repository, group);
    var read := Run(start, a.before);
    var version := GroupVersion(read.files, scope);
    && AcceptedIn(read, a.during, scope) == 0
    && h.answer.Answered?
    && h.answer.receipt.delivery.slot == Some(Slot(group, version + 1))
    && GroupVersion(h.db.files, scope) == version + 1
    && (a.observed.Found? || a.observed.Nothing?)
    && (if a.observed.Found?
        then h.answer.receipt.delivery.task == Some(a.id) && a.id in h.db.tasks
          && h.db.tasks[a.id].payload == a.observed.payload
        else h.answer.receipt.delivery.task.None?)
  }

  /** What one accepted grouped delivery leaves behind. */
  lemma AcceptedReceipt(db: Db, r: Request, id: TaskId, now: real)
    requires Accepts(db, r, id) && r.group.Some?
    ensures var o := Ingest(db, r, id, now);
            && o.Done? && !o.value.duplicate
            && o.value.delivery == Delivery(r.body, r.repository,
                 Some(Slot(r.group.value, GroupVersion(db.files, ScopeOf(r)) + 1)),
                 if r.payload.Some? then Some(id) else None)
            && GroupVersion(o.db.files, ScopeOf(r)) == GroupVersion(db.files, ScopeOf(r)) + 1
            && (r.payload.Some? ==> id in o.db.tasks && o.db.tasks[id].payload == r.payload.value)
  {
    IngestCases(db, r, id, now);
    AcceptRows(db, r, id, now);
  }

  lemma NewReceiptIsAccepted(db: Db, r: Request, id: TaskId, now: real)
    requires Ingest(db, r, id, now).Done? && !Ingest(db, r, id, now).value.duplicate
    ensures Accepts(db, r, id)
  {
    hide PutAll, AcceptWrites;
  }

  lemma FreshAttempt(start: Db, d: Incoming, group: string, a: Attempt, h: Handled)
    requires a.observed.Found? || a.observed.Nothing?
    requires var read := Run(start, a.before);
             var r := GroupedRequest(d, group, a.observed, GroupVersion(read.files, Scope(d.repository, group)));
             var o := Ingest(Run(read, a.during), r, a.id, a.now);
             o.Done? && !o.value.duplicate && h.db == o.db && h.answer == Answering(o)
    ensures FreshIn(start, d, group, a, h)
  {
    hide Ingest, Apply, Accepts;
    var scope := Scope(d.repository, group);
    var read := Run(start, a.before);
    var ready := Run(read, a.during);
    var version := GroupVersion(read.files, scope);
    var r := GroupedRequest(d, group, a.observed, version);
    NewReceiptIsAccepted(ready, r, a.id, a.now);
    AcceptedReceipt(ready, r, a.id, a.now);
    VersionMovesWithDeliveries(read, a.during, scope);
    assert GroupVersion(ready.files, scope) == version by { AcceptsAtVersion(ready, r, a.id); }
  }

  lemma AcceptsAtVersion(db: Db, r: Request, id: TaskId)
    requires Accepts(db, r, id) && r.expected.Some?
    ensures r.expected.value == GroupVersion(db.files, ScopeOf(r))
  {
  }

  /** A newly filed delivery is fresh in the attempt that filed it, whatever the others did. */
  lemma {:induction false} NewReceiptsAreFresh(db: Db, d: Incoming, group: string, attempts: seq<Attempt>)
    requires var answer := StoreGrouped(db, d, group, attempts).answer; answer.Answered? && !answer.receipt.duplicate
    ensures exists k :: 0 <= k < |attempts|
              && FreshIn(Entering(db, d, group, attempts, k), d, group, attempts[k],
                StoreGrouped(db, d, group, attempts))
    decreases |attempts|
  {
    hide Ingest, Apply, FreshIn;
    var h := StoreGrouped(db, d, group, attempts);
    var a := attempts[0];
    var read := Run(db, a.before);
    var ready := Run(read, a.during);
    var r := GroupedRequest(d, group, a.observed, GroupVersion(read.files, Scope(d.repository, group)));
    var o := Ingest(ready, r, a.id, a.now);
    if !a.observed.Race? && o.Done? {
      FreshAttempt(db, d, group, a, h);
      assert FreshIn(Entering(db, d, group, attempts, 0), d, group, attempts[0], h);
    } else {
      var mid := if a.observed.Race? then ready else Run(ready, a.after);
      var rest := StoreGrouped(mid, d, group, attempts[1..]);
      NewReceiptsAreFresh(mid, d, group, attempts[1..]);
      var k :| 0 <= k < |attempts[1..]|
        && FreshIn(Entering(mid, d, group, attempts[1..], k), d, group, attempts[1..][k], rest);
      FreshIgnoresOthers(Entering(mid, d, group, attempts[1..], k), d, group, attempts[k + 1], rest, h);
      assert FreshIn(Entering(db, d, group, attempts, k + 1), d, group, attempts[k + 1], h);
    }
  }

  lemma FreshIgnoresOthers(start: Db, d: Incoming, group: string, a: Attempt, h: Handled, g: Handled)
    requires FreshIn(start, d, group, a, h) && g.db == h.db && g.answer == h.answer
    ensures FreshIn(start, d, group, a, g)
  {
  }

  /** For a delivery not filed yet, the compare-and-swap succeeds exactly when the group stood still. */
  lemma AttemptCommitsIff(start: Db, d: Incoming, group: string, a: Attempt)
    requires a.observed.Found? || a.observed.Nothing?
    requires var ready := Run(Run(start, a.before), a.during);
             DeliveryOf(d) !in ready.files.deliveries
             && Canonical(ready.files, ReplayKey("github", d.repository, d.replay)).None? && a.id !in ready.tasks
    ensures var read := Run(start, a.before);
            var r := GroupedRequest(d, group, a.observed, GroupVersion(read.files, Scope(d.repository, group)));
            Ingest(Run(read, a.during), r, a.id, a.now).Done? <==>
              AcceptedIn(read, a.during, Scope(d.repository, group)) == 0
  {
    hide Apply, PutAll, AcceptWrites;
    var read := Run(start, a.before);
    VersionMovesWithDeliveries(read, a.during, Scope(d.repository, group));
  }

  /** Giving up, aborting or conflicting leaves nothing of the handler's own behind. */
  lemma FailuresLeaveNoReceipt(db: Db, d: Incoming, group: string, attempts: seq<Attempt>)
    requires !StoreGrouped(db, d, group, attempts).answer.Answered?
    ensures StoreGrouped(db, d, group, attempts).own.None?
    ensures StoreGrouped(db, d, group, attempts).db == Run(db, StoreGrouped(db, d, group, attempts).others)
  {
    hide StoreGrouped, Run;
    OwnMeansAnswered(db, d, group, attempts);
    HandlerCommitsAtMostOnce(db, d, group, attempts);
    assert Trace(StoreGrouped(db, d, group, attempts)) == StoreGrouped(db, d, group, attempts).others;
  }

  lemma {:induction false} OwnMeansAnswered(db: Db, d: Incoming, group: string, attempts: seq<Attempt>)
    ensures StoreGrouped(db, d, group, attempts).own.Some? ==> StoreGrouped(db, d, group, attempts).answer.Answered?
    decreases |attempts|
  {
    hide Ingest, Apply;
    if attempts != [] {
      var a := attempts[0];
      var ready := Run(Run(db, a.before), a.during);
      OwnMeansAnswered(if a.observed.Race? then ready else Run(ready, a.after), d, group, attempts[1..]);
    }
  }

  // ----- redelivery -----

  /** A filed delivery answers every later redelivery with the same receipt data and status. */
  lemma RedeliveryRepeatsStatus(db: Db, d: Incoming, later: seq<Step>)
    requires Inv(db) && Duplicate(db.files, d).Some?
    ensures Duplicate(Run(db, later).files, d) == Duplicate(db.files, d)
  {
    hide Inv;
    ReceiptsNeverChange(db, later, DeliveryOf(d));
  }

  /** A receipt the loop just returned is what the duplicate lookup will say from then on. */
  lemma {:induction false} AnswersAreRemembered(db: Db, d: Incoming, group: string, attempts: seq<Attempt>)
    requires Inv(db) && StoreGrouped(db, d, group, attempts).answer.Answered?
    ensures var h := StoreGrouped(db, d, group, attempts);
            Duplicate(h.db.files, d) == Some(Answered(h.answer.receipt.(duplicate := true), h.answer.status))
    decreases |attempts|
  {
    hide Inv, Ingest, Apply;
    var a := attempts[0];
    var read := Run(db, a.before);
    var ready := Run(read, a.during);
    RunKeepsInv(db, a.before);
    RunKeepsInv(read, a.during);
    RunKeepsInv(ready, a.after);
    var r := GroupedRequest(d, group, a.observed, GroupVersion(read.files, Scope(d.repository, group)));
    var o := Ingest(ready, r, a.id, a.now);
    if !a.observed.Race? && o.Done? {
      StoredIsRemembered(ready, r, a.id, a.now, d);
    } else if a.observed.Race? || Duplicate(Run(ready, a.after).files, d).None? {
      AnswersAreRemembered(if a.observed.Race? then ready else Run(ready, a.after), d, group, attempts[1..]);
    }
  }

  lemma StoredIsRemembered(db: Db, r: Request, id: TaskId, now: real, d: Incoming)
    requires Inv(db) && Ingest(db, r, id, now).Done?
    requires KeyOf(r) == DeliveryOf(d) && r.body == d.body && r.repository == d.repository && r.replay == Some(d.replay)
    ensures var o := Ingest(db, r, id, now);
            && Duplicate(o.db.files, d).Some?
            && Duplicate(o.db.files, d).value == Answered(o.value.(duplicate := true), ReceiptStatus(o.value))
  {
    hide RowInv, KeysUnique, TasksStored, MembersCurrent, AliasesAgree, TasksFiledOnce, VersionsCount, VersionsBounded,
      VersionsDiffer, MembersDiffer, PutAll, AcceptWrites;
  }

  // ----- the whole handler -----

  /** Where a delivery that is neither a duplicate nor a replay goes, and the steps others take meanwhile. */
  datatype Route =
    | Malformed
    | Unwanted(pause: seq<Step>)
    | Grouped(group: string, attempts: seq<Attempt>)

  /**
   One handler's timing: others before the duplicate lookup, before the replay lookup, and before a replay is
   filed.
   */
  datatype Visit = Visit(first: seq<Step>, second: seq<Step>, third: seq<Step>, id: TaskId, now: real, route: Route)

  function KeyOfReplay(d: Incoming): ReplayKey { ReplayKey("github", d.repository, d.replay) }

  /** `ingest_event` with no payload and no group; `shown` is the status the caller reports. */
  ghost function StoreBare(db: Db, d: Incoming, others: seq<Step>, id: TaskId, now: real, ignored: bool): Handled {
    var o := Ingest(db, UngroupedRequest(d), id, now);
    if o.Rejected? then Handled(db, StoreFailed(o.error), others, None)
    else Handled(o.db, Answered(o.value, if ignored then Ignored else ReceiptStatus(o.value)), others,
                 Some(IngestStep(UngroupedRequest(d), id, now)))
  }

  /** `ingest`: duplicate, replay, or the route of the event. */
  ghost function Handle(db: Db, d: Incoming, v: Visit): Handled {
    var first := Run(db, v.first);
    var earlier := Duplicate(first.files, d);
    if earlier.Some? then Handled(first, earlier.value, v.first, None)
    else
      var second := Run(first, v.second);
      var seen := v.first + v.second;
      if Canonical(second.files, KeyOfReplay(d)).Some? then
        StoreBare(Run(second, v.third), d, seen + v.third, v.id, v.now, false)
      else
        match v.route
        case Malformed => Handled(second, Aborted, seen, None)
        case Unwanted(pause) => StoreBare(Run(second, pause), d, seen + pause, v.id, v.now, true)
        case Grouped(group, attempts) => Following(seen, StoreGrouped(second, d, group, attempts))
  }

  lemma BareCommitsAtMostOnce(db: Db, start: Db, d: Incoming, others: seq<Step>, id: TaskId, now: real, ignored: bool)
    requires db == Run(start, others)
    ensures StoreBare(db, d, others, id, now, ignored).db
        == Run(start, Trace(StoreBare(db, d, others, id, now, ignored)))
  {
    hide Ingest, Apply, Run, Trace;
    var h := StoreBare(db, d, others, id, now, ignored);
    if h.own.Some? {
      StoredLast(start, h);
    } else {
      NothingCommitted(start, h);
    }
  }

  /** Whatever the interleaving, one handler adds at most one step to the run, and none when it fails. */
  lemma HandleCommitsAtMostOnce(db: Db, d: Incoming, v: Visit)
    ensures Handle(db, d, v).db == Run(db, Trace(Handle(db, d, v)))
    ensures !Handle(db, d, v).answer.Answered? ==> Handle(db, d, v).own.None?
  {
    hide Ingest, Apply, Run, Trace, StoreGrouped;
    var first := Run(db, v.first);
    var second := Run(first, v.second);
    var seen := v.first + v.second;
    RunAppend(db, v.first, v.second);
    RunAppend(db, seen, v.third);
    var h := Handle(db, d, v);
    if Duplicate(first.files, d).Some? {
      NothingCommitted(db, h);
    } else if Canonical(second.files, KeyOfReplay(d)).Some? {
      BareCommitsAtMostOnce(Run(second, v.third), db, d, seen + v.third, v.id, v.now, false);
    } else if v.route.Malformed? {
      NothingCommitted(db, h);
    } else if v.route.Unwanted? {
      RunAppend(db, seen, v.route.pause);
      BareCommitsAtMostOnce(Run(second, v.route.pause), db, d, seen + v.route.pause, v.id, v.now, true);
    } else {
      HandlerCommitsAtMostOnce(second, d, v.route.group, v.route.attempts);
      OwnMeansAnswered(second, d, v.route.group, v.route.attempts);
      TraceFollows(db, seen, StoreGrouped(second, d, v.route.group, v.route.attempts));
    }
  }

  /** The canonical delivery of a replay key stays canonical. */
  lemma {:induction false} CanonicalStays(db: Db, later: seq<Step>, k: ReplayKey)
    requires Inv(db) && Canonical(db.files, k).Some?
    ensures Canonical(Run(db, later).files, k) == Canonical(db.files, k)
    decreases |later|
  {
    hide Inv;
    if later != [] {
      StepKeepsCanonical(db, later[0], k);
      StepKeepsInv(db, later[0]);
      CanonicalStays(Apply(db, later[0]), later[1..], k);
    }
  }

  lemma StepKeepsCanonical(db: Db, step: Step, k: ReplayKey)
    requires Inv(db) && Canonical(db.files, k).Some?
    ensures Canonical(Apply(db, step).files, k) == Canonical(db.files, k)
  {
    hide RowInv, FilesOk, KeysUnique, TasksStored, MembersCurrent, Apply;
    StepKeepsReceipts(db, step, Canonical(db.files, k).value);
    if step.IngestStep? {
      IngestCases(db, step.request, step.id, step.now);
      if !Accepts(db, step.request, step.id) {
        NotAcceptedCases(db, step.request, step.id, step.now);
      }
    } else {
      OnlyIngestFiles(db, step);
    }
  }

  /** What is filed under the delivery's id or, if nothing is, under its replay key does not contradict it. */
  predicate Consistent(files: Files, d: Incoming, root: DeliveryKey) {
    var key := DeliveryOf(d);
    if key in files.deliveries then
      && files.deliveries[key].body == d.body && files.deliveries[key].repository == d.repository
      && (key in files.aliases ==> files.aliases[key] == d.replay)
    else root in files.deliveries && files.deliveries[root].body == d.body
  }

  /** A database in which the replay key is known: storing the delivery adds at most an alias of `root`. */
  lemma BareReplay(db: Db, d: Incoming, id: TaskId, now: real)
    requires Inv(db) && Canonical(db.files, KeyOfReplay(d)).Some?
    ensures var o := Ingest(db, UngroupedRequest(d), id, now);
            var root := Canonical(db.files, KeyOfReplay(d)).value;
            && (o.Done? <==> Consistent(db.files, d, root))
            && (o.Rejected? ==> o.error == EventConflict)
            && (o.Done? ==>
                  && o.value.duplicate
                  && o.db.tasks == db.tasks && o.db.log == db.log && o.db.files.groups == db.files.groups
                  && (DeliveryOf(d) !in db.files.deliveries ==> DeliveryOf(d) in o.db.files.aliases)
                  && (DeliveryOf(d) in o.db.files.aliases ==> o.value.delivery == db.files.deliveries[root]))
  {
    hide RowInv, KeysUnique, TasksStored, MembersCurrent, TasksFiledOnce, VersionsCount, VersionsBounded,
      VersionsDiffer, MembersDiffer, PutAll, AcceptWrites;
    var key := DeliveryOf(d);
    if key in db.files.deliveries && key in db.files.aliases && db.files.aliases[key] == d.replay {
      assert db.files.deliveries[key].repository == d.repository ==>
        Root(db.files, key) == Canonical(db.files, KeyOfReplay(d));
    }
  }

  lemma FiledReplay(files: Files, d: Incoming)
    requires AliasesAgree(files) && Canonical(files, KeyOfReplay(d)).Some? && Duplicate(files, d).Some?
    ensures var root := Canonical(files, KeyOfReplay(d)).value;
            var answer := Duplicate(files, d).value;
            && (answer.Answered? <==> Consistent(files, d, root)) && (!answer.Answered? ==> answer.Conflicted?)
            && (answer.Answered? ==> answer.receipt.duplicate && answer.status == ReceiptStatus(answer.receipt))
            && (answer.Answered? && DeliveryOf(d) in files.aliases ==>
              answer.receipt.delivery == files.deliveries[root])
  {
    var key := DeliveryOf(d);
    if key in files.aliases && Consistent(files, d, Canonical(files, KeyOfReplay(d)).value) {
      assert Root(files, key) == Canonical(files, KeyOfReplay(d));
    }
  }

  /**
   A body delivered again under any id, whatever others do meanwhile: no task and no group changes. It is
   answered exactly if it contradicts nothing on file, by the original receipt unless somebody filed the id
   without a replay key; otherwise it is a conflict and nothing at all changes.
   */
  lemma ReplaysChangeNothing(db: Db, d: Incoming, v: Visit)
    requires Inv(db) && Canonical(db.files, KeyOfReplay(d)).Some?
    ensures var h := Handle(db, d, v);
            var before := Run(db, h.others);
            var root := Canonical(db.files, KeyOfReplay(d)).value;
            && h.db.tasks == before.tasks && h.db.log == before.log && h.db.files.groups == before.files.groups
            && (h.answer.Answered? <==> Consistent(before.files, d, root))
            && (h.answer.Answered? ==>
                  && h.answer.receipt.duplicate && h.answer.status == ReceiptStatus(h.answer.receipt)
                  && (DeliveryOf(d) in h.db.files.aliases ==> h.answer.receipt.delivery == db.files.deliveries[root]))
            && (!h.answer.Answered? ==>
              h.db == before && (h.answer.Conflicted? || h.answer == StoreFailed(EventConflict)))
  {
    hide Inv, Ingest, Apply, Run, StoreGrouped, UngroupedRequest, Duplicate, Consistent, ReceiptStatus;
    var k := KeyOfReplay(d);
    var first := Run(db, v.first);
    if Duplicate(first.files, d).Some? {
      ReplayKnown(db, v.first, k);
      FiledReplay(first.files, d);
    } else {
      RunAppend(db, v.first, v.second);
      RunAppend(db, v.first + v.second, v.third);
      ReplayKnown(db, v.first + v.second, k);
      ReplayKnown(db, v.first + v.second + v.third, k);
      BareReplay(Run(db, v.first + v.second + v.third), d, v.id, v.now);
    }
  }

  lemma ReplayKnown(db: Db, later: seq<Step>, k: ReplayKey)
    requires Inv(db) && Canonical(db.files, k).Some?
    ensures Inv(Run(db, later)) && AliasesAgree(Run(db, later).files)
    ensures Canonical(Run(db, later).files, k) == Canonical(db.files, k)
    ensures Canonical(db.files, k).value in Run(db, later).files.deliveries
    ensures Run(db, later).files.deliveries[Canonical(db.files, k).value]
        == db.files.deliveries[Canonical(db.files, k).value]
  {
    hide Run, RowInv, KeysUnique, TasksStored, MembersCurrent;
    CanonicalStays(db, later, k);
    RunKeepsInv(db, later);
    ReceiptsNeverChange(db, later, Canonical(db.files, k).value);
  }

  /** The receipt that answers for the delivery already exists and was not filed by an ignored event. */
  predicate FiledElsewhere(files: Files, d: Incoming) {
    if DeliveryOf(d) in files.deliveries then !ReceiptStatus(ReceiptOf(files, DeliveryOf(d), true)).Ignored?
    else
      && Canonical(files, KeyOfReplay(d)).Some?
      && !ReceiptStatus(ReceiptOf(files, Canonical(files, KeyOfReplay(d)).value, true)).Ignored?
  }

  /** An unwanted event finds, when it stores, a receipt another route filed since the replay lookup. */
  ghost predicate Overtaken(db: Db, d: Incoming, v: Visit) {
    var first := Run(db, v.first);
    var second := Run(first, v.second);
    && Duplicate(first.files, d).None? && Canonical(second.files, KeyOfReplay(d)).None?
    && v.route.Unwanted? && FiledElsewhere(Run(second, v.route.pause).files, d)
  }

  /** The reported status is what every later redelivery reports, except for an overtaken unwanted event. */
  lemma HandlersAreRemembered(db: Db, d: Incoming, v: Visit, later: seq<Step>)
    requires Inv(db) && Handle(db, d, v).answer.Answered?
    ensures var h := Handle(db, d, v);
            var again := Duplicate(Run(h.db, later).files, d);
            && again.Some? && again.value.Answered?
            && again.value.receipt == h.answer.receipt.(duplicate := true)
            && (again.value.status == h.answer.status <==> !Overtaken(db, d, v))
  {
    hide Inv, Ingest, Apply, Run, StoreGrouped, Duplicate, Trace, Overtaken, Handle, ReceiptStatus;
    var h := Handle(db, d, v);
    HandleIsRemembered(db, d, v);
    HandleCommitsAtMostOnce(db, d, v);
    RunKeepsInv(db, Trace(h));
    RedeliveryRepeatsStatus(h.db, d, later);
  }

  lemma HandleIsRemembered(db: Db, d: Incoming, v: Visit)
    requires Inv(db) && Handle(db, d, v).answer.Answered?
    ensures var h := Handle(db, d, v);
            && Duplicate(h.db.files, d)
              == Some(Answered(h.answer.receipt.(duplicate := true), ReceiptStatus(h.answer.receipt)))
            && (ReceiptStatus(h.answer.receipt) == h.answer.status <==> !Overtaken(db, d, v))
  {
    hide Inv, Ingest, Apply, Run, StoreGrouped, FiledElsewhere, ReceiptStatus;
    var first := Run(db, v.first);
    var second := Run(first, v.second);
    RunKeepsInv(db, v.first);
    RunKeepsInv(first, v.second);
    var h := Handle(db, d, v);
    if Duplicate(first.files, d).Some? {
      StatusIgnoresDuplicate(ReceiptOf(first.files, DeliveryOf(d), true));
    } else if Canonical(second.files, KeyOfReplay(d)).Some? {
      RunKeepsInv(second, v.third);
      StoredIsRemembered(Run(second, v.third), UngroupedRequest(d), v.id, v.now, d);
    } else if v.route.Unwanted? {
      RunKeepsInv(second, v.route.pause);
      StoredIsRemembered(Run(second, v.route.pause), UngroupedRequest(d), v.id, v.now, d);
      BareStatus(Run(second, v.route.pause), d, v.id, v.now);
    } else {
      AnswersAreRemembered(second, d, v.route.group, v.route.attempts);
      GroupedStatus(second, d, v.route.group, v.route.attempts);
    }
  }

  lemma StatusIgnoresDuplicate(r: Receipt)
    ensures ReceiptStatus(r.(duplicate := true)) == ReceiptStatus(r)
  {
  }

  /** Stored without a payload or a group, a delivery is ignored unless an earlier receipt answers for it. */
  lemma BareStatus(db: Db, d: Incoming, id: TaskId, now: real)
    requires Inv(db) && Ingest(db, UngroupedRequest(d), id, now).Done?
    ensures ReceiptStatus(Ingest(db, UngroupedRequest(d), id, now).value).Ignored? <==> !FiledElsewhere(db.files, d)
  {
    hide RowInv, KeysUnique, TasksStored, MembersCurrent, AliasesAgree, TasksFiledOnce, VersionsCount, VersionsBounded,
      VersionsDiffer, MembersDiffer, PutAll, AcceptWrites;
  }

  lemma {:induction false} GroupedStatus(db: Db, d: Incoming, group: string, attempts: seq<Attempt>)
    ensures var answer := StoreGrouped(db, d, group, attempts).answer;
            answer.Answered? ==> answer.status == ReceiptStatus(answer.receipt)
    decreases |attempts|
  {
    hide Ingest, Apply, Run, ReceiptStatus;
    if attempts != [] {
      var a := attempts[0];
      var ready := Run(Run(db, a.before), a.during);
      GroupedStatus(if a.observed.Race? then ready else Run(ready, a.after), d, group, attempts[1..]);
    }
  }
}
