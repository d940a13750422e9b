/**
 What an event handler answers and stores, told from what it finds at each of its looks: which attempt of
 the retry loop decides, and what each route leads to.
 */
module IngressAnswers {
  import opened Wrappers
  import opened Rows
  import opened StoreSpec
  import opened StoreRuns
  import opened StoreDeliveries
  import opened Ingress

  // ----- one attempt -----

  /** The database that an attempt finds when it stores. */
  ghost function Ready(start: Db, a: Attempt): Db { Run(Run(start, a.before), a.during) }

  /** The request of an attempt: what it observed, expected at the version it read. */
  ghost predicate Requested(start: Db, d: Incoming, group: string, a: Attempt, r: Request) {
    var scope := Scope(d.repository, group);
    var files := Run(start, a.before).files;
    && r.provider == "github" && r.delivery == d.delivery && r.body == d.body && r.repository == d.repository
    && r.group == Some(group) && r.replay == Some(d.replay)
    && r.payload == (if a.observed.Found? then Some(a.observed.payload) else None)
    && r.expected == Some(if scope in files.groups then files.groups[scope] else 0)
  }

  /** The provider showed a race, or the store saw one and the delivery is still not on file afterwards. */
  ghost predicate Lost(start: Db, d: Incoming, group: string, a: Attempt) {
    || a.observed.Race?
    || (!a.observed.Invalid?
        && (forall r :: Requested(start, d, group, a, r) ==>
              Ingest(Ready(start, a), r, a.id, a.now) == Rejected(EventConflict))
        && DeliveryKey("github", d.delivery) !in Run(Ready(start, a), a.after).files.deliveries)
  }

  /** What an attempt that is not lost answers, and the one step it commits if it commits one. */
  ghost predicate Decides(start: Db, d: Incoming, group: string, a: Attempt, h: Handled) {
    var ready := Ready(start, a);
    var late := Run(ready, a.after);
    if a.observed.Invalid? then h.answer == Aborted && h.own.None? && h.db == ready
    else
      exists r :: Requested(start, d, group, a, r) &&
        match Ingest(ready, r, a.id, a.now)
        case Done(db, receipt) =>
          && h.answer == Answered(receipt, ReceiptStatus(receipt))
          && h.own == Some(IngestStep(r, a.id, a.now)) && h.db == db
        case Rejected(error) =>
          && h.own.None?
          && if error == EventConflict then Some(h.answer) == Duplicate(late.files, d) && h.db == late
             else h.answer == StoreFailed(error) && h.db == ready
  }

  ghost predicate LostAt(db: Db, d: Incoming, group: string, attempts: seq<Attempt>, k: nat) {
    k < |attempts| && Lost(Entering(db, d, group, attempts, k), d, group, attempts[k])
  }

  /** Attempt `k` is the first that is not lost, and decides. */
  ghost predicate DecidesAt(db: Db, d: Incoming, group: string, attempts: seq<Attempt>, k: nat, h: Handled) {
    && k < |attempts| && !LostAt(db, d, group, attempts, k)
    && (forall j: nat :: j < k ==> LostAt(db, d, group, attempts, j))
    && Decides(Entering(db, d, group, attempts, k), d, group, attempts[k], h)
  }

  /** How the loop ends. */
  ghost predicate Concluded(db: Db, d: Incoming, group: string, attempts: seq<Attempt>, h: Handled) {
    if forall k: nat :: k < |attempts| ==> LostAt(db, d, group, attempts, k)
    then h.answer == GaveUp && h.own.None?
    else exists k: nat :: DecidesAt(db, d, group, attempts, k, h)
  }

  lemma RequestIs(start: Db, d: Incoming, group: string, a: Attempt, r: Request)
    ensures Requested(start, d, group, a, r) <==>
        r == GroupedRequest(d, group, a.observed, GroupVersion(Run(start, a.before).files, Scope(d.repository, group)))
  {
  }

  lemma NotOnFile(files: Files, d: Incoming)
    ensures Duplicate(files, d).None? <==> DeliveryKey("github", d.delivery) !in files.deliveries
  {
  }

  /** The retry loop: the first attempt that is not lost decides, and when all are lost the handler gives up. */
  lemma {:induction false} FirstNotLostDecides(db: Db, d: Incoming, group: string, attempts: seq<Attempt>)
    ensures Concluded(db, d, group, attempts, StoreGrouped(db, d, group, attempts))
    decreases |attempts|
  {
    hide Ingest, Run, Lost, Decides;
    var h := StoreGrouped(db, d, group, attempts);
    if attempts != [] {
      var a := attempts[0];
      FirstAttempt(db, d, group, attempts);
      if Lost(db, d, group, a) {
        var next := if a.observed.Race? then Ready(db, a) else Run(Ready(db, a), a.after);
        FirstNotLostDecides(next, d, group, attempts[1..]);
        LaterDecides(db, next, d, group, attempts, StoreGrouped(next, d, group, attempts[1..]), h);
      } else {
        assert Entering(db, d, group, attempts, 0) == db && !LostAt(db, d, group, attempts, 0);
        assert DecidesAt(db, d, group, attempts, 0, h);
      }
    }
  }

  /** A first attempt that is lost hands over to the rest, any other decides. */
  lemma FirstAttempt(db: Db, d: Incoming, group: string, attempts: seq<Attempt>)
    requires attempts != []
    ensures var a, h := attempts[0], StoreGrouped(db, d, group, attempts);
            if Lost(db, d, group, a) then
              var next := if a.observed.Race? then Ready(db, a) else Run(Ready(db, a), a.after);
              var rest := StoreGrouped(next, d, group, attempts[1..]);
              h.db == rest.db && h.answer == rest.answer && h.own == rest.own
            else Decides(db, d, group, a, h)
  {
    hide Ingest, Run, Duplicate;
    var a := attempts[0];
    var r := GroupedRequest(d, group, a.observed, GroupVersion(Run(db, a.before).files, Scope(d.repository, group)));
    forall q ensures Requested(db, d, group, a, q) <==> q == r { RequestIs(db, d, group, a, q); }
    NotOnFile(Run(Ready(db, a), a.after).files, d);
  }

  lemma LaterDecides(db: Db, next: Db, d: Incoming, group: string, attempts: seq<Attempt>, rest: Handled, h: Handled)
    requires attempts != [] && Lost(db, d, group, attempts[0])
    requires next == if attempts[0].observed.Race? then Ready(db, attempts[0])
                     else Run(Ready(db, attempts[0]), attempts[0].after)
    requires h.db == rest.db && h.answer == rest.answer && h.own == rest.own
    requires Concluded(next, d, group, attempts[1..], rest)
    ensures Concluded(db, d, group, attempts, h)
  {
    hide Lost, Run, Decides;
    var later := attempts[1..];
    forall k: nat ensures LostAt(next, d, group, later, k) <==> LostAt(db, d, group, attempts, k + 1) {}
    if forall k: nat :: k < |later| ==> LostAt(next, d, group, later, k) {
      forall k: nat | k < |attempts| ensures LostAt(db, d, group, attempts, k) {
        if k > 0 { assert LostAt(next, d, group, later, k - 1); }
      }
    } else {
      var k: nat :| DecidesAt(next, d, group, later, k, rest);
      SameDecision(Entering(next, d, group, later, k), d, group, later[k], rest, h);
      forall j: nat | j < k + 1 ensures LostAt(db, d, group, attempts, j) {
        if j > 0 { assert LostAt(next, d, group, later, j - 1); }
      }
      assert DecidesAt(db, d, group, attempts, k + 1, h);
    }
  }

  lemma SameDecision(start: Db, d: Incoming, group: string, a: Attempt, h: Handled, g: Handled)
    requires Decides(start, d, group, a, h) && g.db == h.db && g.answer == h.answer && g.own == h.own
    ensures Decides(start, d, group, a, g)
  {
  }

  // ----- statuses -----

  /** What a receipt says: a task, a withdrawn group, or nothing of interest, releases included. */
  lemma StatusMeans(r: Receipt)
    ensures ReceiptStatus(r).Enqueued? <==> r.delivery.task.Some?
    ensures ReceiptStatus(r).CancelledRun? <==>
              && r.delivery.task.None? && r.delivery.slot.Some?
              && !("github:release:" <= r.delivery.slot.value.group)
  {
  }

  /** A delivery on file is answered exactly if it says the same as before, with what is on file. */
  lemma DuplicateMeans(files: Files, d: Incoming)
    ensures var key := DeliveryKey("github", d.delivery);
            && (Duplicate(files, d).None? <==> key !in files.deliveries)
            && (key in files.deliveries ==>
                  var filed := files.deliveries[key];
                  if filed.body == d.body && filed.repository == d.repository
                     && (key in files.aliases ==> files.aliases[key] == d.replay)
                  then
                    exists receipt: Receipt ::
                      && Duplicate(files, d) == Some(Answered(receipt, ReceiptStatus(receipt)))
                      && receipt.key == key && receipt.delivery == filed && receipt.duplicate
                  else Duplicate(files, d) == Some(Conflicted))
  {
    var key := DeliveryKey("github", d.delivery);
    if key in files.deliveries {
      var receipt := ReceiptOf(files, key, true);
      assert receipt.key == key && receipt.delivery == files.deliveries[key];
    }
  }

  // ----- the whole handler -----

  /** Stored without a payload or a group, under the delivery's own names. */
  ghost predicate StoredBare(db: Db, d: Incoming, id: TaskId, now: real, ignored: bool, h: Handled) {
    var r := Request("github", d.delivery, d.body, d.repository, None, None, None, Some(d.replay));
    match Ingest(db, r, id, now)
    case Done(after, receipt) =>
      && h.db == after && h.own == Some(IngestStep(r, id, now))
      && h.answer == Answered(receipt, if ignored then Ignored else ReceiptStatus(receipt))
    case Rejected(error) => h.db == db && h.own.None? && h.answer == StoreFailed(error)
  }

  /**
   A handler first looks for its delivery and answers from what is on file; then for its replay key, and files a
   copy; only then its route counts: a malformed event stores nothing, an unwanted one is filed and ignored, and a
   grouped one goes through the retry loop.
   */
  lemma HandlerAnswers(db: Db, d: Incoming, v: Visit)
    ensures var h := Handle(db, d, v);
            var first := Run(db, v.first);
            var second := Run(first, v.second);
            var replay := ReplayKey("github", d.repository, d.replay);
            if DeliveryKey("github", d.delivery) in first.files.deliveries then
              h.db == first && h.own.None? && Some(h.answer) == Duplicate(first.files, d)
            else if replay in second.files.replays
                    && DeliveryKey("github", second.files.replays[replay]) in second.files.deliveries then
              StoredBare(Run(second, v.third), d, v.id, v.now, false, h)
            else
              match v.route
              case Malformed => h.db == second && h.own.None? && h.answer == Aborted
              case Unwanted(pause) => StoredBare(Run(second, pause), d, v.id, v.now, true, h)
              case Grouped(group, attempts) =>
                exists g :: Concluded(second, d, group, attempts, g)
                            && h.db == g.db && h.own == g.own && h.answer == g.answer
  {
    hide Ingest, Run, StoreGrouped, Concluded;
    var second := Run(Run(db, v.first), v.second);
    NotOnFile(Run(db, v.first).files, d);
    if v.route.Grouped? {
      FirstNotLostDecides(second, d, v.route.group, v.route.attempts);
    }
  }
}
