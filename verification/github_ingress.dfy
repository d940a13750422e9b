/**
 The event handler as the program runs it, over the store object. Where the program waits on the
 provider or on the database, `Others` performs whatever other users of the store commit meanwhile.
 */
module GitHubIngress {
  import opened Wrappers
  import opened StoreRuns
  import opened Ingress
  import Rows
  import Spec = StoreSpec
  import ControlStore

  class Handler {
    const store: ControlStore.Store

    constructor (store: ControlStore.Store)
      ensures this.store == store
    {
      this.store := store;
    }

    /** One transaction of another user of the store. */
    method Perform(step: Step)
      requires store.Valid()
      modifies store
      ensures store.Valid() && store.Value() == Apply(old(store.Value()), step)
    {
      match step {
        case CreateStep(id, repository, payload, key, now) =>
          var r := store.CreateTask(repository, payload, key, id, now);
        case IngestStep(request, id, now) =>
          var r := store.Ingest(request, id, now);
        case ClaimStep(task, worker, now, ttl) =>
          var r := store.Claim(task, worker, now, ttl);
        case RenewStep(lease, now, ttl) =>
          var r := store.Renew(lease, now, ttl);
        case ReserveStep(lease, role, limit, now) =>
          var r := store.ReserveAiCall(lease, role, limit, now);
        case RecordStep(lease, commit, now) =>
          var r := store.RecordReleaseSuccess(lease, commit, now);
        case MoveStep(lease, state, details, now) =>
          var r := store.Move(lease, state, details, now);
        case ReleaseStep(lease, now) =>
          var r := store.Release(lease, now);
        case ControlStep(task, action, instruction, now) =>
          var r := store.Control(task, action, instruction, now);
        case RecoverStep(now) =>
          var r := store.RecoverExpired(now);
      }
    }

    method Others(steps: seq<Step>)
      requires store.Valid()
      modifies store
      ensures store.Valid() && store.Value() == Run(old(store.Value()), steps)
    {
      hide Apply;
      var i := 0;
      while i < |steps|
        invariant 0 <= i <= |steps|
        invariant store.Valid() && Run(store.Value(), steps[i..]) == Run(old(store.Value()), steps)
      {
        assert steps[i..][1..] == steps[i + 1..] && steps[i..][0] == steps[i];
        Perform(steps[i]);
        i := i + 1;
      }
      assert steps[i..] == [];
    }

    /** `_duplicate`. */
    method FindDuplicate(d: Incoming) returns (r: Option<Answer>)
      ensures r == Duplicate(store.Files(), d)
    {
      var key := DeliveryOf(d);
      if key !in store.deliveries { return None; }
      var receipt := Spec.ReceiptOf(store.Files(), key, true);
      if receipt.delivery.body != d.body || receipt.delivery.repository != d.repository
         || (receipt.replay.Some? && receipt.replay != Some(d.replay)) {
        return Some(Conflicted);
      }
      r := Some(Answered(receipt, ReceiptStatus(receipt)));
    }

    /** `_store_grouped`. */
    method StoreGrouped(d: Incoming, group: string, attempts: seq<Attempt>) returns (answer: Answer)
      requires store.Valid() && |attempts| == MAX_RECONCILE_ATTEMPTS
      modifies store
      ensures store.Valid()
      ensures store.Value() == Ingress.StoreGrouped(old(store.Value()), d, group, attempts).db
      ensures answer == Ingress.StoreGrouped(old(store.Value()), d, group, attempts).answer
    {
      hide Apply, Run, Spec.Ingest, Duplicate;
      ghost var whole := Ingress.StoreGrouped(store.Value(), d, group, attempts);
      assert attempts[0..] == attempts;
      for attempt := 0 to MAX_RECONCILE_ATTEMPTS
        invariant store.Valid()
        invariant SameEnd(whole, Ingress.StoreGrouped(store.Value(), d, group, attempts[attempt..]))
      {
        ghost var left := attempts[attempt..];
        assert left[0] == attempts[attempt] && left[1..] == attempts[attempt + 1..];
        var a := attempts[attempt];
        Others(a.before);
        var version := Spec.GroupVersion(store.Files(), Rows.Scope(d.repository, group));
        Others(a.during);
        if a.observed.Invalid? { return Aborted; }
        if !a.observed.Race? {
          var reply := store.Ingest(GroupedRequest(d, group, a.observed, version), a.id, a.now);
          if reply.Answer? { return Answered(reply.value, ReceiptStatus(reply.value)); }
          if reply.error != Spec.EventConflict { return StoreFailed(reply.error); }
          Others(a.after);
          var duplicate := FindDuplicate(d);
          if duplicate.Some? { return duplicate.value; }
        }
      }
      answer := GaveUp;
    }

    /** `_replay` once a canonical receipt is known, and `_ignored`. */
    method StoreBare(d: Incoming, id: Rows.TaskId, now: real, ignored: bool) returns (answer: Answer)
      requires store.Valid()
      modifies store
      ensures store.Valid()
      ensures store.Value() == Ingress.StoreBare(old(store.Value()), d, [], id, now, ignored).db
      ensures answer == Ingress.StoreBare(old(store.Value()), d, [], id, now, ignored).answer
    {
      hide Apply, Run, Spec.Ingest;
      var reply := store.Ingest(UngroupedRequest(d), id, now);
      if reply.Refused? { return StoreFailed(reply.error); }
      answer := Answered(reply.value, if ignored then Ignored else ReceiptStatus(reply.value));
    }

    /** `ingest`, once the request is known to be well formed and its repository registered. */
    method Ingest(d: Incoming, v: Visit) returns (answer: Answer)
      requires store.Valid() && (v.route.Grouped? ==> |v.route.attempts| == MAX_RECONCILE_ATTEMPTS)
      modifies store
      ensures store.Valid()
      ensures store.Value() == Handle(old(store.Value()), d, v).db
      ensures answer == Handle(old(store.Value()), d, v).answer
    {
      hide Apply, Run, Spec.Ingest, Duplicate, Ingress.StoreGrouped;
      Others(v.first);
      var duplicate := FindDuplicate(d);
      if duplicate.Some? { return duplicate.value; }
      Others(v.second);
      var canonical := Spec.Canonical(store.Files(), KeyOfReplay(d));
      if canonical.Some? {
        Others(v.third);
        answer := StoreBare(d, v.id, v.now, false);
        return;
      }
      match v.route {
        case Malformed =>
          answer := Aborted;
        case Unwanted(pause) =>
          Others(pause);
          answer := StoreBare(d, v.id, v.now, true);
        case Grouped(group, attempts) =>
          answer := StoreGrouped(d, group, attempts);
      }
    }
  }

  ghost predicate SameEnd(a: Handled, b: Handled) {
    a.db == b.db && a.answer == b.answer
  }
}
