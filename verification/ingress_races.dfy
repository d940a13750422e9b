/**
 One event under two configurations. Which route an event takes depends on its kind, its body and the
 configuration of the process that handles it, so the replay key of an event fixes its route as long as all
 processes that share the store run one configuration.
 */
module IngressRaces {
  import opened Wrappers
  import opened Rows
  import opened StoreSpec
  import opened StoreRuns
  import opened StoreLog
  import opened StoreDeliveries
  import opened StoreGuarantees
  import opened Ingress

  const PUSH := Incoming("first", "body", "replay", "repository")

  /** A process whose configuration takes pushes stores the same event under another delivery id. */
  function TakenElsewhere(): Step {
    IngestStep(GroupedRequest(PUSH.(delivery := "second"), "github:push:main", Found("check"), 0), 1, 0.0)
  }

  /** A process whose configuration ignores pushes handles it, and is overtaken after its replay lookup. */
  function Disabled(): Visit {
    Visit([], [], [], 2, 0.0, Unwanted([TakenElsewhere()]))
  }

  lemma TakenElsewhereFiles()
    ensures var db := Run(EMPTY, [TakenElsewhere()]);
            var key := DeliveryKey("github", "second");
            && db.files.deliveries
              == map[key := Delivery("body", "repository", Some(Slot("github:push:main", 1)), Some(1))]
            && db.files.aliases == map[key := "replay"]
            && db.files.replays == map[ReplayKey("github", "repository", "replay") := "second"]
  {
    hide AcceptWrites, PutAll;
    var step := TakenElsewhere();
    assert [step][1..] == [];
    assert Run(EMPTY, [step]) == Run(Apply(EMPTY, step), []);
    assert Accepts(EMPTY, step.request, step.id);
    IngestCases(EMPTY, step.request, step.id, step.now);
  }

  /** The handler says ignored, and every redelivery of the same event will say enqueued. */
  lemma TwoConfigurationsDisagree(later: seq<Step>)
    ensures var h := Handle(EMPTY, PUSH, Disabled());
            && Overtaken(EMPTY, PUSH, Disabled())
            && h.answer.Answered? && h.answer.status == Ignored
            && var again := Duplicate(Run(h.db, later).files, PUSH);
               again.Some? && again.value.Answered? && again.value.status == Enqueued
  {
    hide Inv, Ingest, Run, Apply, Duplicate;
    var db := Run(EMPTY, [TakenElsewhere()]);
    assert Duplicate(EMPTY.files, PUSH).None? && Run(EMPTY, []) == EMPTY by { NothingFiled(PUSH); }
    TakenElsewhereFiles();
    EmptyInv();
    RunKeepsInv(EMPTY, [TakenElsewhere()]);
    assert Canonical(db.files, KeyOfReplay(PUSH)) == Some(DeliveryKey("github", "second"));
    BareReplay(db, PUSH, 2, 0.0);
    HandleIsRemembered(EMPTY, PUSH, Disabled());
    HandleCommitsAtMostOnce(EMPTY, PUSH, Disabled());
    RunKeepsInv(EMPTY, Trace(Handle(EMPTY, PUSH, Disabled())));
    RedeliveryRepeatsStatus(Handle(EMPTY, PUSH, Disabled()).db, PUSH, later);
    assert Handle(EMPTY, PUSH, Disabled()) == StoreBare(db, PUSH, [TakenElsewhere()], 2, 0.0, true);
  }

  lemma NothingFiled(d: Incoming)
    ensures Duplicate(EMPTY.files, d).None? && FiledBare(EMPTY.files, d) && Run(EMPTY, []) == EMPTY
  {
  }

  // ----- one configuration -----

  /** This step is not another filing of the event, or files it as an unwanted one. */
  predicate BareFor(step: Step, d: Incoming) {
    step.IngestStep? && step.request.provider == "github" && (
      || step.request.delivery == d.delivery
      || (step.request.repository == d.repository && step.request.replay == Some(d.replay)))
    ==> step.request == UngroupedRequest(d.(delivery := step.request.delivery, body := step.request.body))
  }

  ghost predicate AllBare(steps: seq<Step>, d: Incoming) {
    forall i :: 0 <= i < |steps| ==> BareFor(steps[i], d)
  }

  /** What is filed under the delivery's id or the event's replay key has neither group nor task. */
  ghost predicate FiledBare(files: Files, d: Incoming) {
    forall k :: k in files.deliveries && Concerns(files, k, d) ==>
      files.deliveries[k].slot.None? && files.deliveries[k].task.None?
  }

  predicate Concerns(files: Files, k: DeliveryKey, d: Incoming)
    requires k in files.deliveries
  {
    k.provider == "github" && (
      k == DeliveryOf(d) ||
      (files.deliveries[k].repository == d.repository && k in files.aliases && files.aliases[k] == d.replay))
  }

  lemma StepFilesBare(db: Db, step: Step, d: Incoming)
    requires Inv(db) && FiledBare(db.files, d) && BareFor(step, d)
    ensures FiledBare(Apply(db, step).files, d)
  {
    hide RowInv, KeysUnique, TasksStored, MembersCurrent, TasksFiledOnce, VersionsCount, VersionsBounded,
      VersionsDiffer, MembersDiffer, Apply, PutAll, AcceptWrites;
    if step.IngestStep? {
      IngestCases(db, step.request, step.id, step.now);
      if !Accepts(db, step.request, step.id) {
        NotAcceptedCases(db, step.request, step.id, step.now);
      }
    } else {
      OnlyIngestFiles(db, step);
    }
  }

  lemma {:induction false} RunFilesBare(db: Db, steps: seq<Step>, d: Incoming)
    requires Inv(db) && FiledBare(db.files, d) && AllBare(steps, d)
    ensures FiledBare(Run(db, steps).files, d)
    decreases |steps|
  {
    hide Inv, FiledBare, Apply;
    if steps != [] {
      StepFilesBare(db, steps[0], d);
      StepKeepsInv(db, steps[0]);
      RunFilesBare(Apply(db, steps[0]), steps[1..], d);
    }
  }

  /**
   As long as every process treats the event as unwanted, no handler of it is overtaken: the status it
   reports is the one that every later redelivery reports.
   */
  lemma OneConfigurationAgrees(past: seq<Step>, d: Incoming, v: Visit, later: seq<Step>)
    requires v.route.Unwanted?
    requires AllBare(past, d) && AllBare(v.first, d) && AllBare(v.second, d) && AllBare(v.third, d)
        && AllBare(v.route.pause, d)
    requires Handle(Run(EMPTY, past), d, v).answer.Answered?
    ensures var h := Handle(Run(EMPTY, past), d, v);
            && !Overtaken(Run(EMPTY, past), d, v) && h.answer.status == Ignored
            && Duplicate(Run(h.db, later).files, d) == Some(Answered(h.answer.receipt.(duplicate := true), Ignored))
  {
    hide Inv, Ingest, Run, Apply, Duplicate, FiledBare, AllBare, ReceiptStatus, Handle, StoreBare;
    var db := Run(EMPTY, past);
    var first := Run(db, v.first);
    var second := Run(first, v.second);
    EmptyInv();
    NothingFiled(d);
    RunKeepsBare(EMPTY, past, d);
    RunKeepsBare(db, v.first, d);
    RunKeepsBare(first, v.second, d);
    RunKeepsBare(second, v.third, d);
    RunKeepsBare(second, v.route.pause, d);
    BareIsIgnored(Run(second, v.route.pause), d);
    assert !Overtaken(db, d, v);
    HandledBare(db, d, v);
    HandlersAreRemembered(db, d, v, later);
  }

  lemma RunKeepsBare(db: Db, steps: seq<Step>, d: Incoming)
    requires Inv(db) && FiledBare(db.files, d) && AllBare(steps, d)
    ensures Inv(Run(db, steps)) && FiledBare(Run(db, steps).files, d)
  {
    hide Inv, FiledBare, AllBare, Run;
    RunFilesBare(db, steps, d);
    RunKeepsInv(db, steps);
  }

  /** Every receipt that can answer for the event says ignored. */
  lemma BareIsIgnored(db: Db, d: Incoming)
    requires Inv(db) && FiledBare(db.files, d)
    ensures !FiledElsewhere(db.files, d)
    ensures Duplicate(db.files, d).Some? && Duplicate(db.files, d).value.Answered? ==>
        Duplicate(db.files, d).value.status == Ignored
  {
    hide RowInv, KeysUnique, TasksStored, MembersCurrent, TasksFiledOnce, VersionsCount, VersionsBounded,
      VersionsDiffer, MembersDiffer;
  }

  lemma HandledBare(db: Db, d: Incoming, v: Visit)
    requires Inv(db) && v.route.Unwanted? && Handle(db, d, v).answer.Answered?
    requires var second := Run(Run(db, v.first), v.second);
             && Inv(Run(db, v.first)) && FiledBare(Run(db, v.first).files, d)
             && Inv(Run(second, v.third)) && FiledBare(Run(second, v.third).files, d)
    ensures Handle(db, d, v).answer.status == Ignored
  {
    hide Inv, Ingest, Run, Apply, Duplicate, FiledBare, FiledElsewhere, ReceiptStatus;
    var first := Run(db, v.first);
    var last := Run(Run(first, v.second), v.third);
    BareIsIgnored(first, d);
    BareIsIgnored(last, d);
    if Ingest(last, UngroupedRequest(d), v.id, v.now).Done? {
      BareStatus(last, d, v.id, v.now);
    }
  }
}
