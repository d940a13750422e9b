/**
 What a repair run can deliver, for any AI answers and any changes that checks and reviews make to the
 workspace on the way.
 */
module RepairRuns {
  import opened Wrappers
  import opened Workspace
  import opened RepairSpec

  /** In the same attempt the patch passed the gate and was then approved without concerns. */
  predicate BackedAt(trace: seq<Entry>, j: nat, patch: Patch) {
    && j + 1 < |trace|
    && trace[j].Verified? && Diff(trace[j].head, trace[j].tested) == patch && trace[j].passed
    && trace[j + 1] == Judged(trace[j].attempt, true, [])
  }

  ghost predicate Backed(trace: seq<Entry>, patch: Patch) {
    exists j: nat :: BackedAt(trace, j, patch)
  }

  lemma BackedLater(prefix: seq<Entry>, trace: seq<Entry>, patch: Patch)
    requires Backed(trace, patch)
    ensures Backed(prefix + trace, patch)
  {
    var j: nat :| BackedAt(trace, j, patch);
    assert BackedAt(prefix + trace, |prefix| + j, patch);
  }

  /** Attempts record only verifications and verdicts. */
  predicate OnlyAttempts(trace: seq<Entry>) {
    forall i :: 0 <= i < |trace| ==> trace[i].Verified? || trace[i].Judged?
  }

  predicate Worthy(patch: Patch, repo: Repo) {
    patch != map[] && patch.Keys <= repo.editable
  }

  lemma TryIsSound(d: Disk, repo: Repo, protected: Tree, k: nat, a: Attempt)
    ensures var t := Try(d, repo, protected, k, a);
            && t.disk.base == d.base && OnlyAttempts(t.trace)
            && (t.verdict.Accept? ==> BackedAt(t.trace, 0, t.verdict.patch) && Worthy(t.verdict.patch, repo))
  {
    hide Visible, Diff, Snapshot, Written, NewPaths, EditPaths, Acceptable;
  }

  lemma {:induction false} TryAllIsSound(d: Disk, repo: Repo, protected: Tree, k: nat, attempts: seq<Attempt>)
    ensures var t := TryAll(d, repo, protected, k, attempts);
            && t.disk.base == d.base && OnlyAttempts(t.trace)
            && (t.verdict.Accept? ==> Backed(t.trace, t.verdict.patch) && Worthy(t.verdict.patch, repo))
    decreases |attempts|
  {
    hide Try, Worthy;
    if attempts != [] {
      var t := Try(d, repo, protected, k, attempts[0]);
      TryIsSound(d, repo, protected, k, attempts[0]);
      if t.verdict.Again? {
        TryAllIsSound(t.disk, repo, protected, k + 1, attempts[1..]);
        var rest := TryAll(t.disk, repo, protected, k + 1, attempts[1..]);
        if rest.verdict.Accept? {
          BackedLater(t.trace, rest.trace, rest.verdict.patch);
        }
      }
    }
  }

  predicate Delivered(e: Entry) { e.Published? || e.CommittedTree? }

  /** Why the tree that entry `i` delivers, if it delivers one, was allowed to leave. */
  ghost predicate Justified(trace: seq<Entry>, i: nat, base: Tree, repo: Repo)
    requires i < |trace|
  {
    Delivered(trace[i]) ==>
      var patch := Diff(base, trace[i].tree);
      && Backed(trace[..i], patch)
      && Worthy(patch, repo)
      && (repo.releases ==> exists j :: 0 <= j < i && trace[j] == ReleaseVerified(patch))
  }

  lemma FinishIsSound(d: Disk, repo: Repo, patch: Patch, s: Script)
    ensures var o := Finish(d, repo, patch, s);
            forall i :: 0 <= i < |o.trace| ==>
              && (o.trace[i].CommittedTree? || o.trace[i].Published? || o.trace[i].Released?)
              && Diff(d.base, o.trace[i].tree) == patch && o.trace[i].tree == o.disk.head
              && (o.trace[i].Released? ==>
                repo.releases && exists j :: 0 <= j < i && o.trace[j] == Published(o.trace[i].tree))
  {
    hide Diff;
    var o := Finish(d, repo, patch, s);
    if |o.trace| == 3 {
      assert o.trace[1] == Published(o.trace[2].tree);
    }
  }

  lemma DeliverIsSound(d: Disk, repo: Repo, protected: Tree, patch: Patch, s: Script)
    ensures var o := Deliver(d, repo, protected, patch, s);
            && (forall i :: 0 <= i < |o.trace| && (Delivered(o.trace[i]) || o.trace[i].Released?) ==>
                  && Diff(d.base, o.trace[i].tree) == patch && o.trace[i].tree == o.disk.head
                  && (repo.releases ==> i > 0 && o.trace[0] == ReleaseVerified(patch))
                  && (o.trace[i].Released? ==>
                    repo.releases && exists j :: 0 <= j < i && o.trace[j] == Published(o.trace[i].tree)))
  {
    hide Clean, Candidate, Diff, Finish;
    var (ready, ok) := Reverify(d, repo, protected, patch, s);
    if s.commits.Some? {
      var last := Leave(ready, s.commits.value);
      FinishIsSound(last, repo, patch, s);
      var f := Finish(last, repo, patch, s).trace;
      var checked := if repo.releases then [ReleaseVerified(patch)] else [];
      forall i | 0 <= i < |f| && f[i].Released?
        ensures exists j :: 0 <= j < |checked| + i && (checked + f)[j] == Published(f[i].tree)
      {
        var j :| 0 <= j < i && f[j] == Published(f[i].tree);
        assert (checked + f)[|checked| + j] == f[j];
      }
    }
  }

  lemma MendIsSound(d: Disk, repo: Repo, protected: Tree, request: Request, s: Script, i: nat)
    requires i < |Mend(d, repo, protected, request, s).trace|
    ensures Justified(Mend(d, repo, protected, request, s).trace, i, d.base, repo)
  {
    hide TryAll, Deliver, Worthy, Backed, Diff;
    var trace := Mend(d, repo, protected, request, s).trace;
    var t := TryAll(d, repo, protected, 1, s.attempts);
    TryAllIsSound(d, repo, protected, 1, s.attempts);
    if Delivered(trace[i]) {
      var patch := t.verdict.patch;
      DeliverIsSound(t.disk, repo, protected, patch, s);
      assert trace[..i] == t.trace + trace[|t.trace|..i];
      BackedEarlier(t.trace, trace[|t.trace|..i], patch);
      assert repo.releases ==> trace[|t.trace|] == ReleaseVerified(patch);
    }
  }

  /** An earlier entry does not weaken a justification. */
  lemma JustifiedLater(first: Entry, trace: seq<Entry>, i: nat, base: Tree, repo: Repo)
    requires i < |trace| && Justified(trace, i, base, repo)
    ensures Justified([first] + trace, i + 1, base, repo)
  {
    hide Backed, Diff, Worthy;
    if Delivered(trace[i]) {
      var patch := Diff(base, trace[i].tree);
      BackedLater([first], trace[..i], patch);
      assert ([first] + trace)[..i + 1] == [first] + trace[..i];
      if repo.releases {
        var j :| 0 <= j < i && trace[j] == ReleaseVerified(patch);
        assert ([first] + trace)[j + 1] == ReleaseVerified(patch);
      }
    }
  }

  /**
   Delivery soundness: whatever a repair run commits or publishes differs from the base by a patch that
   passed the gate and was then approved without concerns in one attempt, that is not empty and touches
   editable paths only; where the policy releases, the same patch passed the release stage as well.
   */
  lemma DeliveriesAreJustified(base: Tree, source: Tree, repo: Repo, request: Request, s: Script, i: nat)
    requires i < |Execute(base, source, repo, request, s).trace|
    ensures Justified(Execute(base, source, repo, request, s).trace, i, base, repo)
  {
    hide Mend, Justified, Admitted, BaselineHolds, Reverify;
    var trace := Execute(base, source, repo, request, s).trace;
    var after := Leave(Prepared(base, source), s.baseline.value.left);
    var rest := Mend(after, repo, Protected(source, repo), request, s);
    if Delivered(trace[i]) {
      assert !s.baseline.value.gate;
      MendIsSound(after, repo, Protected(source, repo), request, s, i - 1);
      JustifiedLater(Baselined(false), rest.trace, i - 1, base, repo);
    } else {
      OthersAreJustified(trace, i, base, repo);
    }
  }

  lemma OthersAreJustified(trace: seq<Entry>, i: nat, base: Tree, repo: Repo)
    requires i < |trace| && !Delivered(trace[i])
    ensures Justified(trace, i, base, repo)
  {
  }

  lemma BackedEarlier(trace: seq<Entry>, suffix: seq<Entry>, patch: Patch)
    requires Backed(trace, patch)
    ensures Backed(trace + suffix, patch)
  {
    var j: nat :| BackedAt(trace, j, patch);
    assert BackedAt(trace + suffix, j, patch);
  }

  /** Outside the editable paths, profile and protected files included, delivered trees are the base. */
  lemma DeliveriesKeepTheRest(base: Tree, source: Tree, repo: Repo, request: Request, s: Script, i: nat, p: Path)
    requires p !in repo.editable || (Coherent(repo) && p == repo.profile)
    requires i < |Execute(base, source, repo, request, s).trace|
    ensures var e := Execute(base, source, repo, request, s).trace[i]; Delivered(e) ==> At(e.tree, p) == At(base, p)
  {
    hide Execute, Backed;
    DeliveriesAreJustified(base, source, repo, request, s, i);
  }

  /** The checks ran on a nonempty editable change, with every protected file in it as first read. */
  predicate WellTested(e: Entry, repo: Repo, protected: Tree) {
    e.Verified? ==>
      && Worthy(Diff(e.head, e.tested), repo)
      && forall p :: p in protected && p in e.tested ==> e.tested[p] == protected[p]
  }

  predicate AllWellTested(trace: seq<Entry>, repo: Repo, protected: Tree) {
    forall i :: 0 <= i < |trace| ==> WellTested(trace[i], repo, protected)
  }

  lemma TryTestsWell(d: Disk, repo: Repo, protected: Tree, k: nat, a: Attempt)
    ensures AllWellTested(Try(d, repo, protected, k, a).trace, repo, protected)
  {
    hide Diff, Acceptable, Edited;
    if a.edits.Some? {
      var edited := Edited(d, a.edits.value);
      assert Clean(edited, repo, protected) ==>
          forall p :: p in protected && p in Visible(edited) ==> Visible(edited)[p] == protected[p] by {
        assert forall p :: p in protected && p in edited.work ==>
          Snapshot(edited.work, protected.Keys)[p] == edited.work[p];
      }
    }
  }

  lemma {:induction false} TryAllTestsWell(d: Disk, repo: Repo, protected: Tree, k: nat, attempts: seq<Attempt>)
    ensures AllWellTested(TryAll(d, repo, protected, k, attempts).trace, repo, protected)
    decreases |attempts|
  {
    hide Try, WellTested;
    if attempts != [] {
      TryTestsWell(d, repo, protected, k, attempts[0]);
      var t := Try(d, repo, protected, k, attempts[0]);
      if t.verdict.Again? {
        TryAllTestsWell(t.disk, repo, protected, k + 1, attempts[1..]);
        var rest := TryAll(t.disk, repo, protected, k + 1, attempts[1..]).trace;
        WellTestedBoth(t.trace, rest, repo, protected);
      }
    }
  }

  lemma WellTestedBoth(a: seq<Entry>, b: seq<Entry>, repo: Repo, protected: Tree)
    requires AllWellTested(a, repo, protected) && AllWellTested(b, repo, protected)
    ensures AllWellTested(a + b, repo, protected)
  {
    hide WellTested;
  }

  /** Every verification of a run tested the base's protected files and an allowed change, whatever ran before it. */
  lemma VerificationsAreWellTested(base: Tree, source: Tree, repo: Repo, request: Request, s: Script, i: nat)
    requires i < |Execute(base, source, repo, request, s).trace|
    ensures Execute(base, source, repo, request, s).trace[i].Verified? ==> source == base
    ensures WellTested(Execute(base, source, repo, request, s).trace[i], repo, Protected(base, repo))
  {
    hide Deliver, TryAll, BaselineHolds, Reverify, WellTested, Protected;
    var trace := Execute(base, source, repo, request, s).trace;
    var protected := Protected(source, repo);
    var after := Leave(Prepared(base, source), s.baseline.value.left);
    var t := TryAll(after, repo, protected, 1, s.attempts);
    TryAllTestsWell(after, repo, protected, 1, s.attempts);
    if !trace[i].Verified? {
      NoTest(trace[i], repo, Protected(base, repo));
    } else if trace[0] == Baselined(false) {
      var rest := if t.verdict.Accept? then Deliver(t.disk, repo, protected, t.verdict.patch, s).trace else [];
      if t.verdict.Accept? { DeliverRecordsNoTests(t.disk, repo, protected, t.verdict.patch, s); }
      assert trace == [Baselined(false)] || trace == [Baselined(false)] + (t.trace + rest);
      assert i - 1 < |t.trace| && trace[i] == t.trace[i - 1];
    }
  }

  lemma NoTest(e: Entry, repo: Repo, protected: Tree)
    requires !e.Verified?
    ensures WellTested(e, repo, protected)
  {
  }

  lemma DeliverRecordsNoTests(d: Disk, repo: Repo, protected: Tree, patch: Patch, s: Script)
    ensures var t := Deliver(d, repo, protected, patch, s).trace; forall i :: 0 <= i < |t| ==> !t[i].Verified?
  {
    hide Clean, Candidate, Diff, Finish;
    var (ready, ok) := Reverify(d, repo, protected, patch, s);
    if s.commits.Some? { FinishIsSound(Leave(ready, s.commits.value), repo, patch, s); }
  }

  /**
   Is the delivered tree the very tree that was tested? HEAD is not compared with the base before the
   checks run, so the equality of the two patches decides it: exactly when HEAD was still the base.
   */
  lemma DeliveredTreeWasTestedIff(base: Tree, source: Tree, repo: Repo, request: Request, s: Script, i: nat)
    requires i < |Execute(base, source, repo, request, s).trace|
    requires Delivered(Execute(base, source, repo, request, s).trace[i])
    ensures var trace := Execute(base, source, repo, request, s).trace;
            var patch := Diff(base, trace[i].tree);
            && (exists j: nat :: j + 1 < i && BackedAt(trace, j, patch))
            && forall j: nat :: j + 1 < i && BackedAt(trace, j, patch) ==>
                 (trace[i].tree == trace[j].tested <==> trace[j].head == base)
  {
    hide Execute, Diff;
    var trace := Execute(base, source, repo, request, s).trace;
    var patch := Diff(base, trace[i].tree);
    DeliveriesAreJustified(base, source, repo, request, s, i);
    var k: nat :| BackedAt(trace[..i], k, patch);
    assert BackedAt(trace, k, patch);
    forall j: nat | j + 1 < i && BackedAt(trace, j, patch)
      ensures trace[i].tree == trace[j].tested <==> trace[j].head == base
    {
      EqualPatches(base, trace[i].tree, trace[j].head, trace[j].tested);
    }
  }

  // ----- a run that delivers what it did not test -----

  const BASE: Tree := map["a" := "old"]
  const MOVED: Tree := map["a" := "old", "c" := "extra"]
  const TESTED: Tree := map["a" := "new", "c" := "extra"]
  const SENT: Tree := map["a" := "new"]
  const PATCH: Patch := map["a" := Change(Some("old"), Some("new"))]

  function Editor(): Repo { Repo("profile", {"a"}, {"a"}, 1, false, true) }

  /** What the second checks leave: HEAD is the base again and the extra file is gone. */
  function Restored(): Left { Left(BASE, SENT, {"a"}, {"a"}) }

  /** The baseline checks commit a file, the checks of the attempt take that commit back. */
  function MovingChecks(): Script {
    Script(Some(Checked(Left(MOVED, MOVED, {"a", "c"}, {}), false, true)), true, Some(true),
           [Attempt(Some([Edit("a", "new")]), {}, Some(Checked(Restored(), true, true)),
             Some(Reviewed(Restored(), true, [])))],
           None, Some(Restored()), true, None)
  }

  lemma MovedDisk()
    ensures var moved := Disk(BASE, MOVED, MOVED, {"a", "c"}, {});
            Visible(moved) == MOVED && Candidate(moved) == map[]
  {
  }

  lemma MovedEdit()
    ensures Edited(Disk(BASE, MOVED, MOVED, {"a", "c"}, {}), [Edit("a", "new")])
        == Disk(BASE, MOVED, TESTED, {"a", "c"}, {"a"})
  {
    var edits := [Edit("a", "new")];
    assert edits[..0] == [];
    assert Written(MOVED, edits) == Written(MOVED, edits[..0])["a" := "new"] == TESTED;
    assert EditPaths(edits) == {"a"} by { assert edits[0].path in EditPaths(edits); }
    assert NewPaths(MOVED, edits) == {};
  }

  lemma EditedDisk()
    ensures var edited := Disk(BASE, MOVED, TESTED, {"a", "c"}, {"a"});
            Visible(edited) == TESTED && Candidate(edited) == PATCH
  {
    hide Diff;
    assert Visible(Disk(BASE, MOVED, TESTED, {"a", "c"}, {"a"})) == TESTED;
    TestedPatch();
  }

  lemma RestoredDisk()
    ensures var d := Disk(BASE, BASE, SENT, {"a"}, {"a"});
            && Candidate(d) == PATCH && Committable(d)
            && Committed(d) == Disk(BASE, SENT, SENT, {"a"}, {}) && Candidate(Committed(d)) == map[]
              && Diff(BASE, SENT) == PATCH
  {
    var d := Disk(BASE, BASE, SENT, {"a"}, {"a"});
    assert Visible(d) == SENT;
    assert "a" in d.manifest && At(d.head, "a") != At(d.work, "a");
    assert CommitTree(d) == SENT;
    assert Visible(Committed(d)) == SENT;
  }

  lemma MovingAttempt()
    ensures Try(Disk(BASE, MOVED, MOVED, {"a", "c"}, {}), Editor(), map[], 1, MovingChecks().attempts[0])
         == Tried(Disk(BASE, BASE, SENT, {"a"}, {"a"}), [Verified(1, MOVED, TESTED, true), Judged(1, true, [])],
           Accept(PATCH))
  {
    hide Visible, Candidate, Diff, Edited;
    MovedEdit();
    EditedDisk();
    RestoredDisk();
  }

  /** The published tree differs from the base by the accepted patch, but no check ever started from it. */
  lemma MovedHeadDeliversUntested()
    ensures Execute(BASE, BASE, Editor(), Request(Repair, false, false), MovingChecks()).trace
         == [Baselined(false), Verified(1, MOVED, TESTED, true), Judged(1, true, []), CommittedTree(SENT),
           Published(SENT)]
    ensures SENT != TESTED && Diff(BASE, SENT) == Diff(MOVED, TESTED)
  {
    hide Visible, Candidate, Edited, Try, Diff;
    var s, after := MovingChecks(), Disk(BASE, MOVED, MOVED, {"a", "c"}, {});
    MovedDisk();
    RestoredDisk();
    MovingAttempt();
    assert "c" in TESTED && "c" !in SENT;
    assert Protected(BASE, Editor()) == map[];
    assert Admitted(BASE, BASE, Editor(), Request(Repair, false, false));
    assert Leave(Prepared(BASE, BASE), s.baseline.value.left) == after;
    assert TryAll(after, Editor(), map[], 1, s.attempts) == Try(after, Editor(), map[], 1, s.attempts[0]);
    assert Diff(MOVED, TESTED) == PATCH by { TestedPatch(); }
  }

  lemma TestedPatch()
    ensures Diff(MOVED, TESTED) == PATCH
  {
  }

  /** A repaired tree is released only after it was published. */
  lemma MendReleasesPublished(d: Disk, repo: Repo, protected: Tree, request: Request, s: Script, i: nat)
    requires i < |Mend(d, repo, protected, request, s).trace|
    ensures var trace := Mend(d, repo, protected, request, s).trace;
            trace[i].Released? ==> repo.releases && exists j :: 0 <= j < i && trace[j] == Published(trace[i].tree)
  {
    hide Deliver, TryAll, Diff;
    var trace := Mend(d, repo, protected, request, s).trace;
    if trace[i].Released? {
      var t := TryAll(d, repo, protected, 1, s.attempts);
      TryAllIsSound(d, repo, protected, 1, s.attempts);
      var o := Deliver(t.disk, repo, protected, t.verdict.patch, s);
      DeliverIsSound(t.disk, repo, protected, t.verdict.patch, s);
      var j :| 0 <= j < i - |t.trace| && o.trace[j] == Published(o.trace[i - |t.trace|].tree);
      assert trace[|t.trace| + j] == o.trace[j];
    }
  }

  /** A release runs on a tree published before it, or on the unchanged base after its own checks passed. */
  lemma ReleasesAreVerified(base: Tree, source: Tree, repo: Repo, request: Request, s: Script, i: nat)
    requires i < |Execute(base, source, repo, request, s).trace|
    ensures var trace := Execute(base, source, repo, request, s).trace;
            trace[i].Released? ==>
              && repo.releases
              && if trace[0] == Baselined(true) then
                   && trace[i].tree == base
                   && (request.mode.Release? || (request.autoDeploy && trace[1] == ReleaseVerified(map[]) && i == 2))
                 else exists j :: 0 <= j < i && trace[j] == Published(trace[i].tree)
  {
    hide Mend, BaselineHolds, Reverify;
    var trace := Execute(base, source, repo, request, s).trace;
    if trace[i].Released? && trace[0] == Baselined(false) {
      var protected := Protected(source, repo);
      var after := Leave(Prepared(base, source), s.baseline.value.left);
      var rest := Mend(after, repo, protected, request, s).trace;
      MendReleasesPublished(after, repo, protected, request, s, i - 1);
      var j :| 0 <= j < i - 1 && rest[j] == Published(rest[i - 1].tree);
      assert trace[j + 1] == rest[j];
    }
  }

  /** A pull request that touches the profile or a protected file has nothing run in its workspace. */
  lemma PullRequestsRunProtected(base: Tree, source: Tree, repo: Repo, request: Request, s: Script, p: Path)
    requires request.pull && Execute(base, source, repo, request, s).trace != []
    requires p == repo.profile || p in repo.context - repo.editable
    ensures At(source, p) == At(base, p)
  {
    assert p !in Diff(base, source);
  }

  // ----- well-behaved checks -----

  /** Tracked and editable files are left alone; anything else may appear. */
  predicate Harmless(d: Disk, left: Left, repo: Repo) {
    && left.head == d.head && left.tracked == d.tracked && left.manifest == d.manifest
    && forall p :: p in d.tracked + repo.editable ==> At(left.work, p) == At(d.work, p)
  }

  /** HEAD is the base, and only edited files differ from it. */
  predicate Settled(d: Disk, repo: Repo, protected: Tree) {
    && d.head == d.base && d.head.Keys <= d.tracked && d.tracked <= d.work.Keys && d.manifest <= d.tracked
    && (forall p :: p in d.tracked - d.manifest ==> At(d.work, p) == At(d.head, p))
    && (forall p :: p in repo.editable && p in d.work ==> p in d.tracked)
    && protected.Keys <= d.tracked
    && d.manifest <= repo.editable
    && protected.Keys !! repo.editable && Snapshot(d.work, protected.Keys) == protected
  }

  lemma HarmlessKeeps(d: Disk, left: Left, repo: Repo, protected: Tree)
    requires Settled(d, repo, protected) && Harmless(d, left, repo)
    ensures Settled(Leave(d, left), repo, protected) && Visible(Leave(d, left)) == Visible(d)
  {
    assert forall p :: p in d.tracked ==> At(left.work, p) == At(d.work, p);
    assert forall p :: p in d.tracked ==> p in left.work && left.work[p] == d.work[p];
    assert forall p :: p in repo.editable ==> At(left.work, p) == At(d.work, p);
  }

  lemma EditsKeep(d: Disk, edits: seq<Edit>, repo: Repo, protected: Tree, ignored: set<Path>)
    requires Settled(d, repo, protected) && Acceptable(d, edits, repo.editable, ignored)
    ensures Settled(Edited(d, edits), repo, protected)
  {
    var e := Edited(d, edits);
    forall p
      ensures p !in EditPaths(edits) ==> At(e.work, p) == At(d.work, p)
      ensures p in EditPaths(edits) ==> p in e.work && p in e.tracked && p in repo.editable
    {
      WrittenAt(d.work, edits, p);
      if p in EditPaths(edits) {
        var i :| 0 <= i < |edits| && edits[i].path == p;
        assert At(e.work, p) == Some(edits[i].content);
        assert p in d.work || p in NewPaths(d.work, edits);
      }
    }
  }

  lemma SettledChanges(d: Disk, repo: Repo, protected: Tree)
    requires Settled(d, repo, protected) && Candidate(d) != map[]
    ensures Clean(d, repo, protected)
    ensures Committable(d)
  {
    forall p | p in Candidate(d)
      ensures p in d.manifest && At(d.head, p) != At(d.work, p)
    {
    }
    var p :| p in Candidate(d);
    assert At(d.head, p) != At(d.work, p);
  }

  lemma CommitTakesAll(d: Disk, repo: Repo, protected: Tree)
    requires Settled(d, repo, protected) && d.manifest <= d.work.Keys
    ensures CommitTree(d) == Visible(d)
  {
    forall p
      ensures p in CommitTree(d) <==> p in Visible(d)
      ensures p in Visible(d) ==> CommitTree(d)[p] == Visible(d)[p]
    {
      assert p in d.tracked - d.manifest ==> At(d.work, p) == At(d.head, p);
    }
    assert CommitTree(d).Keys == Visible(d).Keys;
  }

  /** In a settled workspace the changes are those of edited files, and a commit takes all of them. */
  lemma SettledCommits(d: Disk, repo: Repo, protected: Tree)
    requires Settled(d, repo, protected) && Candidate(d) != map[]
    ensures Clean(d, repo, protected)
    ensures Committable(d)
    ensures var c := Committed(d);
            && c.base == d.base && c.head == Visible(d)
            && Candidate(c) == map[] && Diff(c.base, c.head) == Candidate(d)
  {
    hide Settled, Diff, Clean, CommitTree;
    SettledChanges(d, repo, protected);
    CommitTakesAll(d, repo, protected);
    SettledHead(d, repo, protected);
    var c := Committed(d);
    assert Visible(c) == Visible(d);
    EmptyDiff(c.head, Visible(c));
  }

  lemma SettledHead(d: Disk, repo: Repo, protected: Tree)
    requires Settled(d, repo, protected)
    ensures d.head == d.base
  {
  }

  /** Every program of the attempt is harmless where it runs. */
  predicate HonestAttempt(d: Disk, repo: Repo, a: Attempt) {
    a.edits.Some? && Acceptable(d, a.edits.value, repo.editable, a.ignored) && a.checks.Some? ==>
      var edited := Edited(d, a.edits.value);
      && Harmless(edited, a.checks.value.left, repo)
      && (a.review.Some? ==> Harmless(Leave(edited, a.checks.value.left), a.review.value.left, repo))
  }

  predicate HonestAttempts(d: Disk, repo: Repo, protected: Tree, k: nat, attempts: seq<Attempt>)
    decreases |attempts|
  {
    attempts != [] ==>
      && HonestAttempt(d, repo, attempts[0])
      && (Try(d, repo, protected, k, attempts[0]).verdict.Again? ==>
            HonestAttempts(Try(d, repo, protected, k, attempts[0]).disk, repo, protected, k + 1, attempts[1..]))
  }

  lemma HonestTry(d: Disk, repo: Repo, protected: Tree, k: nat, a: Attempt)
    requires Settled(d, repo, protected) && HonestAttempt(d, repo, a)
    ensures var t := Try(d, repo, protected, k, a);
            && (!t.verdict.Stop? ==> Settled(t.disk, repo, protected))
            && (t.verdict.Accept? ==> Candidate(t.disk) == t.verdict.patch && t.verdict.patch != map[])
  {
    hide Settled, Harmless, Visible, Diff, Snapshot, Acceptable, Edited, Clean;
    var t := Try(d, repo, protected, k, a);
    if !t.verdict.Stop? {
      EditsKeep(d, a.edits.value, repo, protected, a.ignored);
      var edited := Edited(d, a.edits.value);
      HarmlessKeeps(edited, a.checks.value.left, repo, protected);
      if a.review.Some? {
        var left := Leave(edited, a.checks.value.left);
        HarmlessKeeps(left, a.review.value.left, repo, protected);
        HarmlessHead(left, a.review.value.left, repo);
      }
    }
  }

  lemma HarmlessHead(d: Disk, left: Left, repo: Repo)
    ensures Harmless(d, left, repo) ==> left.head == d.head
  {
  }

  lemma {:induction false} HonestTryAll(d: Disk, repo: Repo, protected: Tree, k: nat, attempts: seq<Attempt>)
    requires Settled(d, repo, protected) && HonestAttempts(d, repo, protected, k, attempts)
    ensures var t := TryAll(d, repo, protected, k, attempts);
            t.verdict.Accept? ==>
              Settled(t.disk, repo, protected) && Candidate(t.disk) == t.verdict.patch && t.verdict.patch != map[]
    decreases |attempts|
  {
    hide Try, Settled, HonestAttempt;
    if attempts != [] {
      HonestTry(d, repo, protected, k, attempts[0]);
      var t := Try(d, repo, protected, k, attempts[0]);
      if t.verdict.Again? {
        HonestTryAll(t.disk, repo, protected, k + 1, attempts[1..]);
      }
    }
  }

  /** The release stage passes, and neither it nor anything before the commit touches what matters. */
  predicate HonestDelivery(d: Disk, repo: Repo, s: Script) {
    var checked := if repo.releases && s.release.Some? then Leave(d, s.release.value.left) else d;
    && (repo.releases ==>
          s.release.Some? && s.release.value.sound && s.release.value.gate && Harmless(d, s.release.value.left, repo))
    && s.commits.Some? && Harmless(checked, s.commits.value, repo)
    && repo.delivers && s.publishes
  }

  /** In a settled workspace a candidate passes every guard between acceptance and publication. */
  lemma SettledCandidatesAreDelivered(d: Disk, repo: Repo, protected: Tree, s: Script)
    requires Settled(d, repo, protected) && Candidate(d) != map[] && HonestDelivery(d, repo, s)
    ensures var o := Deliver(d, repo, protected, Candidate(d), s);
            && Published(Visible(d)) in o.trace
            && (repo.releases && s.merged == Some(Visible(d)) ==> o.end.Done? && Released(Visible(d)) in o.trace)
  {
    hide Settled, Harmless, Visible, Diff, Snapshot, Committable, Committed;
    SettledCommits(d, repo, protected);
    if repo.releases {
      HarmlessKeeps(d, s.release.value.left, repo, protected);
      HarmlessHead(d, s.release.value.left, repo);
      SettledCommits(Leave(d, s.release.value.left), repo, protected);
    }
    var (ready, ok) := Reverify(d, repo, protected, Candidate(d), s);
    HarmlessKeeps(ready, s.commits.value, repo, protected);
    HarmlessHead(ready, s.commits.value, repo);
    var last := Leave(ready, s.commits.value);
    SettledCommits(last, repo, protected);
    var f := Finish(last, repo, Candidate(d), s);
    assert f.trace[1] == Published(Visible(d));
    var o := Deliver(d, repo, protected, Candidate(d), s);
    var checked := if repo.releases then [ReleaseVerified(Candidate(d))] else [];
    assert o.trace == checked + f.trace;
    assert o.trace[|checked| + 1] == f.trace[1];
    if |f.trace| == 3 {
      assert o.trace[|checked| + 2] == f.trace[2];
    }
  }

  /** A freshly prepared workspace of the base is settled. */
  lemma PreparedIsSettled(base: Tree, repo: Repo)
    ensures Settled(Prepared(base, base), repo, Protected(base, repo))
  {
  }

  /** Harmless baseline checks leave a settled workspace without changes. */
  lemma BaselineSettles(base: Tree, repo: Repo, c: Checked)
    requires c.sound && Harmless(Prepared(base, base), c.left, repo)
    ensures var after := Leave(Prepared(base, base), c.left);
            && BaselineHolds(Prepared(base, base), repo, Protected(base, repo), c)
            && Settled(after, repo, Protected(base, repo)) && after.head == base
  {
    hide Diff, Snapshot, Protected;
    var d, protected := Prepared(base, base), Protected(base, repo);
    var after := Leave(d, c.left);
    PreparedIsSettled(base, repo);
    HarmlessKeeps(d, c.left, repo, protected);
    assert Visible(d) == base;
    EmptyDiff(base, base);
    assert Candidate(after) == map[];
  }

  /**
   No false refusal: in a repair of the base, when baseline, checks, reviews and the commit leave tracked and
   editable files alone, an accepted attempt is published, as the very tree that was accepted.
   */
  lemma HonestExecutionsDeliver(base: Tree, repo: Repo, request: Request, s: Script)
    requires request.mode.Repair? && repo.editable != {} && s.diagnosis == Some(true)
    requires s.baseline.Some? && s.baseline.value.sound && !s.baseline.value.gate
    requires Harmless(Prepared(base, base), s.baseline.value.left, repo)
    requires var after := Leave(Prepared(base, base), s.baseline.value.left);
             && HonestAttempts(after, repo, Protected(base, repo), 1, s.attempts)
             && var t := TryAll(after, repo, Protected(base, repo), 1, s.attempts);
                t.verdict.Accept? && HonestDelivery(t.disk, repo, s)
    ensures var after := Leave(Prepared(base, base), s.baseline.value.left);
            var accepted := Visible(TryAll(after, repo, Protected(base, repo), 1, s.attempts).disk);
            var o := Execute(base, base, repo, request, s);
            && Published(accepted) in o.trace
            && (repo.releases && s.merged == Some(accepted) ==> o.end.Done? && Released(accepted) in o.trace)
  {
    hide Settled, Harmless, Visible, Candidate, Diff, HonestAttempts, TryAll, Deliver, HonestDelivery, Protected,
      BaselineHolds;
    var protected := Protected(base, repo);
    var after := Leave(Prepared(base, base), s.baseline.value.left);
    var t := TryAll(after, repo, protected, 1, s.attempts);
    BaselineSettles(base, repo, s.baseline.value);
    HonestTryAll(after, repo, protected, 1, s.attempts);
    SettledCandidatesAreDelivered(t.disk, repo, protected, s);
    NoChange(base);
    var d := Deliver(t.disk, repo, protected, t.verdict.patch, s).trace;
    assert Execute(base, base, repo, request, s).trace == [Baselined(false)] + (t.trace + d);
  }

  lemma NoChange(base: Tree)
    ensures Diff(base, base) == map[]
  {
  }
}
