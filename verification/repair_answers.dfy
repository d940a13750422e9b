/**
 What a repair run does, told from its script: every entry of its evidence is an answer that was given, and
 it commits, publishes, releases and ends exactly as those answers say.
 */
module RepairAnswers {
  import opened Wrappers
  import opened Workspace
  import opened RepairSpec
  import opened RepairRuns

  // ----- attempts -----

  /** What the last program of an attempt left, if the run goes on from there. */
  function LeftBy(a: Attempt): Option<Left> {
    if a.checks.None? then None
    else if !a.checks.value.gate then Some(a.checks.value.left)
    else if a.review.None? then None
    else Some(a.review.value.left)
  }

  /** The workspace that attempt `m`, counted from 0, finds. */
  function Found(d: Disk, attempts: seq<Attempt>, m: nat): Option<Disk>
    requires m <= |attempts|
  {
    if m == 0 then Some(d)
    else
      match LeftBy(attempts[m - 1])
      case Some(left) => Some(Leave(d, left))
      case None => None
  }

  /** Protected files are as first read, and only editable files differ from HEAD. */
  predicate Intact(d: Disk, repo: Repo, protected: Tree) {
    && (forall p :: p in protected ==> At(d.work, p) == At(protected, p))
    && (forall p :: p in Diff(d.head, Visible(d)) ==> p in repo.editable)
  }

  lemma CleanIsIntact(d: Disk, repo: Repo, protected: Tree)
    ensures Clean(d, repo, protected) <==> Intact(d, repo, protected)
  {
    hide Diff, Visible;
    var snapshot := Snapshot(d.work, protected.Keys);
    if Intact(d, repo, protected) {
      forall p
        ensures p in snapshot <==> p in protected
        ensures p in protected ==> snapshot[p] == protected[p]
      {
        assert p in protected ==> At(d.work, p) == At(protected, p);
      }
      assert snapshot.Keys == protected.Keys;
    }
  }

  /** The attempt proposed an allowed change, and sound checks that left it alone ran on it. */
  predicate Tested(d: Disk, repo: Repo, protected: Tree, a: Attempt) {
    && a.edits.Some? && Acceptable(d, a.edits.value, repo.editable, a.ignored)
    && var edited := Edited(d, a.edits.value);
       && Intact(edited, repo, protected) && edited.head != Visible(edited)
       && a.checks.Some? && a.checks.value.sound
       && var after := Leave(edited, a.checks.value.left);
          Intact(after, repo, protected) && Diff(after.head, Visible(after)) == Diff(edited.head, Visible(edited))
  }

  predicate Approved(a: Attempt) {
    a.review.Some? && a.review.value.approved && a.review.value.concerns == []
  }

  /** The checks failed, or the review did not approve without concerns. */
  predicate TurnedDown(d: Disk, repo: Repo, protected: Tree, a: Attempt) {
    Tested(d, repo, protected, a) && (!a.checks.value.gate || (a.review.Some? && !Approved(a)))
  }

  predicate Passed(d: Disk, repo: Repo, protected: Tree, a: Attempt) {
    Tested(d, repo, protected, a) && a.checks.value.gate && Approved(a)
  }

  predicate TurnedDownAt(d: Disk, repo: Repo, protected: Tree, attempts: seq<Attempt>, m: nat) {
    && m < |attempts| && Found(d, attempts, m).Some?
    && TurnedDown(Found(d, attempts, m).value, repo, protected, attempts[m])
  }

  predicate PassedAt(d: Disk, repo: Repo, protected: Tree, attempts: seq<Attempt>, m: nat) {
    && m < |attempts| && Found(d, attempts, m).Some?
    && Passed(Found(d, attempts, m).value, repo, protected, attempts[m])
  }

  /** Attempt `m` is the one to deliver: all before it were turned down, and it passed. */
  ghost predicate Settles(d: Disk, repo: Repo, protected: Tree, attempts: seq<Attempt>, m: nat) {
    && (forall j: nat :: j < m ==> TurnedDownAt(d, repo, protected, attempts, j))
    && PassedAt(d, repo, protected, attempts, m)
  }

  /** The change that attempt `m` proposed, and the workspace that its review left. */
  function Proposed(d: Disk, attempts: seq<Attempt>, m: nat): Patch {
    if m < |attempts| && Found(d, attempts, m).Some? && attempts[m].edits.Some? then
      var edited := Edited(Found(d, attempts, m).value, attempts[m].edits.value);
      Diff(edited.head, Visible(edited))
    else map[]
  }

  function AfterReview(base: Tree, attempts: seq<Attempt>, m: nat): Disk {
    var d := Prepared(base, base);
    if m < |attempts| && attempts[m].review.Some? then Leave(d, attempts[m].review.value.left) else d
  }

  /** The entry says what the attempt's answers say, about what the attempt found and edited. */
  predicate Told(e: Entry, d: Disk, k: nat, attempts: seq<Attempt>) {
    match e
    case Verified(n, head, tested, passed) =>
      && k <= n < k + |attempts|
      && var a, found := attempts[n - k], Found(d, attempts, n - k);
         && found.Some? && a.edits.Some? && a.checks.Some? && a.checks.value.sound
         && passed == a.checks.value.gate
         && head == found.value.head && tested == Visible(Edited(found.value, a.edits.value))
    case Judged(n, approved, concerns) =>
      && k <= n < k + |attempts|
      && var a := attempts[n - k];
         && a.checks.Some? && a.checks.value.sound && a.checks.value.gate
         && a.review.Some? && approved == a.review.value.approved && concerns == a.review.value.concerns
    case _ => false
  }

  predicate AllTold(trace: seq<Entry>, d: Disk, k: nat, attempts: seq<Attempt>) {
    forall i :: 0 <= i < |trace| ==> Told(trace[i], d, k, attempts)
  }

  /** One attempt: what it records, how it ends and what it leaves. */
  lemma TryAnswers(d: Disk, repo: Repo, protected: Tree, k: nat, a: Attempt)
    ensures var t := Try(d, repo, protected, k, a);
            && AllTold(t.trace, d, k, [a])
            && (t.verdict.Again? <==> TurnedDown(d, repo, protected, a))
            && (t.verdict.Again? ==> LeftBy(a).Some? && t.disk == Leave(d, LeftBy(a).value))
            && (t.verdict.Accept? <==> Passed(d, repo, protected, a))
            && (t.verdict.Accept? ==>
                  t.verdict.patch == Proposed(d, [a], 0) && t.disk == AfterReview(d.base, [a], 0))
  {
    hide Visible, Diff, Clean, Intact, Acceptable;
    if a.edits.Some? {
      var edited := Edited(d, a.edits.value);
      CleanIsIntact(edited, repo, protected);
      EmptyDiff(edited.head, Visible(edited));
      if a.checks.Some? { CleanIsIntact(Leave(edited, a.checks.value.left), repo, protected); }
    }
  }

  lemma FoundLater(d: Disk, repo: Repo, protected: Tree, attempts: seq<Attempt>, m: nat)
    requires attempts != [] && LeftBy(attempts[0]).Some?
    ensures var next, rest := Leave(d, LeftBy(attempts[0]).value), attempts[1..];
            && (m < |attempts| ==> Found(next, rest, m) == Found(d, attempts, m + 1))
            && Proposed(next, rest, m) == Proposed(d, attempts, m + 1)
            && AfterReview(next.base, rest, m) == AfterReview(d.base, attempts, m + 1)
            && (TurnedDownAt(next, repo, protected, rest, m) <==> TurnedDownAt(d, repo, protected, attempts, m + 1))
            && (PassedAt(next, repo, protected, rest, m) <==> PassedAt(d, repo, protected, attempts, m + 1))
  {
    hide TurnedDown, Passed, Edited, Diff, Visible;
  }

  lemma ToldHere(trace: seq<Entry>, d: Disk, k: nat, attempts: seq<Attempt>)
    requires attempts != [] && AllTold(trace, d, k, [attempts[0]])
    ensures AllTold(trace, d, k, attempts)
  {
    forall i | 0 <= i < |trace| ensures Told(trace[i], d, k, attempts) {
      assert Told(trace[i], d, k, [attempts[0]]);
    }
  }

  lemma ToldLater(
      trace: seq<Entry>, d: Disk, repo: Repo, protected: Tree, k: nat, attempts: seq<Attempt>)
    requires attempts != [] && LeftBy(attempts[0]).Some?
    requires AllTold(trace, Leave(d, LeftBy(attempts[0]).value), k + 1, attempts[1..])
    ensures AllTold(trace, d, k, attempts)
  {
    hide Edited, Visible;
    forall i | 0 <= i < |trace| ensures Told(trace[i], d, k, attempts) {
      assert Told(trace[i], Leave(d, LeftBy(attempts[0]).value), k + 1, attempts[1..]);
      var e := trace[i];
      if e.Verified? {
        FoundLater(d, repo, protected, attempts, e.attempt - k - 1);
        assert attempts[1..][e.attempt - k - 1] == attempts[e.attempt - k];
      }
    }
  }

  lemma SettlesLater(d: Disk, repo: Repo, protected: Tree, attempts: seq<Attempt>, m: nat)
    requires attempts != [] && TurnedDownAt(d, repo, protected, attempts, 0) && LeftBy(attempts[0]).Some?
    ensures Settles(Leave(d, LeftBy(attempts[0]).value), repo, protected, attempts[1..], m)
        <==> Settles(d, repo, protected, attempts, m + 1)
  {
    hide TurnedDownAt, PassedAt;
    var next, rest := Leave(d, LeftBy(attempts[0]).value), attempts[1..];
    forall j: nat
      ensures TurnedDownAt(next, repo, protected, rest, j) <==> TurnedDownAt(d, repo, protected, attempts, j + 1)
      ensures PassedAt(next, repo, protected, rest, j) <==> PassedAt(d, repo, protected, attempts, j + 1)
    {
      FoundLater(d, repo, protected, attempts, j);
    }
    if Settles(next, repo, protected, rest, m) {
      forall j: nat | j < m + 1 ensures TurnedDownAt(d, repo, protected, attempts, j) {
        if j > 0 { assert TurnedDownAt(next, repo, protected, rest, j - 1); }
      }
    }
  }

  /** The repair loop: it accepts exactly the attempt to deliver, and records nothing but answers. */
  lemma {:induction false} TryAllAnswers(d: Disk, repo: Repo, protected: Tree, k: nat, attempts: seq<Attempt>)
    ensures var t := TryAll(d, repo, protected, k, attempts);
            && AllTold(t.trace, d, k, attempts)
            && (t.verdict.Accept? <==> exists m: nat :: Settles(d, repo, protected, attempts, m))
            && forall m: nat :: Settles(d, repo, protected, attempts, m) ==>
                 t.verdict == Accept(Proposed(d, attempts, m)) && t.disk == AfterReview(d.base, attempts, m)
    decreases |attempts|
  {
    hide Try, TurnedDown, Passed, Settles, Told, Found, Proposed, AfterReview;
    if attempts == [] {
      forall m: nat ensures !Settles(d, repo, protected, attempts, m) { NothingSettles(d, repo, protected, m); }
    } else {
      var t := Try(d, repo, protected, k, attempts[0]);
      TryAnswers(d, repo, protected, k, attempts[0]);
      ToldHere(t.trace, d, k, attempts);
      FirstSettles(d, repo, protected, attempts);
      if t.verdict.Again? {
        TryAllAnswers(t.disk, repo, protected, k + 1, attempts[1..]);
        LoopGoesOn(d, repo, protected, k, attempts);
      }
    }
  }

  /** After an attempt that was turned down, the rest of the loop decides. */
  lemma LoopGoesOn(d: Disk, repo: Repo, protected: Tree, k: nat, attempts: seq<Attempt>)
    requires attempts != [] && LeftBy(attempts[0]).Some? && TurnedDown(d, repo, protected, attempts[0])
    requires var t := Try(d, repo, protected, k, attempts[0]);
             t.verdict.Again? && AllTold(t.trace, d, k, attempts) && t.disk == Leave(d, LeftBy(attempts[0]).value)
    requires var next := Leave(d, LeftBy(attempts[0]).value);
             var rest := TryAll(next, repo, protected, k + 1, attempts[1..]);
             && AllTold(rest.trace, next, k + 1, attempts[1..])
             && (rest.verdict.Accept? <==> exists m: nat :: Settles(next, repo, protected, attempts[1..], m))
             && forall m: nat :: Settles(next, repo, protected, attempts[1..], m) ==>
                  && rest.verdict == Accept(Proposed(next, attempts[1..], m))
                  && rest.disk == AfterReview(next.base, attempts[1..], m)
    ensures var t := TryAll(d, repo, protected, k, attempts);
            && AllTold(t.trace, d, k, attempts)
            && (t.verdict.Accept? <==> exists m: nat :: Settles(d, repo, protected, attempts, m))
            && forall m: nat :: Settles(d, repo, protected, attempts, m) ==>
                 t.verdict == Accept(Proposed(d, attempts, m)) && t.disk == AfterReview(d.base, attempts, m)
  {
    hide Try, Settles, Told, Proposed, AfterReview;
    var next := Leave(d, LeftBy(attempts[0]).value);
    var rest := TryAll(next, repo, protected, k + 1, attempts[1..]);
    ToldLater(rest.trace, d, repo, protected, k, attempts);
    FirstSettles(d, repo, protected, attempts);
    forall m: nat
      ensures Settles(next, repo, protected, attempts[1..], m) <==> Settles(d, repo, protected, attempts, m + 1)
      ensures Proposed(next, attempts[1..], m) == Proposed(d, attempts, m + 1)
      ensures AfterReview(next.base, attempts[1..], m) == AfterReview(d.base, attempts, m + 1)
    {
      SettlesLater(d, repo, protected, attempts, m);
      FoundLater(d, repo, protected, attempts, m);
    }
    forall m: nat | Settles(d, repo, protected, attempts, m)
      ensures m > 0 && Settles(next, repo, protected, attempts[1..], m - 1)
    {
      assert m == (m - 1) + 1;
    }
  }

  lemma NothingSettles(d: Disk, repo: Repo, protected: Tree, m: nat)
    ensures !Settles(d, repo, protected, [], m)
  {
  }

  /** The first attempt decides unless it is turned down. */
  lemma FirstSettles(d: Disk, repo: Repo, protected: Tree, attempts: seq<Attempt>)
    requires attempts != []
    ensures Settles(d, repo, protected, attempts, 0) <==> Passed(d, repo, protected, attempts[0])
    ensures TurnedDown(d, repo, protected, attempts[0]) ==> !Passed(d, repo, protected, attempts[0])
    ensures !TurnedDown(d, repo, protected, attempts[0]) ==>
              forall m: nat :: Settles(d, repo, protected, attempts, m) ==> m == 0
    ensures Proposed(d, attempts, 0) == Proposed(d, [attempts[0]], 0)
    ensures AfterReview(d.base, attempts, 0) == AfterReview(d.base, [attempts[0]], 0)
  {
    hide Tested, Edited, Diff, Visible;
    forall m: nat | m > 0 && !TurnedDown(d, repo, protected, attempts[0])
      ensures !Settles(d, repo, protected, attempts, m)
    {
      assert !TurnedDownAt(d, repo, protected, attempts, 0);
    }
  }

  // ----- delivery -----

  /** The workspace still shows exactly this change, and nothing protected changed. */
  predicate Shows(d: Disk, repo: Repo, protected: Tree, patch: Patch) {
    Intact(d, repo, protected) && Diff(d.head, Visible(d)) == patch
  }

  /** The release stage, where the policy has one, was sound, passed, and left the change alone. */
  predicate ReleaseChecked(base: Tree, repo: Repo, protected: Tree, patch: Patch, s: Script) {
    repo.releases ==>
      && s.release.Some? && s.release.value.sound && s.release.value.gate
      && Shows(Leave(Prepared(base, base), s.release.value.left), repo, protected, patch)
  }

  /** The commit takes the whole change and leaves none, and makes this tree. */
  predicate CommitsAs(base: Tree, patch: Patch, s: Script, tree: Tree) {
    && s.commits.Some?
    && var d := Leave(Prepared(base, base), s.commits.value);
       && Committable(d)
       && Committed(d).head == tree && Visible(Committed(d)) == tree && Diff(base, tree) == patch
  }

  /** Publication, and the merge of this very tree where the policy releases. */
  predicate Lands(repo: Repo, s: Script, tree: Tree) {
    repo.delivers ==> s.publishes && (repo.releases ==> s.merged == Some(tree))
  }

  predicate Delivery(e: Entry) { e.CommittedTree? || e.Published? || e.Released? || e.ReleaseVerified? }

  lemma FinishAnswers(d: Disk, repo: Repo, patch: Patch, s: Script, tree: Tree)
    requires s.commits.Some? && d == Leave(Prepared(d.base, d.base), s.commits.value)
    ensures var o := Finish(d, repo, patch, s);
            var commits := CommitsAs(d.base, patch, s, tree);
            && (CommittedTree(tree) in o.trace <==> commits)
            && (Published(tree) in o.trace <==> commits && repo.delivers && s.publishes)
            && (Released(tree) in o.trace <==>
                  commits && repo.delivers && s.publishes && repo.releases && s.merged == Some(tree))
            && (forall e :: e in o.trace ==> Delivery(e) && !e.ReleaseVerified?)
            && !o.end.Healthy?
            && (o.end.Done? <==> exists t :: CommitsAs(d.base, patch, s, t) && Lands(repo, s, t))
  {
    hide Diff, Visible, CommitTree;
    if Committable(d) {
      var c := Committed(d);
      EmptyDiff(c.head, Visible(c));
      assert CommitsAs(d.base, patch, s, c.head) <==> Candidate(c) == map[] && Diff(c.base, c.head) == patch;
    }
  }

  /** An accepted change goes all the way to this commit. */
  predicate WouldCommit(d: Disk, repo: Repo, protected: Tree, patch: Patch, s: Script, tree: Tree) {
    && Shows(d, repo, protected, patch) && ReleaseChecked(d.base, repo, protected, patch, s)
    && CommitsAs(d.base, patch, s, tree)
  }

  lemma ReverifyAnswers(d: Disk, repo: Repo, protected: Tree, patch: Patch, s: Script)
    ensures var (ready, ok) := Reverify(d, repo, protected, patch, s);
            ok == ReleaseChecked(d.base, repo, protected, patch, s) && ready.base == d.base
  {
    hide Diff, Visible, Clean, Intact;
    if s.release.Some? { CleanIsIntact(Leave(d, s.release.value.left), repo, protected); }
  }

  lemma DeliverAnswers(d: Disk, repo: Repo, protected: Tree, patch: Patch, s: Script, tree: Tree)
    ensures var o := Deliver(d, repo, protected, patch, s);
            var commits := WouldCommit(d, repo, protected, patch, s, tree);
            && (CommittedTree(tree) in o.trace <==> commits)
            && (Published(tree) in o.trace <==> commits && repo.delivers && s.publishes)
            && (Released(tree) in o.trace <==>
                  commits && repo.delivers && s.publishes && repo.releases && s.merged == Some(tree))
            && (forall e :: e in o.trace ==> Delivery(e))
            && (forall p :: ReleaseVerified(p) in o.trace <==>
                  && p == patch && repo.releases
                  && Shows(d, repo, protected, patch) && ReleaseChecked(d.base, repo, protected, patch, s))
            && !o.end.Healthy?
            && (o.end.Done? <==> exists t :: WouldCommit(d, repo, protected, patch, s, t) && Lands(repo, s, t))
  {
    hide Diff, Visible, Clean, Intact, Finish, CommitsAs, Lands, Reverify, ReleaseChecked;
    CleanIsIntact(d, repo, protected);
    ReverifyAnswers(d, repo, protected, patch, s);
    var ready := Reverify(d, repo, protected, patch, s).0;
    if s.commits.Some? {
      var last := Leave(ready, s.commits.value);
      FinishAnswers(last, repo, patch, s, tree);
    } else {
      forall t ensures !CommitsAs(d.base, patch, s, t) { NoCommit(d.base, patch, s, t); }
    }
  }

  lemma NoCommit(base: Tree, patch: Patch, s: Script, tree: Tree)
    requires s.commits.None?
    ensures !CommitsAs(base, patch, s, tree)
  {
  }

  // ----- the whole run -----

  /** Files that a run may show but not change, as they were first read. */
  function Guarded(source: Tree, repo: Repo): Tree {
    map p | p in source && p in repo.context && p !in repo.editable :: source[p]
  }

  ghost predicate Allowed(base: Tree, source: Tree, repo: Repo, request: Request) {
    && (request.mode.Check? || source == base)
    && (request.mode.Release? ==> repo.releases)
    && (request.pull ==>
          forall p :: p == repo.profile || (p in repo.context && p !in repo.editable) ==> At(source, p) == At(base, p))
  }

  lemma AdmittedIsAllowed(base: Tree, source: Tree, repo: Repo, request: Request)
    ensures Admitted(base, source, repo, request) <==> Allowed(base, source, repo, request)
    ensures Protected(source, repo) == Guarded(source, repo)
  {
    assert forall p :: p in Diff(base, source) <==> At(base, p) != At(source, p);
    assert Diff(base, source).Keys !! {repo.profile} + (repo.context - repo.editable) <==>
      forall p :: p == repo.profile || (p in repo.context && p !in repo.editable) ==> p !in Diff(base, source);
  }

  function AfterBaseline(base: Tree, source: Tree, s: Script): Disk {
    var d := Prepared(base, source);
    if s.baseline.Some? then Leave(d, s.baseline.value.left) else d
  }

  /** The request was allowed, and sound baseline checks left every file alone. */
  ghost predicate Begun(base: Tree, source: Tree, repo: Repo, request: Request, s: Script) {
    && Allowed(base, source, repo, request) && s.baseline.Some? && s.baseline.value.sound
    && Shows(AfterBaseline(base, source, s), repo, Guarded(source, repo), map[])
  }

  /** The baseline failed, and attempt `m` of an allowed repair is the one to deliver. */
  ghost predicate Repairs(base: Tree, source: Tree, repo: Repo, request: Request, s: Script, m: nat) {
    && Begun(base, source, repo, request, s) && !s.baseline.value.gate
    && request.mode.Repair? && repo.editable != {} && s.diagnosis == Some(true)
    && Settles(AfterBaseline(base, source, s), repo, Guarded(source, repo), s.attempts, m)
  }

  /** The change of attempt `m` goes all the way to this commit. */
  predicate CommitsAttempt(base: Tree, source: Tree, repo: Repo, s: Script, m: nat, tree: Tree) {
    WouldCommit(AfterReview(base, s.attempts, m), repo, Guarded(source, repo),
                Proposed(AfterBaseline(base, source, s), s.attempts, m), s, tree)
  }

  ghost predicate Delivers(base: Tree, source: Tree, repo: Repo, request: Request, s: Script, tree: Tree) {
    exists m: nat :: Repairs(base, source, repo, request, s, m) && CommitsAttempt(base, source, repo, s, m, tree)
  }

  /** What the run does after a failing baseline. */
  lemma MendAnswers(base: Tree, source: Tree, repo: Repo, request: Request, s: Script, tree: Tree)
    requires Begun(base, source, repo, request, s) && !s.baseline.value.gate
    ensures var d := AfterBaseline(base, source, s);
            var o := Mend(d, repo, Guarded(source, repo), request, s);
            var delivers := Delivers(base, source, repo, request, s, tree);
            && (CommittedTree(tree) in o.trace <==> delivers)
            && (Published(tree) in o.trace <==> delivers && repo.delivers && s.publishes)
            && (Released(tree) in o.trace <==>
                  delivers && repo.delivers && s.publishes && repo.releases && s.merged == Some(tree))
            && !o.end.Healthy?
            && (o.end.Done? <==> exists t :: Delivers(base, source, repo, request, s, t) && Lands(repo, s, t))
  {
    hide TryAll, Deliver, Settles, Begun, Found, Proposed, AfterReview, WouldCommit, Told, Lands;
    var d, protected := AfterBaseline(base, source, s), Guarded(source, repo);
    if request.mode.Repair? && repo.editable != {} && s.diagnosis == Some(true) {
      var t := TryAll(d, repo, protected, 1, s.attempts);
      TryAllAnswers(d, repo, protected, 1, s.attempts);
      OnlyTold(t.trace, d, 1, s.attempts);
      if t.verdict.Accept? {
        var m: nat :| Settles(d, repo, protected, s.attempts, m);
        DeliverAnswers(t.disk, repo, protected, t.verdict.patch, s, tree);
        SettlesOnce(base, source, repo, request, s, m);
        forall u
          ensures WouldCommit(t.disk, repo, protected, t.verdict.patch, s, u)
              <==> Delivers(base, source, repo, request, s, u)
        {
          assert CommitsAttempt(base, source, repo, s, m, u)
            <==> WouldCommit(t.disk, repo, protected, t.verdict.patch, s, u);
        }
      }
    }
  }

  lemma OnlyTold(trace: seq<Entry>, d: Disk, k: nat, attempts: seq<Attempt>)
    requires AllTold(trace, d, k, attempts)
    ensures forall e :: e in trace ==> !Delivery(e)
  {
    forall e | e in trace ensures !Delivery(e) {
      var i :| 0 <= i < |trace| && trace[i] == e;
      assert Told(trace[i], d, k, attempts);
    }
  }

  /** Only one attempt is the one to deliver, so its commit decides. */
  lemma SettlesOnce(base: Tree, source: Tree, repo: Repo, request: Request, s: Script, m: nat)
    requires Repairs(base, source, repo, request, s, m)
    ensures forall t :: Delivers(base, source, repo, request, s, t) <==> CommitsAttempt(base, source, repo, s, m, t)
  {
    hide Begun, Found, PassedAt, TurnedDownAt, CommitsAttempt;
    forall n: nat | Repairs(base, source, repo, request, s, n) ensures n == m {
      OneSettles(AfterBaseline(base, source, s), repo, Guarded(source, repo), s.attempts, m, n);
    }
  }

  lemma OneSettles(d: Disk, repo: Repo, protected: Tree, attempts: seq<Attempt>, m: nat, n: nat)
    requires Settles(d, repo, protected, attempts, m) && Settles(d, repo, protected, attempts, n)
    ensures m == n
  {
    hide Tested, Found;
    assert !TurnedDownAt(d, repo, protected, attempts, m) && !TurnedDownAt(d, repo, protected, attempts, n);
  }

  /**
   For all answers: a tree is committed exactly if the baseline was sound and failed, a repair was allowed and
   diagnosed, and the first attempt not turned down passed its checks and its review without concerns, and then
   the release stage and the commit took its change as it is. It is published exactly if the policy delivers and
   publication succeeds, released exactly if the merge has this very tree, and nothing else ends well.
   */
  lemma DeliversIff(base: Tree, source: Tree, repo: Repo, request: Request, s: Script, tree: Tree)
    requires s.baseline.Some? && !s.baseline.value.gate
    ensures var o := Execute(base, source, repo, request, s);
            var delivers := Delivers(base, source, repo, request, s, tree);
            && (CommittedTree(tree) in o.trace <==> delivers)
            && (Published(tree) in o.trace <==> delivers && repo.delivers && s.publishes)
            && (Released(tree) in o.trace <==>
                  delivers && repo.delivers && s.publishes && repo.releases && s.merged == Some(tree))
            && !o.end.Healthy?
            && (o.end.Done? <==> exists t :: Delivers(base, source, repo, request, s, t) && Lands(repo, s, t))
  {
    hide Mend, Admitted, Allowed, Clean, Intact, Delivers, Protected, Guarded, Diff, Visible, Lands;
    AdmittedIsAllowed(base, source, repo, request);
    var d := AfterBaseline(base, source, s);
    CleanIsIntact(d, repo, Guarded(source, repo));
    if Begun(base, source, repo, request, s) {
      MendAnswers(base, source, repo, request, s, tree);
    } else {
      forall t ensures !Delivers(base, source, repo, request, s, t) {
        NeverBegun(base, source, repo, request, s, t);
      }
    }
  }

  lemma NeverBegun(base: Tree, source: Tree, repo: Repo, request: Request, s: Script, tree: Tree)
    requires !Begun(base, source, repo, request, s)
    ensures !Delivers(base, source, repo, request, s, tree)
  {
    hide Begun;
  }

  /**
   A passing baseline releases exactly when it was asked to, or when it is a watched base that passed its release
   stage as well; otherwise it is healthy. Without a baseline or with a stale request nothing ends well.
   */
  lemma PassingBaselineIff(base: Tree, source: Tree, repo: Repo, request: Request, s: Script)
    requires s.baseline.None? || s.baseline.value.gate
    ensures var o := Execute(base, source, repo, request, s);
            var passed := Begun(base, source, repo, request, s) && s.current;
            var watched := request.autoDeploy && request.mode.Repair? && repo.releases;
            && (o.end.Healthy? <==> passed && !request.mode.Release? && !watched)
            && (o.end.Done? <==>
                  && passed
                  && (request.mode.Release?
                      || (watched && ReleaseChecked(base, repo, Guarded(source, repo), map[], s) && s.publishes)))
            && (forall t :: Released(t) in o.trace <==> o.end.Done? && t == source)
            && (forall t :: CommittedTree(t) !in o.trace && Published(t) !in o.trace)
  {
    hide Admitted, Allowed, Clean, Intact, Protected, Guarded, Diff, Visible, Reverify, ReleaseChecked;
    AdmittedIsAllowed(base, source, repo, request);
    if s.baseline.Some? {
      var d := AfterBaseline(base, source, s);
      CleanIsIntact(d, repo, Guarded(source, repo));
      ReverifyAnswers(d, repo, Guarded(source, repo), map[], s);
    }
  }

  /** What the entry says was answered. */
  predicate Answered(e: Entry, base: Tree, source: Tree, repo: Repo, s: Script) {
    match e
    case Baselined(passed) => s.baseline.Some? && passed == s.baseline.value.gate
    case Verified(_, _, _, _) => Told(e, AfterBaseline(base, source, s), 1, s.attempts)
    case Judged(_, _, _) => Told(e, AfterBaseline(base, source, s), 1, s.attempts)
    case ReleaseVerified(patch) => repo.releases && ReleaseChecked(base, repo, Guarded(source, repo), patch, s)
    case CommittedTree(_) => s.commits.Some?
    case Published(_) => s.publishes
    case Released(tree) => s.baseline.Some? && (if s.baseline.value.gate then s.current else s.merged == Some(tree))
  }

  lemma DeliveryIsAnswered(d: Disk, repo: Repo, protected: Tree, patch: Patch, s: Script, e: Entry)
    requires e in Deliver(d, repo, protected, patch, s).trace
    ensures Delivery(e)
    ensures e.ReleaseVerified? ==> repo.releases && ReleaseChecked(d.base, repo, protected, e.patch, s)
    ensures e.CommittedTree? ==> s.commits.Some?
    ensures e.Published? ==> s.publishes
    ensures e.Released? ==> s.merged == Some(e.tree)
  {
    hide Deliver, ReleaseChecked, Shows, Diff;
    var tree := if e.CommittedTree? || e.Published? || e.Released? then e.tree else d.base;
    DeliverAnswers(d, repo, protected, patch, s, tree);
    assert e.CommittedTree? ==> e == CommittedTree(tree);
    assert e.Published? ==> e == Published(tree);
    assert e.Released? ==> e == Released(tree);
    assert e.ReleaseVerified? ==> e == ReleaseVerified(e.patch);
  }

  lemma MendIsAnswered(base: Tree, source: Tree, repo: Repo, request: Request, s: Script, i: nat)
    requires Begun(base, source, repo, request, s) && !s.baseline.value.gate
    requires i < |Mend(AfterBaseline(base, source, s), repo, Guarded(source, repo), request, s).trace|
    ensures var e := Mend(AfterBaseline(base, source, s), repo, Guarded(source, repo), request, s).trace[i];
            Answered(e, base, source, repo, s)
  {
    hide TryAll, Deliver, Settles, Allowed, Found, Proposed, AfterReview, Told, Guarded, ReleaseChecked, Shows, Diff,
      CommitsAs, Lands;
    var d, protected := AfterBaseline(base, source, s), Guarded(source, repo);
    var t := TryAll(d, repo, protected, 1, s.attempts);
    TryAllAnswers(d, repo, protected, 1, s.attempts);
    TryAllIsSound(d, repo, protected, 1, s.attempts);
    var e := Mend(d, repo, protected, request, s).trace[i];
    if i < |t.trace| {
      assert Told(t.trace[i], d, 1, s.attempts);
    } else {
      var trace := Deliver(t.disk, repo, protected, t.verdict.patch, s).trace;
      assert e == trace[i - |t.trace|] && e in trace;
      DeliveryIsAnswered(t.disk, repo, protected, t.verdict.patch, s, e);
    }
  }

  /** Every entry of the evidence is what the script answered, about what it says it was about. */
  lemma EntriesAreAnswers(base: Tree, source: Tree, repo: Repo, request: Request, s: Script, i: nat)
    requires i < |Execute(base, source, repo, request, s).trace|
    ensures Answered(Execute(base, source, repo, request, s).trace[i], base, source, repo, s)
    ensures Execute(base, source, repo, request, s).trace[i].Baselined? <==> i == 0
  {
    hide Mend, Admitted, Allowed, Clean, Intact, Protected, Guarded, Diff, Visible, Told, Reverify, ReleaseChecked;
    AdmittedIsAllowed(base, source, repo, request);
    var d := AfterBaseline(base, source, s);
    CleanIsIntact(d, repo, Guarded(source, repo));
    ReverifyAnswers(d, repo, Guarded(source, repo), map[], s);
    if i > 0 && !s.baseline.value.gate {
      MendIsAnswered(base, source, repo, request, s, i - 1);
      MendHasNoBaseline(d, repo, Guarded(source, repo), request, s, i - 1);
    }
  }

  lemma MendHasNoBaseline(d: Disk, repo: Repo, protected: Tree, request: Request, s: Script, i: nat)
    requires i < |Mend(d, repo, protected, request, s).trace|
    ensures !Mend(d, repo, protected, request, s).trace[i].Baselined?
  {
    hide TryAll, Deliver, Backed, Worthy;
    var t := TryAll(d, repo, protected, 1, s.attempts);
    TryAllIsSound(d, repo, protected, 1, s.attempts);
    if i >= |t.trace| {
      var e := Deliver(t.disk, repo, protected, t.verdict.patch, s).trace[i - |t.trace|];
      DeliveryIsAnswered(t.disk, repo, protected, t.verdict.patch, s, e);
    }
  }

  /** Whatever is committed or published passed sound checks and a review without concerns in one attempt. */
  lemma DeliveriesPassed(base: Tree, source: Tree, repo: Repo, request: Request, s: Script, i: nat)
    requires i < |Execute(base, source, repo, request, s).trace|
    ensures Delivered(Execute(base, source, repo, request, s).trace[i]) ==>
              exists m: nat :: m < |s.attempts| && s.attempts[m].checks.Some?
                && s.attempts[m].checks.value.sound && s.attempts[m].checks.value.gate && Approved(s.attempts[m])
  {
    hide Execute, Begun, Found, TurnedDownAt, CommitsAttempt;
    var trace := Execute(base, source, repo, request, s).trace;
    if Delivered(trace[i]) {
      assert trace[i] in trace;
      assert trace[i] == CommittedTree(trace[i].tree) || trace[i] == Published(trace[i].tree);
      if s.baseline.None? || s.baseline.value.gate {
        PassingBaselineIff(base, source, repo, request, s);
      } else {
        DeliversIff(base, source, repo, request, s, trace[i].tree);
        var m: nat :| Repairs(base, source, repo, request, s, m)
                      && CommitsAttempt(base, source, repo, s, m, trace[i].tree);
      }
    }
  }
}
