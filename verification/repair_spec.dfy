/**
 One repair run of the controller as a value: from the prepared workspace through baseline, diagnosis,
 repair attempts, review and commit to publication and release. Everything the controller does not
 decide (lost leases, shutdown, failed calls, AI answers, what checks do to the workspace) is a script.
 */
module RepairSpec {
  import opened Wrappers
  import opened Workspace

  /** The policy of one repository. */
  datatype Repo = Repo(
    profile: Path, context: set<Path>, editable: set<Path>, attempts: nat, releases: bool, delivers: bool)

  /** What the configuration loader guarantees. */
  predicate Coherent(repo: Repo) {
    repo.profile !in repo.editable && repo.editable <= repo.context && 1 <= repo.attempts <= 5
    && (repo.releases ==> repo.delivers)
  }

  datatype Mode = Check | Repair | Release

  datatype Request = Request(mode: Mode, pull: bool, autoDeploy: bool)

  /** The workspace some program left behind; only the base commit is out of its reach. */
  datatype Left = Left(head: Tree, work: Tree, tracked: set<Path>, manifest: set<Path>)

  /** A run of the planned checks: its gate, whether its environment and isolation were sound, and its traces. */
  datatype Checked = Checked(left: Left, gate: bool, sound: bool)

  datatype Reviewed = Reviewed(left: Left, approved: bool, concerns: seq<string>)

  /** `None` is any exception on the way: lost lease, shutdown, exhausted budget, failed call. */
  datatype Attempt = Attempt(
    edits: Option<seq<Edit>>, ignored: set<Path>, checks: Option<Checked>, review: Option<Reviewed>)

  /** `current`: the source head and event revision are still those of the request after the baseline. */
  datatype Script = Script(
    baseline: Option<Checked>, current: bool, diagnosis: Option<bool>, attempts: seq<Attempt>, release: Option<Checked>,
    commits: Option<Left>, publishes: bool, merged: Option<Tree>)

  datatype Entry =
    | Baselined(passed: bool)
    | Verified(attempt: nat, head: Tree, tested: Tree, passed: bool)    // the tracked tree the checks ran on
    | Judged(attempt: nat, approved: bool, concerns: seq<string>)
    | ReleaseVerified(patch: Patch)
    | CommittedTree(tree: Tree)
    | Published(tree: Tree)
    | Released(tree: Tree)

  datatype End = Stopped | Healthy | Done

  datatype Outcome = Outcome(disk: Disk, trace: seq<Entry>, end: End)

  function Leave(d: Disk, left: Left): Disk {
    Disk(d.base, left.head, left.work, left.tracked, left.manifest)
  }

  /** `_assert_files`: protected files as first read, and tracked changes only where editing is allowed. */
  predicate Clean(d: Disk, repo: Repo, protected: Tree) {
    Snapshot(d.work, protected.Keys) == protected && Candidate(d).Keys <= repo.editable
  }

  // ----- one attempt -----

  datatype Verdict = Stop | Again | Accept(patch: Patch)
  datatype Tried = Tried(disk: Disk, trace: seq<Entry>, verdict: Verdict)

  function Try(d: Disk, repo: Repo, protected: Tree, k: nat, a: Attempt): Tried {
    if a.edits.None? || !Acceptable(d, a.edits.value, repo.editable, a.ignored) then Tried(d, [], Stop)
    else
      var edited := Edited(d, a.edits.value);
      if !Clean(edited, repo, protected) || Candidate(edited) == map[] || a.checks.None? then Tried(edited, [], Stop)
      else Verify(edited, repo, protected, k, a)
  }

  function Verify(d: Disk, repo: Repo, protected: Tree, k: nat, a: Attempt): Tried
    requires a.checks.Some?
  {
    var patch := Candidate(d);
    var left := Leave(d, a.checks.value.left);
    if !a.checks.value.sound || !Clean(left, repo, protected) || Candidate(left) != patch then Tried(left, [], Stop)
    else if !a.checks.value.gate then Tried(left, [Verified(k, d.head, Visible(d), false)], Again)
    else Review(left, Verified(k, d.head, Visible(d), true), patch, k, a)
  }

  function Review(d: Disk, verified: Entry, patch: Patch, k: nat, a: Attempt): Tried {
    if a.review.None? then Tried(d, [verified], Stop)
    else
      var r := a.review.value;
      var judged := Judged(k, r.approved, r.concerns);
      Tried(Leave(d, r.left), [verified, judged], if r.approved && r.concerns == [] then Accept(patch) else Again)
  }

  /** The attempts that are left, the next being number `k`; running out of them stops the run. */
  function TryAll(d: Disk, repo: Repo, protected: Tree, k: nat, attempts: seq<Attempt>): Tried
    decreases |attempts|
  {
    if attempts == [] then Tried(d, [], Stop)
    else
      var t := Try(d, repo, protected, k, attempts[0]);
      if !t.verdict.Again? then t
      else
        var rest := TryAll(t.disk, repo, protected, k + 1, attempts[1..]);
        rest.(trace := t.trace + rest.trace)
  }

  // ----- delivery -----

  /** The release-stage verification of the candidate, where the policy has release hooks. */
  function Reverify(d: Disk, repo: Repo, protected: Tree, patch: Patch, s: Script): (Disk, bool) {
    if !repo.releases then (d, true)
    else if s.release.None? then (d, false)
    else
      var left := Leave(d, s.release.value.left);
      (left, s.release.value.sound && Clean(left, repo, protected) && s.release.value.gate && Candidate(left) == patch)
  }

  /** From an accepted candidate on. */
  function Deliver(d: Disk, repo: Repo, protected: Tree, patch: Patch, s: Script): Outcome {
    if !Clean(d, repo, protected) || Candidate(d) != patch then Outcome(d, [], Stopped)
    else
      var (ready, ok) := Reverify(d, repo, protected, patch, s);
      var checked := if repo.releases then [ReleaseVerified(patch)] else [];
      if !ok then Outcome(ready, [], Stopped)
      else if s.commits.None? then Outcome(ready, checked, Stopped)
      else
        var o := Finish(Leave(ready, s.commits.value), repo, patch, s);
        o.(trace := checked + o.trace)
  }

  function Finish(d: Disk, repo: Repo, patch: Patch, s: Script): Outcome {
    if !Committable(d) then Outcome(d, [], Stopped)
    else
      var c := Committed(d);
      if Candidate(c) != map[] || Diff(c.base, c.head) != patch then Outcome(c, [], Stopped)
      else if !repo.delivers then Outcome(c, [CommittedTree(c.head)], Done)
      else if !s.publishes then Outcome(c, [CommittedTree(c.head)], Stopped)
      else if !repo.releases then Outcome(c, [CommittedTree(c.head), Published(c.head)], Done)
      else if s.merged != Some(c.head) then Outcome(c, [CommittedTree(c.head), Published(c.head)], Stopped)
      else Outcome(c, [CommittedTree(c.head), Published(c.head), Released(c.head)], Done)
  }

  // ----- the whole run -----

  function Protected(source: Tree, repo: Repo): Tree {
    Snapshot(source, repo.context - repo.editable)
  }

  function Prepared(base: Tree, source: Tree): Disk { Disk(base, source, source, source.Keys, {}) }

  /** Requests the policy refuses before anything runs. */
  predicate Admitted(base: Tree, source: Tree, repo: Repo, request: Request) {
    && (!request.mode.Check? ==> source == base)
    && (request.mode.Release? ==> repo.releases)
    && (request.pull ==> Diff(base, source).Keys !! {repo.profile} + (repo.context - repo.editable))
  }

  /** The baseline checks left no trace in tracked or protected files. */
  predicate BaselineHolds(d: Disk, repo: Repo, protected: Tree, c: Checked) {
    c.sound && Clean(Leave(d, c.left), repo, protected) && Candidate(Leave(d, c.left)) == map[]
  }

  function Execute(base: Tree, source: Tree, repo: Repo, request: Request, s: Script): Outcome {
    var d := Prepared(base, source);
    var protected := Protected(source, repo);
    if !Admitted(base, source, repo, request) || s.baseline.None? then Outcome(d, [], Stopped)
    else
      var after := Leave(d, s.baseline.value.left);
      var o :=
        if !BaselineHolds(d, repo, protected, s.baseline.value) then Outcome(after, [], Stopped)
        else if s.baseline.value.gate then Sound(after, source, repo, protected, request, s)
        else Mend(after, repo, protected, request, s);
      o.(trace := [Baselined(s.baseline.value.gate)] + o.trace)
  }

  /** The baseline passed: nothing to repair, but perhaps something to release. */
  function Sound(d: Disk, source: Tree, repo: Repo, protected: Tree, request: Request, s: Script): Outcome {
    if !s.current then Outcome(d, [], Stopped)
    else if request.mode.Release? then Outcome(d, [Released(source)], Done)
    else if !(request.autoDeploy && request.mode.Repair? && repo.releases) then Outcome(d, [], Healthy)
    else
      var (left, ok) := Reverify(d, repo, protected, map[], s);
      if !ok then Outcome(left, [], Stopped)
      else if !s.publishes then Outcome(left, [ReleaseVerified(map[])], Stopped)
      else Outcome(left, [ReleaseVerified(map[]), Released(source)], Done)
  }

  /** The baseline failed. */
  function Mend(d: Disk, repo: Repo, protected: Tree, request: Request, s: Script): Outcome {
    if !request.mode.Repair? || repo.editable == {} || s.diagnosis != Some(true) then Outcome(d, [], Stopped)
    else
      var t := TryAll(d, repo, protected, 1, s.attempts);
      if !t.verdict.Accept? then Outcome(t.disk, t.trace, Stopped)
      else
        var o := Deliver(t.disk, repo, protected, t.verdict.patch, s);
        o.(trace := t.trace + o.trace)
  }
}
