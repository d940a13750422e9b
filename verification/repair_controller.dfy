/**
 `Controller.execute` as the program runs it: one workspace on disk, edited, checked and committed step
 by step, and evidence that grows. Proved to do exactly what `RepairSpec.Execute` says.
 */
module RepairController {
  import opened Wrappers
  import opened Workspace
  import opened RepairSpec

  class Controller {
    const repo: Repo

    /** The evidence of the task. */
    var evidence: seq<Entry>

    constructor (repo: Repo)
      ensures this.repo == repo && evidence == []
    {
      this.repo := repo;
      evidence := [];
    }

    /** `run_plan`, or anything else that runs with the workspace as its directory. */
    method Run(workspace: GitWorkspace, left: Left)
      modifies workspace
      ensures workspace.Value() == Leave(old(workspace.Value()), left)
    {
      workspace.Overwrite(left.head, left.work, left.tracked, left.manifest);
    }

    method Execute(base: Tree, source: Tree, request: Request, s: Script) returns (o: Outcome)
      requires |s.attempts| == repo.attempts && evidence == []
      modifies this`evidence
      ensures o == RepairSpec.Execute(base, source, repo, request, s) && evidence == o.trace
    {
      hide Clean, Candidate, Diff, Deliver, TryAll, Reverify, Admitted;
      var workspace := new GitWorkspace(base, source);
      if !Admitted(base, source, repo, request) { return Outcome(workspace.Value(), evidence, Stopped); }
      var protected := Protected(source, repo);
      if s.baseline.None? { return Outcome(workspace.Value(), evidence, Stopped); }
      var baseline := s.baseline.value;
      Run(workspace, baseline.left);
      evidence := evidence + [Baselined(baseline.gate)];
      if !baseline.sound || !Clean(workspace.Value(), repo, protected) || Candidate(workspace.Value()) != map[] {
        return Outcome(workspace.Value(), evidence, Stopped);
      }
      if baseline.gate {
        if !s.current { return Outcome(workspace.Value(), evidence, Stopped); }
        if request.mode.Release? {
          evidence := evidence + [Released(source)];
          return Outcome(workspace.Value(), evidence, Done);
        }
        if request.autoDeploy && request.mode.Repair? && repo.releases {
          var verified := ReleaseStage(workspace, protected, map[], s);
          if !verified { return Outcome(workspace.Value(), evidence, Stopped); }
          evidence := evidence + [ReleaseVerified(map[])];
          if !s.publishes { return Outcome(workspace.Value(), evidence, Stopped); }
          evidence := evidence + [Released(source)];
          return Outcome(workspace.Value(), evidence, Done);
        }
        return Outcome(workspace.Value(), evidence, Healthy);
      }
      if !request.mode.Repair? || repo.editable == {} || s.diagnosis != Some(true) {
        return Outcome(workspace.Value(), evidence, Stopped);
      }
      ghost var t := TryAll(workspace.Value(), repo, protected, 1, s.attempts);
      var patch := RepairLoop(workspace, protected, s);
      if patch.None? { return Outcome(workspace.Value(), evidence, Stopped); }
      var end := DeliverCandidate(workspace, protected, patch.value, s);
      ghost var d := Deliver(t.disk, repo, protected, patch.value, s);
      assert evidence == [Baselined(false)] + (t.trace + d.trace);
      o := Outcome(workspace.Value(), evidence, end);
    }

    /** At most `repair_attempts` proposals; the patch of the accepted one. */
    method RepairLoop(workspace: GitWorkspace, protected: Tree, s: Script) returns (accepted: Option<Patch>)
      requires |s.attempts| == repo.attempts
      modifies workspace, this`evidence
      ensures var t := TryAll(old(workspace.Value()), repo, protected, 1, s.attempts);
              && workspace.Value() == t.disk && evidence == old(evidence) + t.trace
              && accepted == if t.verdict.Accept? then Some(t.verdict.patch) else None
    {
      hide Try;
      ghost var whole := TryAll(workspace.Value(), repo, protected, 1, s.attempts);
      assert s.attempts[0..] == s.attempts;
      for attempt := 1 to repo.attempts + 1
        invariant var rest := TryAll(workspace.Value(), repo, protected, attempt, s.attempts[attempt - 1..]);
                  && whole.disk == rest.disk && whole.verdict == rest.verdict
                  && old(evidence) + whole.trace == evidence + rest.trace
      {
        ghost var left := s.attempts[attempt - 1..];
        assert left[0] == s.attempts[attempt - 1] && left[1..] == s.attempts[attempt..];
        ghost var before := evidence;
        ghost var t := Try(workspace.Value(), repo, protected, attempt, left[0]);
        ghost var rest := TryAll(t.disk, repo, protected, attempt + 1, left[1..]);
        var verdict := Attempt(workspace, protected, attempt, s.attempts[attempt - 1]);
        if verdict.Stop? { return None; }
        if verdict.Accept? { return Some(verdict.patch); }
        assert before + (t.trace + rest.trace) == evidence + rest.trace;
      }
      accepted := None;
    }

    /** The body of the repair loop. */
    method Attempt(workspace: GitWorkspace, protected: Tree, attempt: nat, a: RepairSpec.Attempt)
      returns (verdict: Verdict)
      modifies workspace, this`evidence
      ensures var t := Try(old(workspace.Value()), repo, protected, attempt, a);
              workspace.Value() == t.disk && evidence == old(evidence) + t.trace && verdict == t.verdict
    {
      hide Clean, Diff, Visible, Acceptable, Edited;
      if a.edits.None? { return Stop; }
      var applied := workspace.ApplyEdits(a.edits.value, repo.editable, a.ignored);
      if !applied || !Clean(workspace.Value(), repo, protected) { return Stop; }
      var candidate := Candidate(workspace.Value());
      if candidate == map[] || a.checks.None? { return Stop; }
      var head, tested := workspace.head, Visible(workspace.Value());
      Run(workspace, a.checks.value.left);
      if !a.checks.value.sound || !Clean(workspace.Value(), repo, protected) { return Stop; }
      if Candidate(workspace.Value()) != candidate { return Stop; }
      evidence := evidence + [Verified(attempt, head, tested, a.checks.value.gate)];
      if !a.checks.value.gate { return Again; }
      if a.review.None? { return Stop; }
      var review := a.review.value;
      Run(workspace, review.left);
      evidence := evidence + [Judged(attempt, review.approved, review.concerns)];
      verdict := if review.approved && review.concerns == [] then Accept(candidate) else Again;
    }

    /** The release-stage run over a candidate, or over the unchanged base when the patch is empty. */
    method ReleaseStage(workspace: GitWorkspace, protected: Tree, patch: Patch, s: Script) returns (ok: bool)
      modifies workspace
      ensures (workspace.Value(), ok) == Reverify(old(workspace.Value()), repo, protected, patch, s)
    {
      if !repo.releases { return true; }
      if s.release.None? { return false; }
      Run(workspace, s.release.value.left);
      ok := s.release.value.sound && Clean(workspace.Value(), repo, protected)
            && s.release.value.gate && Candidate(workspace.Value()) == patch;
    }

    method DeliverCandidate(workspace: GitWorkspace, protected: Tree, patch: Patch, s: Script) returns (end: End)
      modifies workspace, this`evidence
      ensures Outcome(workspace.Value(), evidence, end)
              == var o := Deliver(old(workspace.Value()), repo, protected, patch, s);
                 o.(trace := old(evidence) + o.trace)
    {
      hide Clean, Diff, Visible, Committable, Reverify, Committed;
      if !Clean(workspace.Value(), repo, protected) || Candidate(workspace.Value()) != patch { return Stopped; }
      var ok := ReleaseStage(workspace, protected, patch, s);
      if !ok { return Stopped; }
      if repo.releases { evidence := evidence + [ReleaseVerified(patch)]; }
      if s.commits.None? { return Stopped; }
      Run(workspace, s.commits.value);
      var committed := workspace.Commit();
      if !committed || Candidate(workspace.Value()) != map[] { return Stopped; }
      if Diff(workspace.base, workspace.head) != patch { return Stopped; }
      var tree := workspace.head;
      evidence := evidence + [CommittedTree(tree)];
      if !repo.delivers { return Done; }
      if !s.publishes { return Stopped; }
      evidence := evidence + [Published(tree)];
      if !repo.releases { return Done; }
      if s.merged != Some(tree) { return Stopped; }
      evidence := evidence + [Released(tree)];
      end := Done;
    }
  }
}
