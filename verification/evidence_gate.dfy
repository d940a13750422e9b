/**
 The gate over one run: the whole planned set, each required check passed, and every pass backed by a
 successful process and, for test checks, by passing test evidence.
 */
module EvidenceGate {
  import opened Wrappers

  datatype Status =
    | Passed | Failed | Errored | TimedOut | Cancelled | MissingEvidence | InvalidEvidence | NoTests | Skipped

  datatype Evidence = Evidence(status: Status, tests: nat, failures: nat, errors: nat, skipped: nat)

  datatype Kind = Command | Test

  datatype Check = Check(id: string, kind: Kind, required: bool)

  datatype Result = Result(id: string, status: Status, exit: Option<int>, evidence: Option<Evidence>)

  datatype Reason =
    | NoRequiredChecks
    | Duplicate(id: string)
    | Unexpected(id: string)
    | NoProcessEvidence(id: string)
    | NoTestEvidence(id: string)
    | NotPassed(id: string, status: Status)
    | Missing(id: string)

  datatype Verdict = Verdict(passed: bool, reasons: seq<Reason>, advisories: seq<Reason>)

  /** `{check.id: check for check in plan.checks}`: the last check of an id stands for it. */
  function Expected(checks: seq<Check>): (m: map<string, Check>)
    ensures forall id :: id in m <==> exists i :: 0 <= i < |checks| && checks[i].id == id
    ensures forall id :: id in m ==> m[id].id == id && m[id] in checks
    decreases |checks|
  {
    if checks == [] then map[]
    else
      var last := checks[|checks| - 1];
      Expected(checks[..|checks| - 1])[last.id := last]
  }

  predicate TestsPassed(evidence: Option<Evidence>) {
    && evidence.Some? && evidence.value.status == Passed
    && evidence.value.tests > evidence.value.skipped && evidence.value.failures == 0 && evidence.value.errors == 0
  }

  /** What speaks against the run in this result, given the ids before it. */
  predicate Clean(expected: map<string, Check>, r: Result) {
    && r.id in expected
    && (r.status == Passed ==> r.exit == Some(0) && (expected[r.id].kind.Test? ==> TestsPassed(r.evidence)))
    && (r.status != Passed ==> !expected[r.id].required)
  }

  function Ids(results: seq<Result>): set<string> {
    set i | 0 <= i < |results| :: results[i].id
  }

  predicate Distinct(results: seq<Result>) {
    forall i, j :: 0 <= i < j < |results| ==> results[i].id != results[j].id
  }

  ghost predicate AllClean(expected: map<string, Check>, results: seq<Result>) {
    forall i :: 0 <= i < |results| ==> Clean(expected, results[i])
  }

  predicate HasRequired(checks: seq<Check>) {
    exists i :: 0 <= i < |checks| && checks[i].required
  }

  /** The planned set, one for one, with nothing against any of it. */
  ghost predicate Complete(checks: seq<Check>, results: seq<Result>) {
    && HasRequired(checks)
    && Distinct(results) && Ids(results) == Expected(checks).Keys
    && AllClean(Expected(checks), results)
  }

  predicate Advisory(expected: map<string, Check>, r: Result) {
    r.id in expected && r.status != Passed && !expected[r.id].required
  }

  /** What this result, taken by itself, gives as a reason. */
  predicate Against(expected: map<string, Check>, r: Result, reason: Reason) {
    match reason
    case Unexpected(id) => id == r.id && id !in expected
    case NoProcessEvidence(id) => id == r.id && id in expected && r.status == Passed && r.exit != Some(0)
    case NoTestEvidence(id) =>
      id == r.id && id in expected && r.status == Passed && expected[id].kind.Test? && !TestsPassed(r.evidence)
    case NotPassed(id, status) =>
      id == r.id && id in expected && expected[id].required && status == r.status && status != Passed
    case _ => false
  }

  /** Two results carry this id. */
  predicate Doubled(results: seq<Result>, id: string) {
    exists i, j :: 0 <= i < j < |results| && results[i].id == id == results[j].id
  }

  /** Why the run does not pass: every reason that there is, and no other. */
  ghost predicate Holds(checks: seq<Check>, results: seq<Result>, reason: Reason) {
    match reason
    case NoRequiredChecks => !HasRequired(checks)
    case Duplicate(id) => Doubled(results, id)
    case Missing(id) => id in Expected(checks) && id !in Ids(results)
    case _ => exists i :: 0 <= i < |results| && Against(Expected(checks), results[i], reason)
  }

  /** The advice that this result gives. */
  predicate Advises(expected: map<string, Check>, r: Result, note: Reason) {
    note == NotPassed(r.id, r.status) && Advisory(expected, r)
  }

  /** The checks of one result against its planned check. */
  method Judge(expected: map<string, Check>, r: Result) returns (reasons: seq<Reason>, advisories: seq<Reason>)
    requires forall id :: id in expected ==> expected[id].id == id
    ensures reasons == [] <==> Clean(expected, r)
    ensures forall reason :: reason in reasons <==> Against(expected, r, reason)
    ensures forall note :: note in advisories <==> Advises(expected, r, note)
  {
    reasons, advisories := [], [];
    if r.id !in expected { return [Unexpected(r.id)], []; }
    var check := expected[r.id];
    if r.status == Passed {
      if r.exit != Some(0) { reasons := reasons + [NoProcessEvidence(r.id)]; }
      if check.kind.Test? && !TestsPassed(r.evidence) { reasons := reasons + [NoTestEvidence(r.id)]; }
    } else if check.required {
      reasons := reasons + [NotPassed(r.id, r.status)];
    } else {
      advisories := advisories + [NotPassed(r.id, r.status)];
    }
  }

  method ReportMissing(ids: set<string>) returns (reasons: seq<Reason>)
    ensures reasons == [] <==> ids == {}
    ensures forall reason :: reason in reasons <==> reason.Missing? && reason.id in ids
  {
    reasons := [];
    var missing := ids;
    while missing != {}
      invariant missing <= ids && (reasons == [] ==> missing == ids) && (ids == {} ==> reasons == [])
      invariant forall reason :: reason in reasons <==> reason.Missing? && reason.id in ids - missing
      decreases missing
    {
      var id :| id in missing;
      reasons := reasons + [Missing(id)];
      missing := missing - {id};
    }
  }

  /** `evaluate_gate`. */
  method EvaluateGate(checks: seq<Check>, results: seq<Result>) returns (v: Verdict)
    ensures v.passed == (v.reasons == [])
    ensures v.passed <==> Complete(checks, results)
    ensures forall reason :: reason in v.reasons <==> Holds(checks, results, reason)
    ensures forall note :: note in v.advisories <==>
        exists i :: 0 <= i < |results| && Advises(Expected(checks), results[i], note)
  {
    hide Expected, Clean, Advisory, HasRequired, Distinct, AllClean, Ids, Against, Advises, FoundBy, Holds;
    var expected := Expected(checks);
    var seen: set<string> := {};
    var reasons: seq<Reason>, advisories: seq<Reason> := [], [];
    if expected == map[] || !HasRequired(checks) { reasons := [NoRequiredChecks]; }
    RequiredIsExpected(checks);
    NoResults(expected);
    NoneFound(checks);
    assert results[..0] == [];
    for i := 0 to |results|
      invariant seen == Ids(results[..i])
      invariant reasons == [] <==> HasRequired(checks) && Distinct(results[..i]) && AllClean(expected, results[..i])
      invariant forall reason :: reason in reasons <==> FoundBy(checks, results[..i], reason)
      invariant forall note :: note in advisories <==>
          exists j :: 0 <= j < i && Advises(expected, results[j], note)
    {
      var r := results[i];
      ghost var before, repeated := reasons, r.id in seen;
      NextResult(expected, results, i);
      NextFound(checks, results, i);
      if r.id in seen { reasons := reasons + [Duplicate(r.id)]; }
      seen := seen + {r.id};
      var bad, notes := Judge(expected, r);
      reasons, advisories := reasons + bad, advisories + notes;
      assert forall reason :: reason in reasons <==>
          reason in before || (reason == Duplicate(r.id) && repeated) || reason in bad;
    }
    assert results[..|results|] == results;
    if AllClean(expected, results) { CleanIsExpected(expected, results); }
    var missing := ReportMissing(expected.Keys - seen);
    NoneLeft(expected.Keys, seen);
    AllFound(checks, results);
    reasons := reasons + missing;
    v := Verdict(reasons == [], reasons, advisories);
  }

  /** The reasons that the results so far give, apart from what is missing. */
  ghost predicate FoundBy(checks: seq<Check>, results: seq<Result>, reason: Reason) {
    !reason.Missing? && Holds(checks, results, reason)
  }

  lemma NoneFound(checks: seq<Check>)
    ensures forall reason :: FoundBy(checks, [], reason) <==> reason.NoRequiredChecks? && !HasRequired(checks)
  {
  }

  lemma AllFound(checks: seq<Check>, results: seq<Result>)
    ensures forall reason :: Holds(checks, results, reason) <==>
              || FoundBy(checks, results, reason)
              || (reason.Missing? && reason.id in Expected(checks).Keys - Ids(results))
  {
  }

  lemma NextFound(checks: seq<Check>, results: seq<Result>, i: nat)
    requires i < |results|
    ensures forall reason :: FoundBy(checks, results[..i + 1], reason) <==>
              || FoundBy(checks, results[..i], reason)
              || Against(Expected(checks), results[i], reason)
              || (reason == Duplicate(results[i].id) && results[i].id in Ids(results[..i]))
  {
    hide Expected, Against;
    forall reason
      ensures FoundBy(checks, results[..i + 1], reason) <==>
                || FoundBy(checks, results[..i], reason)
                || Against(Expected(checks), results[i], reason)
                || (reason == Duplicate(results[i].id) && results[i].id in Ids(results[..i]))
    {
      NextReason(checks, results, i, reason);
    }
  }

  lemma NextReason(checks: seq<Check>, results: seq<Result>, i: nat, reason: Reason)
    requires i < |results|
    ensures FoundBy(checks, results[..i + 1], reason) <==>
              || FoundBy(checks, results[..i], reason)
              || Against(Expected(checks), results[i], reason)
              || (reason == Duplicate(results[i].id) && results[i].id in Ids(results[..i]))
  {
    hide Expected, HasRequired, Against, Ids;
    var now, next := results[..i], results[..i + 1];
    assert next == now + [results[i]] && forall j :: 0 <= j < i ==> now[j] == next[j];
    if reason.Duplicate? || reason.Missing? || reason.NoRequiredChecks? {
      NotAgainst(Expected(checks), results[i], reason);
    }
    if reason.Duplicate? { NextDuplicate(results, i, reason.id); }
  }

  lemma NotAgainst(expected: map<string, Check>, r: Result, reason: Reason)
    requires reason.Duplicate? || reason.Missing? || reason.NoRequiredChecks?
    ensures !Against(expected, r, reason)
  {
  }

  lemma NextDuplicate(results: seq<Result>, i: nat, id: string)
    requires i < |results|
    ensures Doubled(results[..i + 1], id) <==>
        Doubled(results[..i], id) || (id == results[i].id && id in Ids(results[..i]))
  {
    var now, next := results[..i], results[..i + 1];
    assert next == now + [results[i]] && forall j :: 0 <= j < i ==> now[j] == next[j];
    if Doubled(next, id) {
      var a, b :| 0 <= a < b < |next| && next[a].id == id == next[b].id;
      assert now[a].id == id;
    }
    if id == results[i].id && id in Ids(now) {
      var a :| 0 <= a < |now| && now[a].id == id;
      assert next[a].id == id == next[i].id;
    }
    if Doubled(now, id) {
      var a, b :| 0 <= a < b < |now| && now[a].id == id == now[b].id;
      assert next[a].id == id == next[b].id;
    }
  }

  lemma NoneLeft(a: set<string>, b: set<string>)
    ensures a - b == {} <==> a <= b
  {
    assert forall x :: x in a && x !in b ==> x in a - b;
  }

  lemma NoResults(expected: map<string, Check>)
    ensures Ids([]) == {} && Distinct([]) && AllClean(expected, [])
  {
  }

  lemma RequiredIsExpected(checks: seq<Check>)
    ensures HasRequired(checks) ==> Expected(checks) != map[]
  {
    if HasRequired(checks) {
      var i :| 0 <= i < |checks| && checks[i].required;
      assert checks[i].id in Expected(checks);
    }
  }

  lemma NextResult(expected: map<string, Check>, results: seq<Result>, i: nat)
    requires i < |results|
    ensures Ids(results[..i + 1]) == Ids(results[..i]) + {results[i].id}
    ensures Distinct(results[..i + 1]) <==> Distinct(results[..i]) && results[i].id !in Ids(results[..i])
    ensures AllClean(expected, results[..i + 1]) <==> AllClean(expected, results[..i]) && Clean(expected, results[i])
  {
    hide Clean;
    var now, next := results[..i], results[..i + 1];
    assert next == now + [results[i]];
    forall id
      ensures id in Ids(next) <==> id in Ids(now) + {results[i].id}
    {
      if id in Ids(now) {
        var j :| 0 <= j < |now| && now[j].id == id;
        assert next[j].id == id;
      }
      assert next[i].id == results[i].id;
    }
    if Distinct(next) {
      assert forall j :: 0 <= j < i ==> next[j].id != next[i].id && now[j] == next[j];
    }
    assert AllClean(expected, next) ==> Clean(expected, next[i]);
    assert AllClean(expected, next) ==> forall j :: 0 <= j < i ==> Clean(expected, now[j]) by {
      assert forall j :: 0 <= j < i ==> now[j] == next[j];
    }
  }

  lemma CleanIsExpected(expected: map<string, Check>, results: seq<Result>)
    requires AllClean(expected, results)
    ensures Ids(results) <= expected.Keys
  {
  }

  /** This result answers for the check: required ones passed, and no pass without its evidence. */
  predicate Answering(check: Check, r: Result) {
    && r.id == check.id && (check.required ==> r.status == Passed)
    && (r.status == Passed ==>
          && r.exit == Some(0)
          && (check.kind == Test ==>
                && r.evidence.Some? && r.evidence.value.status == Passed
                && r.evidence.value.tests > r.evidence.value.skipped
                && r.evidence.value.failures == 0 && r.evidence.value.errors == 0))
  }

  predicate Answered(checks: seq<Check>, r: Result) {
    exists i :: 0 <= i < |checks| && Answering(checks[i], r)
  }

  predicate Present(results: seq<Result>, id: string) {
    exists k :: 0 <= k < |results| && results[k].id == id
  }

  /**
   Over checks with distinct ids the gate passes exactly if one is required and results and checks correspond one
   for one: each check has its one result, which answers for it, and there is no other result.
   */
  lemma CompleteMeans(checks: seq<Check>, results: seq<Result>)
    requires UniqueIds(checks)
    ensures Complete(checks, results) <==>
              && (exists i :: 0 <= i < |checks| && checks[i].required)
              && (forall i :: 0 <= i < |checks| ==> Present(results, checks[i].id))
              && (forall j, k :: 0 <= j < k < |results| ==> results[j].id != results[k].id)
              && (forall k :: 0 <= k < |results| ==> Answered(checks, results[k]))
  {
    hide Expected, Clean, Answered, Present;
    var expected := Expected(checks);
    forall k | 0 <= k < |results| ensures Clean(expected, results[k]) <==> Answered(checks, results[k]) {
      CleanMeans(checks, results[k]);
    }
    forall id ensures id in Ids(results) <==> Present(results, id) { PresentIs(results, id); }
    if AllClean(expected, results) { CleanIsExpected(expected, results); }
    assert AllClean(expected, results) <==> forall k :: 0 <= k < |results| ==> Answered(checks, results[k]);
    assert expected.Keys <= Ids(results) <==> forall i :: 0 <= i < |checks| ==> Present(results, checks[i].id);
  }

  lemma PresentIs(results: seq<Result>, id: string)
    ensures id in Ids(results) <==> Present(results, id)
  {
  }

  lemma CleanMeans(checks: seq<Check>, r: Result)
    requires UniqueIds(checks)
    ensures Clean(Expected(checks), r) <==> Answered(checks, r)
  {
    hide Expected;
    forall i | 0 <= i < |checks|
      ensures checks[i].id in Expected(checks) && Expected(checks)[checks[i].id] == checks[i]
    {
      ExpectedAt(checks, i);
    }
    if r.id in Expected(checks) {
      var i :| 0 <= i < |checks| && checks[i].id == r.id;
      assert Answering(checks[i], r) <==> Clean(Expected(checks), r);
    }
  }

  /** A passing gate means that every check of the plan has exactly one result, and each required one passed. */
  lemma CompleteIsOneForOne(checks: seq<Check>, results: seq<Result>, i: nat)
    requires Complete(checks, results) && i < |checks|
    ensures exists k :: 0 <= k < |results| && results[k].id == checks[i].id
    ensures forall j, k :: 0 <= j < |results| && 0 <= k < |results| && results[j].id == results[k].id ==> j == k
    ensures Expected(checks)[checks[i].id].required ==>
              forall k :: 0 <= k < |results| && results[k].id == checks[i].id ==>
                results[k].status == Passed && results[k].exit == Some(0)
  {
    assert checks[i].id in Expected(checks);
    assert checks[i].id in Ids(results);
  }

  predicate UniqueIds(checks: seq<Check>) {
    forall i, j :: 0 <= i < j < |checks| ==> checks[i].id != checks[j].id
  }

  /** A result is judged by the last check of its id. */
  lemma {:induction false} ExpectedAt(checks: seq<Check>, i: nat)
    requires i < |checks| && forall j :: i < j < |checks| ==> checks[j].id != checks[i].id
    ensures checks[i].id in Expected(checks) && Expected(checks)[checks[i].id] == checks[i]
    decreases |checks|
  {
    var n := |checks| - 1;
    assert Expected(checks) == Expected(checks[..n])[checks[n].id := checks[n]];
    if i < n {
      assert checks[..n][i] == checks[i] && checks[i].id != checks[n].id;
      ExpectedAt(checks[..n], i);
    }
  }

  /** Results one for one, in order, and no pass without its evidence. */
  predicate Answers(checks: seq<Check>, results: seq<Result>) {
    && |results| == |checks|
    && forall i :: 0 <= i < |checks| ==>
         && results[i].id == checks[i].id
         && (results[i].status == Passed ==>
               results[i].exit == Some(0) && (checks[i].kind.Test? ==> TestsPassed(results[i].evidence)))
  }

  predicate RequiredPassed(checks: seq<Check>, results: seq<Result>) {
    |results| == |checks| && forall i :: 0 <= i < |checks| && checks[i].required ==> results[i].status == Passed
  }

  /** Over such results the gate passes exactly if every required check passed. */
  lemma RequiredDecide(checks: seq<Check>, results: seq<Result>)
    requires UniqueIds(checks) && HasRequired(checks) && Answers(checks, results)
    ensures Complete(checks, results) <==> RequiredPassed(checks, results)
  {
    hide Expected, TestsPassed;
    var expected := Expected(checks);
    forall i | 0 <= i < |checks|
      ensures checks[i].id in expected && expected[checks[i].id] == checks[i]
      ensures Clean(expected, results[i]) <==> (checks[i].required ==> results[i].status == Passed)
    {
      ExpectedAt(checks, i);
    }
    forall id ensures id in Ids(results) <==> id in expected.Keys {
      if id in expected {
        var i :| 0 <= i < |checks| && checks[i].id == id;
        assert results[i].id == id;
      }
    }
    if Complete(checks, results) {
      forall i | 0 <= i < |checks| && checks[i].required ensures results[i].status == Passed {
        assert Clean(expected, results[i]);
      }
    }
  }
}
