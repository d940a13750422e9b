/**
 JUnit reports as element trees: the strict reader, and the two writers it must agree with. Text and
 attributes the reader ignores are left out; an attribute that is no integer reads as `None`.
 */
module JUnit {
  import opened Wrappers
  import opened EvidenceGate
  import Outside

  datatype Tag = TestSuite | TestSuites | TestCase | Failure | Error | Skip | OtherTag(name: string)

  datatype Field = Tests | Failures | Errors | Skips

  /** `name` is empty where the attribute is absent. */
  datatype Element = Element(tag: Tag, name: string, declared: map<Field, Option<int>>, children: seq<Element>)

  datatype Counts = Counts(tests: nat, failures: nat, errors: nat, skipped: nat)

  function Plus(a: Counts, b: Counts): Counts {
    Counts(a.tests + b.tests, a.failures + b.failures, a.errors + b.errors, a.skipped + b.skipped)
  }

  function Zero(): Counts { Counts(0, 0, 0, 0) }

  predicate Outcome(tag: Tag) { tag.Failure? || tag.Error? || tag.Skip? }

  predicate IsSuite(tag: Tag) { tag.TestSuite? || tag.TestSuites? }

  /** `element.iter("testcase")`. */
  function Cases(e: Element): seq<Element>
    decreases e
  {
    (if e.tag.TestCase? then [e] else []) + CasesIn(e.children)
  }

  function CasesIn(es: seq<Element>): seq<Element>
    decreases es
  {
    if es == [] then [] else Cases(es[0]) + CasesIn(es[1..])
  }

  predicate Has(e: Element, tag: Tag) {
    exists i :: 0 <= i < |e.children| && e.children[i].tag == tag
  }

  function One(b: bool): nat { if b then 1 else 0 }

  /** A testcase is named and has one kind of outcome at most. */
  predicate Sound(c: Element) {
    c.name != "" && One(Has(c, Failure)) + One(Has(c, Error)) + One(Has(c, Skip)) <= 1
  }

  function Mark(c: Element): Counts {
    Counts(1, One(Has(c, Failure)), One(Has(c, Error)), One(Has(c, Skip)))
  }

  function Tally(cases: seq<Element>): Counts
    decreases |cases|
  {
    if cases == [] then Zero() else Plus(Mark(cases[0]), Tally(cases[1..]))
  }

  predicate AllSound(cases: seq<Element>) {
    forall i :: 0 <= i < |cases| ==> Sound(cases[i])
  }

  function Value(c: Counts, f: Field): nat {
    match f
    case Tests => c.tests
    case Failures => c.failures
    case Errors => c.errors
    case Skips => c.skipped
  }

  /** Declared summaries, where present, are the counts. */
  predicate Declares(e: Element, c: Counts) {
    forall f :: f in e.declared ==> e.declared[f] == Some(Value(c, f))
  }

  /** Testcases directly under a testsuite, outcomes directly under a testcase, everywhere. */
  predicate Placed(e: Element)
    decreases e
  {
    forall i :: 0 <= i < |e.children| ==>
      var c := e.children[i];
      && (c.tag.TestCase? ==> e.tag.TestSuite?)
      && (Outcome(c.tag) ==> e.tag.TestCase?)
      && Placed(c)
  }

  /** The summaries of all suites of the tree agree with their testcases. */
  predicate Agrees(e: Element)
    decreases e
  {
    && (IsSuite(e.tag) ==> Declares(e, Tally(Cases(e))))
    && forall i :: 0 <= i < |e.children| ==> Agrees(e.children[i])
  }

  predicate Acceptable(root: Element) {
    && IsSuite(root.tag)
    && (root.tag.TestSuites? ==> Has(root, TestSuite))
    && Placed(root) && AllSound(Cases(root)) && Agrees(root)
  }

  function Verdict(c: Counts): Status {
    if c.failures != 0 || c.errors != 0 then Failed
    else if c.tests == 0 then NoTests
    else if c.tests == c.skipped then Skipped
    else Passed
  }

  /** `read_junit` of a report that parsed. */
  function ReadJUnit(root: Element): Evidence {
    if !Acceptable(root) then Evidence(InvalidEvidence, 0, 0, 0, 0)
    else
      var c := Tally(Cases(root));
      Evidence(Verdict(c), c.tests, c.failures, c.errors, c.skipped)
  }

  // ----- what a reading means -----

  lemma PlusLaws(a: Counts, b: Counts, c: Counts)
    ensures Plus(Plus(a, b), c) == Plus(a, Plus(b, c)) && Plus(Zero(), a) == a && Plus(a, Zero()) == a
  {
  }

  lemma {:induction false} TallyAppend(a: seq<Element>, b: seq<Element>)
    ensures Tally(a + b) == Plus(Tally(a), Tally(b))
    decreases |a|
  {
    hide Mark, Plus;
    PlusLaws(Tally(b), Zero(), Zero());
    if a == [] {
      assert a + b == b;
    } else {
      var whole := a + b;
      assert whole[0] == a[0] && whole[1..] == a[1..] + b;
      TallyAppend(a[1..], b);
      PlusLaws(Mark(a[0]), Tally(a[1..]), Tally(b));
    }
  }

  predicate Passes(c: Element) { !Has(c, Failure) && !Has(c, Error) && !Has(c, Skip) }

  predicate Fails(c: Element) { Has(c, Failure) || Has(c, Error) }

  lemma MarkMeaning(c: Element)
    requires Sound(c)
    ensures var m := Mark(c);
            && m.tests == 1 && m.failures + m.errors == One(Fails(c))
            && m.failures + m.errors + m.skipped == 1 - One(Passes(c))
  {
    hide Has;
  }

  predicate SomeFails(cases: seq<Element>) { exists i :: 0 <= i < |cases| && Fails(cases[i]) }

  predicate SomePasses(cases: seq<Element>) { exists i :: 0 <= i < |cases| && Passes(cases[i]) }

  lemma FirstOrRest(cases: seq<Element>)
    requires cases != []
    ensures SomeFails(cases) <==> Fails(cases[0]) || SomeFails(cases[1..])
    ensures SomePasses(cases) <==> Passes(cases[0]) || SomePasses(cases[1..])
  {
    hide Fails, Passes;
    var rest := cases[1..];
    assert forall i :: 0 <= i < |rest| ==> rest[i] == cases[i + 1];
    assert forall i :: 0 < i < |cases| ==> cases[i] == rest[i - 1];
  }

  lemma {:induction false} TallyMeaning(cases: seq<Element>)
    requires AllSound(cases)
    ensures var t := Tally(cases);
            && t.tests == |cases| && t.failures + t.errors + t.skipped <= t.tests
            && (t.failures + t.errors > 0 <==> SomeFails(cases))
            && (t.failures + t.errors + t.skipped < t.tests <==> SomePasses(cases))
    decreases |cases|
  {
    hide Has, Sound, Mark, Fails, Passes;
    if cases != [] {
      assert forall i :: 0 <= i < |cases[1..]| ==> cases[1..][i] == cases[i + 1];
      TallyMeaning(cases[1..]);
      MarkMeaning(cases[0]);
      FirstOrRest(cases);
    }
  }

  /** A report reads as passed exactly when it is acceptable, a testcase passed and none failed or errored. */
  lemma PassedMeans(root: Element)
    ensures ReadJUnit(root).status == Passed <==>
              Acceptable(root) && SomePasses(Cases(root)) && !SomeFails(Cases(root))
  {
    hide Acceptable, AllSound, SomePasses, SomeFails, Tally, Cases;
    if Acceptable(root) {
      AcceptedIsSound(root);
      TallyMeaning(Cases(root));
    }
  }

  /** Every testcase has been skipped. */
  predicate AllSkipped(cases: seq<Element>) {
    forall i :: 0 <= i < |cases| ==> Has(cases[i], Skip)
  }

  lemma SoundSkips(cases: seq<Element>)
    requires AllSound(cases)
    ensures !SomeFails(cases) && !SomePasses(cases) ==> AllSkipped(cases)
    ensures AllSkipped(cases) ==> !SomePasses(cases) && !SomeFails(cases)
  {
    hide Has;
    if !SomeFails(cases) && !SomePasses(cases) {
      assert forall i :: 0 <= i < |cases| ==> !Fails(cases[i]) && !Passes(cases[i]);
    }
    forall i | 0 <= i < |cases| && Has(cases[i], Skip) ensures !Passes(cases[i]) && !Fails(cases[i]) {
      assert Sound(cases[i]);
    }
  }

  /** Every other reading says exactly why the report did not pass. */
  lemma OtherReadingsMean(root: Element)
    ensures var status := ReadJUnit(root).status;
            && (status == InvalidEvidence <==> !Acceptable(root))
            && (status == Failed <==> Acceptable(root) && SomeFails(Cases(root)))
            && (status == NoTests <==> Acceptable(root) && Cases(root) == [])
            && (status == Skipped <==> Acceptable(root) && Cases(root) != [] && AllSkipped(Cases(root)))
  {
    hide Acceptable, AllSound, SomePasses, SomeFails, AllSkipped, Tally, Cases, Has;
    if Acceptable(root) {
      AcceptedIsSound(root);
      TallyMeaning(Cases(root));
      SoundSkips(Cases(root));
      if Cases(root) == [] { NoneOfNone(Cases(root)); }
    }
  }

  lemma NoneOfNone(cases: seq<Element>)
    requires cases == []
    ensures !SomeFails(cases) && !SomePasses(cases) && AllSkipped(cases)
  {
  }

  lemma AcceptedIsSound(root: Element)
    requires Acceptable(root)
    ensures AllSound(Cases(root))
  {
  }

  /** The gate's own condition on test evidence holds of every passed reading. */
  lemma PassedReadingsSatisfyTheGate(root: Element)
    ensures TestsPassed(Some(ReadJUnit(root))) <==> ReadJUnit(root).status == Passed
  {
    hide Acceptable, AllSound, SomePasses, SomeFails, Tally, Cases;
    if Acceptable(root) {
      AcceptedIsSound(root);
      TallyMeaning(Cases(root));
    }
  }

  /** What is read is one of the reports an execution can leave. */
  lemma ReadingsAreReports(root: Element)
    ensures Outside.Readable(ReadJUnit(root))
  {
    PassedReadingsSatisfyTheGate(root);
  }

  // ----- what is acceptable -----

  /** The element is in the tree, at any depth. */
  ghost predicate InTree(x: Element, e: Element)
    decreases e
  {
    x == e || exists i :: 0 <= i < |e.children| && InTree(x, e.children[i])
  }

  /** Testcases are in a testsuite, and outcomes in a testcase. */
  predicate WellPlaced(x: Element) {
    forall i :: 0 <= i < |x.children| ==>
      && (x.children[i].tag == TestCase ==> x.tag == TestSuite)
      && (x.children[i].tag in {Failure, Error, Skip} ==> x.tag == TestCase)
  }

  function Marked(cases: seq<Element>, tag: Tag): set<nat> {
    set i: nat | i < |cases| && Has(cases[i], tag)
  }

  /** A suite's summary, where it has one, is the number of testcases in it, or of those with this outcome. */
  predicate Summarizes(x: Element) {
    && (Tests in x.declared ==> x.declared[Tests] == Some(|Cases(x)|))
    && (Failures in x.declared ==> x.declared[Failures] == Some(|Marked(Cases(x), Failure)|))
    && (Errors in x.declared ==> x.declared[Errors] == Some(|Marked(Cases(x), Error)|))
    && (Skips in x.declared ==> x.declared[Skips] == Some(|Marked(Cases(x), Skip)|))
  }

  lemma {:induction false} TallyCounts(cases: seq<Element>)
    ensures Tally(cases)
        == Counts(|cases|, |Marked(cases, Failure)|, |Marked(cases, Error)|, |Marked(cases, Skip)|)
    decreases |cases|
  {
    hide Has, Marked;
    if cases == [] {
      NoMarks();
    } else {
      TallyCounts(cases[1..]);
      MarkedNext(cases, Failure);
      MarkedNext(cases, Error);
      MarkedNext(cases, Skip);
    }
  }

  lemma NoMarks()
    ensures forall tag :: Marked([], tag) == {}
  {
  }

  lemma MarkedNext(cases: seq<Element>, tag: Tag)
    requires cases != []
    ensures |Marked(cases, tag)| == One(Has(cases[0], tag)) + |Marked(cases[1..], tag)|
  {
    hide Has, Marked;
    var rest := Marked(cases[1..], tag);
    var moved := set i | i in rest :: i + 1;
    Shifted(rest, moved);
    forall k: nat ensures k in Marked(cases, tag) <==> (k == 0 && Has(cases[0], tag)) || k in moved {
      MarkedAt(cases, tag, k);
      if k > 0 && k - 1 in rest { assert (k - 1) + 1 in moved; }
    }
    assert Marked(cases, tag) == (if Has(cases[0], tag) then {0} else {}) + moved;
  }

  lemma MarkedAt(cases: seq<Element>, tag: Tag, k: nat)
    requires cases != []
    ensures k in Marked(cases, tag) <==> if k == 0 then Has(cases[0], tag) else k - 1 in Marked(cases[1..], tag)
  {
    hide Has;
    assert 0 < k < |cases| ==> cases[k] == cases[1..][k - 1];
  }

  lemma {:induction false} Shifted(a: set<nat>, b: set<nat>)
    requires b == set i | i in a :: i + 1
    ensures |a| == |b| && 0 !in b
    decreases |a|
  {
    if a != {} {
      var x :| x in a;
      var c := a - {x};
      var d := set i | i in c :: i + 1;
      Shifted(c, d);
      forall k: nat ensures k in b <==> k in d + {x + 1} {
        if k in b {
          var i :| i in a && i + 1 == k;
          assert i == x || i in c;
        }
      }
      assert b == d + {x + 1};
    }
  }

  lemma SummarizesIs(x: Element)
    ensures Summarizes(x) <==> Declares(x, Tally(Cases(x)))
  {
    hide Cases, Marked, Tally;
    TallyCounts(Cases(x));
  }

  lemma {:induction false} PlacedMeans(e: Element)
    ensures Placed(e) <==> forall x :: InTree(x, e) ==> WellPlaced(x)
    decreases e
  {
    hide WellPlaced;
    PlacedHere(e);
    forall i | 0 <= i < |e.children|
      ensures Placed(e.children[i]) <==> forall x :: InTree(x, e.children[i]) ==> WellPlaced(x)
    {
      PlacedMeans(e.children[i]);
    }
    if forall x :: InTree(x, e) ==> WellPlaced(x) {
      assert InTree(e, e);
      forall i | 0 <= i < |e.children| ensures Placed(e.children[i]) {
        assert forall x :: InTree(x, e.children[i]) ==> InTree(x, e);
      }
    }
  }

  lemma PlacedHere(e: Element)
    ensures Placed(e) <==> WellPlaced(e) && forall i :: 0 <= i < |e.children| ==> Placed(e.children[i])
  {
  }

  lemma {:induction false} AgreesMeans(e: Element)
    ensures Agrees(e) <==> forall x :: InTree(x, e) && x.tag in {TestSuite, TestSuites} ==> Summarizes(x)
    decreases e
  {
    hide Summarizes, Declares, Tally, Cases;
    SummarizesIs(e);
    forall i | 0 <= i < |e.children|
      ensures Agrees(e.children[i]) <==>
                forall x :: InTree(x, e.children[i]) && x.tag in {TestSuite, TestSuites} ==> Summarizes(x)
    {
      AgreesMeans(e.children[i]);
    }
    if forall x :: InTree(x, e) && x.tag in {TestSuite, TestSuites} ==> Summarizes(x) {
      assert InTree(e, e);
      forall i | 0 <= i < |e.children| ensures Agrees(e.children[i]) {
        assert forall x :: InTree(x, e.children[i]) ==> InTree(x, e);
      }
    }
  }

  lemma {:induction false} CasesAre(e: Element, c: Element)
    ensures c in Cases(e) <==> InTree(c, e) && c.tag.TestCase?
    decreases e, 1
  {
    CasesInAre(e.children, c);
  }

  lemma {:induction false} CasesInAre(es: seq<Element>, c: Element)
    ensures c in CasesIn(es) <==> c.tag.TestCase? && exists i :: 0 <= i < |es| && InTree(c, es[i])
    decreases es, 0
  {
    hide Cases, InTree;
    if es != [] {
      CasesAre(es[0], c);
      CasesInAre(es[1..], c);
      if i :| 0 <= i < |es| && InTree(c, es[i]) {
        assert i > 0 ==> es[1..][i - 1] == es[i];
      }
      if i :| 0 <= i < |es[1..]| && InTree(c, es[1..][i]) {
        assert es[i + 1] == es[1..][i];
      }
    }
  }

  /** Named, with at most one kind of outcome. */
  predicate Single(c: Element) {
    && c.name != ""
    && !(Has(c, Failure) && Has(c, Error)) && !(Has(c, Failure) && Has(c, Skip)) && !(Has(c, Error) && Has(c, Skip))
  }

  lemma SoundMeans(root: Element)
    ensures AllSound(Cases(root)) <==> forall x :: InTree(x, root) && x.tag == TestCase ==> Single(x)
  {
    hide Has, Cases, InTree;
    var cases := Cases(root);
    forall c ensures c in cases <==> InTree(c, root) && c.tag.TestCase? { CasesAre(root, c); }
    assert forall i :: 0 <= i < |cases| ==> cases[i] in cases;
    if AllSound(cases) {
      forall x | InTree(x, root) && x.tag == TestCase ensures Single(x) {
        var i :| 0 <= i < |cases| && cases[i] == x;
      }
    }
  }

  /**
   A report is acceptable exactly if its root is a suite, or a list of suites that has one, and everywhere in the
   tree testcases are in testsuites and outcomes in testcases, every testcase is named and has one kind of outcome
   at most, and every summary is the count of the testcases below it.
   */
  lemma AcceptableMeans(root: Element)
    ensures Acceptable(root) <==>
              && (root.tag == TestSuite
                  || (root.tag == TestSuites
                      && exists i :: 0 <= i < |root.children| && root.children[i].tag == TestSuite))
              && (forall x :: InTree(x, root) ==> WellPlaced(x))
              && (forall x :: InTree(x, root) && x.tag == TestCase ==> Single(x))
              && (forall x :: InTree(x, root) && x.tag in {TestSuite, TestSuites} ==> Summarizes(x))
  {
    hide Placed, Agrees, AllSound, InTree, WellPlaced, Single, Summarizes, Cases;
    PlacedMeans(root);
    AgreesMeans(root);
    SoundMeans(root);
  }

  // ----- nested suites -----

  function DirectCases(es: seq<Element>): seq<Element>
    decreases |es|
  {
    if es == [] then [] else (if es[0].tag.TestCase? then [es[0]] else []) + DirectCases(es[1..])
  }

  /** Every suite's own testcases, each suite of the tree once. */
  function BySuite(e: Element): Counts
    decreases e
  {
    Plus(if e.tag.TestSuite? then Tally(DirectCases(e.children)) else Zero(), BySuiteIn(e.children))
  }

  function BySuiteIn(es: seq<Element>): Counts
    decreases es
  {
    if es == [] then Zero() else Plus(BySuite(es[0]), BySuiteIn(es[1..]))
  }

  predicate PlacedIn(es: seq<Element>, parent: Tag) {
    forall i :: 0 <= i < |es| ==>
      && (es[i].tag.TestCase? ==> parent.TestSuite?)
      && (Outcome(es[i].tag) ==> parent.TestCase?)
      && Placed(es[i])
  }

  function Own(e: Element): seq<Element> {
    if e.tag.TestCase? then [e] else []
  }

  /** The total is the sum of the suites' own testcases: no nesting makes a testcase count twice. */
  lemma NestedSuitesCountOnce(root: Element)
    requires Acceptable(root)
    ensures Tally(Cases(root)) == BySuite(root)
  {
    NestedCounts(root);
    assert Own(root) == [];
  }

  lemma {:induction false} NestedCounts(e: Element)
    requires Placed(e)
    ensures Tally(Cases(e)) == Plus(Tally(Own(e)), BySuite(e))
    decreases e
  {
    hide Mark, Placed, PlacedIn;
    PlacedChildren(e);
    NestedIn(e.children, e.tag);
    TallyAppend(Own(e), CasesIn(e.children));
    assert Cases(e) == Own(e) + CasesIn(e.children);
  }

  lemma PlacedChildren(e: Element)
    requires Placed(e)
    ensures PlacedIn(e.children, e.tag)
  {
  }

  lemma {:induction false} NestedIn(es: seq<Element>, parent: Tag)
    requires PlacedIn(es, parent)
    ensures Tally(CasesIn(es)) == Plus(if parent.TestSuite? then Tally(DirectCases(es)) else Zero(), BySuiteIn(es))
    decreases es
  {
    hide Mark, Placed, PlacedIn, Cases, BySuite, Plus, Tally;
    if es == [] {
      NothingTallied(CasesIn(es));
      NothingTallied(DirectCases(es));
      ZeroAdds(Zero());
    } else {
      var first, rest := es[0], es[1..];
      FirstPlaced(es, parent);
      NestedCounts(first);
      NestedIn(rest, parent);
      TallyAppend(Cases(first), CasesIn(rest));
      TallyAppend(Own(first), DirectCases(rest));
      assert CasesIn(es) == Cases(first) + CasesIn(rest);
      assert DirectCases(es) == Own(first) + DirectCases(rest);
      if !first.tag.TestCase? { NothingTallied(Own(first)); }
      Regroup(Tally(Own(first)), BySuite(first), Tally(DirectCases(rest)), BySuiteIn(rest));
    }
  }

  lemma NothingTallied(es: seq<Element>)
    requires es == []
    ensures Tally(es) == Zero()
  {
    assert |es| == 0;
  }

  lemma ZeroAdds(c: Counts)
    ensures Plus(Zero(), c) == c
  {
  }

  lemma Regroup(a: Counts, b: Counts, c: Counts, d: Counts)
    ensures Plus(Plus(a, b), Plus(c, d)) == Plus(Plus(a, c), Plus(b, d))
    ensures Plus(Plus(Zero(), b), Plus(Zero(), d)) == Plus(Zero(), Plus(b, d))
  {
  }

  lemma FirstPlaced(es: seq<Element>, parent: Tag)
    requires es != [] && PlacedIn(es, parent)
    ensures Placed(es[0]) && PlacedIn(es[1..], parent) && (es[0].tag.TestCase? ==> parent.TestSuite?)
  {
  }

  // ----- the unittest writer -----

  datatype CaseOutcome = CasePassed | CaseFailed | CaseErrored | CaseSkipped

  datatype UnitCase = UnitCase(name: string, outcome: CaseOutcome)

  function OutcomeTag(o: CaseOutcome): Tag
    requires !o.CasePassed?
  {
    match o
    case CaseFailed => Failure
    case CaseErrored => Error
    case CaseSkipped => Skip
  }

  function Leaf(tag: Tag): Element { Element(tag, "", map[], []) }

  function CaseNode(c: UnitCase): Element {
    Element(TestCase, c.name, map[], if c.outcome.CasePassed? then [] else [Leaf(OutcomeTag(c.outcome))])
  }

  function CaseNodes(cases: seq<UnitCase>): (r: seq<Element>)
    ensures |r| == |cases| && forall i :: 0 <= i < |cases| ==> r[i] == CaseNode(cases[i])
  {
    seq(|cases|, i requires 0 <= i < |cases| => CaseNode(cases[i]))
  }

  function CountOf(cases: seq<UnitCase>, o: CaseOutcome): nat
    decreases |cases|
  {
    if cases == [] then 0 else One(cases[0].outcome == o) + CountOf(cases[1..], o)
  }

  function Declared(tests: nat, failures: nat, errors: nat, skipped: nat): map<Field, Option<int>> {
    map[Tests := Some(tests), Failures := Some(failures), Errors := Some(errors), Skips := Some(skipped)]
  }

  function UnitTree(cases: seq<UnitCase>): Element {
    Element(TestSuite, "unittest",
            Declared(|cases|, CountOf(cases, CaseFailed), CountOf(cases, CaseErrored), CountOf(cases, CaseSkipped)),
            CaseNodes(cases))
  }

  /** `_write_unittest_junit`: the summary first, then a node per case. */
  method WriteUnittest(cases: seq<UnitCase>) returns (suite: Element)
    ensures suite == UnitTree(cases)
  {
    hide CountOf;
    var failures, errors := CountOf(cases, CaseFailed), CountOf(cases, CaseErrored);
    suite := Element(TestSuite, "unittest", Declared(|cases|, failures, errors, CountOf(cases, CaseSkipped)), []);
    for i := 0 to |cases|
      invariant suite == UnitTree(cases).(children := CaseNodes(cases)[..i])
    {
      var node := Element(TestCase, cases[i].name, map[], []);
      if !cases[i].outcome.CasePassed? {
        node := node.(children := [Leaf(OutcomeTag(cases[i].outcome))]);
      }
      suite := suite.(children := suite.children + [node]);
    }
  }

  /** The exit code of `unittest_junit`. */
  function UnitExit(cases: seq<UnitCase>): int {
    if cases != [] && forall i :: 0 <= i < |cases| ==> !cases[i].outcome.CaseFailed? && !cases[i].outcome.CaseErrored?
    then 0 else 1
  }

  lemma CaseNodeFacts(c: UnitCase)
    ensures var e := CaseNode(c);
            && Cases(e) == [e] && Placed(e) && Agrees(e)
            && (Sound(e) <==> c.name != "")
            && (Has(e, Failure) <==> c.outcome.CaseFailed?) && (Has(e, Error) <==> c.outcome.CaseErrored?)
            && (Has(e, Skip) <==> c.outcome.CaseSkipped?)
            && (Passes(e) <==> c.outcome.CasePassed?)
  {
    var e := CaseNode(c);
    if !c.outcome.CasePassed? {
      var leaf := Leaf(OutcomeTag(c.outcome));
      assert e.children == [leaf] && e.children[0] == leaf;
      assert Cases(leaf) == [] && Placed(leaf) && Agrees(leaf);
      assert CasesIn([leaf]) == Cases(leaf) + CasesIn([leaf][1..]);
    }
  }

  lemma {:induction false} NodesAreCases(cases: seq<UnitCase>)
    ensures CasesIn(CaseNodes(cases)) == CaseNodes(cases)
    ensures Tally(CaseNodes(cases))
            == Counts(|cases|, CountOf(cases, CaseFailed), CountOf(cases, CaseErrored), CountOf(cases, CaseSkipped))
    decreases |cases|
  {
    hide Has, Cases, CaseNode, Mark, CountOf;
    NoCount();
    if cases != [] {
      var nodes, rest := CaseNodes(cases), CaseNodes(cases[1..]);
      NodesAreCases(cases[1..]);
      assert nodes[0] == CaseNode(cases[0]) && nodes[1..] == rest;
      CaseNodeFacts(cases[0]);
      NextCount(cases);
      MarkOf(cases[0]);
      assert nodes == [nodes[0]] + rest;
    }
  }

  lemma NoCount()
    ensures forall o :: CountOf([], o) == 0
  {
  }

  lemma NextCount(cases: seq<UnitCase>)
    requires cases != []
    ensures forall o :: CountOf(cases, o) == One(cases[0].outcome == o) + CountOf(cases[1..], o)
  {
  }

  lemma MarkOf(c: UnitCase)
    ensures Mark(CaseNode(c))
            == Counts(1, One(c.outcome.CaseFailed?), One(c.outcome.CaseErrored?), One(c.outcome.CaseSkipped?))
  {
    CaseNodeFacts(c);
  }

  /** The reader accepts what the writer wrote exactly when every case has a name. */
  lemma WrittenIsAcceptableIff(cases: seq<UnitCase>)
    ensures Cases(UnitTree(cases)) == CaseNodes(cases)
    ensures Acceptable(UnitTree(cases)) <==> forall i :: 0 <= i < |cases| ==> cases[i].name != ""
  {
    hide Has, Sound, CaseNode, Placed, Agrees, Tally, Cases, CountOf;
    var tree, nodes := UnitTree(cases), CaseNodes(cases);
    NodesAreCases(cases);
    SuiteCases(tree);
    forall i | 0 <= i < |cases|
      ensures Placed(nodes[i]) && Agrees(nodes[i]) && nodes[i].tag.TestCase?
          && (Sound(nodes[i]) <==> cases[i].name != "")
    {
      CaseNodeFacts(cases[i]);
      NodeTag(cases[i]);
    }
    FlatSuite(tree);
    if AllSound(nodes) {
      assert forall i :: 0 <= i < |cases| ==> Sound(nodes[i]);
    }
  }

  lemma SuiteCases(e: Element)
    requires !e.tag.TestCase?
    ensures Cases(e) == CasesIn(e.children)
  {
  }

  /** A suite of testcases that declares their tally is well placed and agrees. */
  lemma FlatSuite(e: Element)
    requires e.tag.TestSuite? && Declares(e, Tally(Cases(e)))
    requires forall i :: 0 <= i < |e.children| ==>
               Placed(e.children[i]) && Agrees(e.children[i]) && e.children[i].tag.TestCase?
    ensures Placed(e) && Agrees(e)
  {
    hide Tally, Cases;
  }

  lemma NodeTag(c: UnitCase)
    ensures CaseNode(c).tag.TestCase?
  {
  }

  /** Writer and reader agree on the counts and on passing; exit 0 is passed, or everything skipped. */
  lemma {:induction false} UnittestReportsAgree(cases: seq<UnitCase>)
    requires forall i :: 0 <= i < |cases| ==> cases[i].name != ""
    ensures var e := ReadJUnit(UnitTree(cases));
            && e.tests == |cases| && e.failures == CountOf(cases, CaseFailed)
            && e.errors == CountOf(cases, CaseErrored) && e.skipped == CountOf(cases, CaseSkipped)
            && (e.status == Passed <==>
                  && (exists i :: 0 <= i < |cases| && cases[i].outcome.CasePassed?)
                  && forall i :: 0 <= i < |cases| ==> !cases[i].outcome.CaseFailed? && !cases[i].outcome.CaseErrored?)
            && (UnitExit(cases) == 0 <==> e.status == Passed || e.status == Skipped)
  {
    hide Has, Sound, CaseNode, Acceptable, Tally, Cases, SomeFails, SomePasses;
    var tree, nodes := UnitTree(cases), CaseNodes(cases);
    WrittenIsAcceptableIff(cases);
    NodesAreCases(cases);
    forall i | 0 <= i < |cases|
      ensures Passes(nodes[i]) <==> cases[i].outcome.CasePassed?
      ensures Fails(nodes[i]) <==> cases[i].outcome.CaseFailed? || cases[i].outcome.CaseErrored?
      ensures Sound(nodes[i])
    {
      CaseNodeFacts(cases[i]);
    }
    PassedMeans(tree);
    TallyMeaning(nodes);
    FailedCounts(cases, nodes);
  }

  lemma FailedCounts(cases: seq<UnitCase>, nodes: seq<Element>)
    requires |nodes| == |cases|
    requires forall i :: 0 <= i < |cases| ==>
        (Fails(nodes[i]) <==> cases[i].outcome.CaseFailed? || cases[i].outcome.CaseErrored?)
    requires forall i :: 0 <= i < |cases| ==> (Passes(nodes[i]) <==> cases[i].outcome.CasePassed?)
    ensures SomeFails(nodes) <==> !forall i :: 0 <= i < |cases| ==>
        !cases[i].outcome.CaseFailed? && !cases[i].outcome.CaseErrored?
    ensures SomePasses(nodes) <==> exists i :: 0 <= i < |cases| && cases[i].outcome.CasePassed?
  {
    hide Fails, Passes;
    if i :| 0 <= i < |cases| && (cases[i].outcome.CaseFailed? || cases[i].outcome.CaseErrored?) {
      assert Fails(nodes[i]);
    }
    if i :| 0 <= i < |cases| && cases[i].outcome.CasePassed? {
      assert Passes(nodes[i]);
    }
  }

  // ----- the scanner writer -----

  /** What a scanner error says: wherever one is raised it is given a text. */
  type Message = m: string | m != "" witness "scan root is unavailable"

  /** A scan that completed, with so many findings, or stopped with an error message. */
  datatype Scan = Findings(count: nat) | Stopped(message: Message)

  /** The exit code of the scanner's `main`. */
  function ScanExit(s: Scan): int {
    match s
    case Findings(count) => if count == 0 then 0 else 1
    case Stopped(_) => 2
  }

  function FindingNode(): Element { Element(TestCase, "finding", map[], [Leaf(Failure)]) }

  /** `_junit(report, scanner, findings, error)`, where no text is no error. */
  function ScanTree(count: nat, error: string): Element {
    Element(TestSuite, "security", Declared(if count == 0 then 1 else count, count, One(error != ""), 0),
            if error != "" then [Element(TestCase, "scan", map[], [Leaf(Error)])]
            else if count == 0 then [Element(TestCase, "scan", map[], [])]
            else seq(count, i => FindingNode()))
  }

  function ScanReport(s: Scan): Element {
    match s
    case Findings(count) => ScanTree(count, "")
    case Stopped(message) => ScanTree(0, message)
  }

  /** The report of a scan is that of unittest cases: one per finding, or a single one. */
  function ScanCases(s: Scan): seq<UnitCase> {
    match s
    case Findings(count) =>
      if count == 0 then [UnitCase("scan", CasePassed)] else seq(count, i => UnitCase("finding", CaseFailed))
    case Stopped(_) => [UnitCase("scan", CaseErrored)]
  }

  lemma {:induction false} UniformCount(n: nat, c: UnitCase, o: CaseOutcome)
    ensures CountOf(seq(n, i => c), o) == if c.outcome == o then n else 0
    decreases n
  {
    if n > 0 {
      assert seq(n, i => c)[1..] == seq(n - 1, i => c);
      UniformCount(n - 1, c, o);
    }
  }

  lemma ScanIsUnit(s: Scan)
    ensures ScanReport(s).children == UnitTree(ScanCases(s)).children
    ensures ScanReport(s).declared == UnitTree(ScanCases(s)).declared
  {
    var cases := ScanCases(s);
    match s
    case Findings(count) =>
      if count == 0 {
        SingleCounts(cases[0]);
      } else {
        var c := UnitCase("finding", CaseFailed);
        assert cases == seq(count, i => c);
        UniformCount(count, c, CaseFailed);
        UniformCount(count, c, CaseErrored);
        UniformCount(count, c, CaseSkipped);
        assert CaseNodes(cases) == ScanReport(s).children;
      }
    case Stopped(message) =>
      SingleCounts(cases[0]);
      assert CaseNodes(cases) == ScanReport(s).children;
  }

  lemma SingleCounts(c: UnitCase)
    ensures forall o :: CountOf([c], o) == One(c.outcome == o)
  {
    assert [c][1..] == [];
    forall o
      ensures CountOf([c], o) == One(c.outcome == o)
    {
      assert CountOf([c], o) == One([c][0].outcome == o) + CountOf([c][1..], o);
    }
  }

  lemma SameReading(a: Element, b: Element)
    requires a.tag == b.tag && a.declared == b.declared && a.children == b.children
    ensures ReadJUnit(a) == ReadJUnit(b)
  {
    assert Cases(a) == Cases(b) || a.tag.TestCase?;
    assert forall tag :: Has(a, tag) == Has(b, tag);
    assert Placed(a) == Placed(b);
    assert a.tag.TestCase? || Agrees(a) == Agrees(b);
  }

  /** Exit 0 is read as passed, exit 1 as failed with one failure per finding, and exit 2 as failed by one error. */
  lemma ScanReportsAgree(s: Scan)
    ensures ScanExit(s) == 0 ==> ReadJUnit(ScanReport(s)).status == Passed
    ensures ScanExit(s) == 1 ==>
        ReadJUnit(ScanReport(s)).status == Failed && ReadJUnit(ScanReport(s)).failures == s.count
    ensures ScanExit(s) == 2 ==> ReadJUnit(ScanReport(s)).status == Failed && ReadJUnit(ScanReport(s)).errors == 1
    ensures ReadJUnit(ScanReport(s)).status == Passed || ReadJUnit(ScanReport(s)).status == Failed
  {
    hide ReadJUnit, ScanReport, UnitTree;
    var cases := ScanCases(s);
    assert forall i :: 0 <= i < |cases| ==> cases[i].name != "";
    ScanIsUnit(s);
    ScanTags(s);
    SameReading(ScanReport(s), UnitTree(cases));
    UnittestReportsAgree(cases);
    FailedVerdict(UnitTree(cases));
    assert cases[0] in cases;
    if s.Findings? && s.count > 0 {
      UniformCount(s.count, UnitCase("finding", CaseFailed), CaseFailed);
      assert cases == seq(s.count, i => UnitCase("finding", CaseFailed));
    } else {
      SingleCounts(cases[0]);
      assert cases == [cases[0]];
    }
  }

  lemma ScanTags(s: Scan)
    ensures ScanReport(s).tag == UnitTree(ScanCases(s)).tag
  {
  }

  lemma FailedVerdict(e: Element)
    ensures ReadJUnit(e).failures + ReadJUnit(e).errors > 0 ==> ReadJUnit(e).status == Failed
  {
  }
}
