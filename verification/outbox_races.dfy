/**
 Concrete runs of the outbox that show which premises its guarantees need.
 */
module OutboxRaces {
  import opened Wrappers
  import opened Outbox

  lemma {:induction false} RunThrough(steps: seq<Step>, states: seq<System>, notice: string)
    requires |states| == |steps| + 1
    requires forall i :: 0 <= i < |steps| ==> Next(states[i], steps[i], notice) == states[i + 1]
    ensures Run(states[0], steps, notice) == states[|steps|]
    ensures (forall i :: 0 <= i < |steps| ==> Timely(states[i], steps[i])) ==> WellTimed(states[0], steps, notice)
    decreases |steps|
  {
    hide Next, Timely;
    if steps != [] {
      RunThrough(steps[1..], states[1..], notice);
    }
  }

  const ROW_A := Row("t", "A", None, Pending, None, 0, 0.0, 0.0)
  const SENT_A := Row("t", "A", Some("A"), Posted, Some(7), 0, 18.0, 0.0)
  const NEW_B := Row("t", "B", Some("A"), Pending, Some(7), 0, 18.0, 0.0)
  const LOST_B := Row("t", "B", Some("A"), Retrying, Some(7), 1, 38.0, 0.0)
  const BACK_TO_A := Row("t", "A", Some("A"), Pending, Some(7), 1, 38.0, 0.0)

  function LostReply(): seq<Step> {
    [Collect("t", "A", 0.0), Take("w", 0.0), List("w", false, 1.0), Write("w", 7, true, true, 2.0), Settle("w", 3.0),
     Collect("t", "B", 20.0), Take("w", 20.0), List("w", false, 21.0), Write("w", 8, true, false, 22.0),
       Settle("w", 23.0),
     Collect("t", "A", 60.0)]
  }

  function LostReplyStates(): seq<System> {
    [START,
     System(Some(ROW_A), [], map[], 0.0),
     System(Some(Locked(ROW_A, 0.0)), [], map["w" := Taken(ROW_A, 0.0)], 0.0),
     System(Some(Locked(ROW_A, 0.0)), [], map["w" := Listed(ROW_A, 0.0, None, false)], 1.0),
     System(Some(Locked(ROW_A, 0.0)), [Comment(7, "A")], map["w" := Ended(ROW_A, 0.0, Some(Posted), Some(7))], 2.0),
     System(Some(SENT_A), [Comment(7, "A")], map[], 3.0),
     System(Some(NEW_B), [Comment(7, "A")], map[], 20.0),
     System(Some(Locked(NEW_B, 20.0)), [Comment(7, "A")], map["w" := Taken(NEW_B, 20.0)], 20.0),
     System(Some(Locked(NEW_B, 20.0)), [Comment(7, "A")],
       map["w" := Listed(NEW_B, 20.0, Some(Comment(7, "A")), false)], 21.0),
     System(Some(Locked(NEW_B, 20.0)), [Comment(7, "B")], map["w" := Ended(NEW_B, 20.0, None, Some(7))], 22.0),
     System(Some(LOST_B), [Comment(7, "B")], map[], 23.0),
     System(Some(BACK_TO_A), [Comment(7, "B")], map[], 60.0)]
  }

  /**
   A reply lost after its write took effect, then a body that returns to the last confirmed one: the
   comment shows the other body, and no later tick will ever take the row.
   */
  lemma LostReplyHidesChange(notice: string)
    ensures WellTimed(START, LostReply(), notice) && AllSteady(LostReply())
    ensures var s := Run(START, LostReply(), notice);
            && s.reporters == map[] && s.row.Some? && s.row.value.body == "A" && Shown(s, "B")
            && s.row.value.attempts == 1 && s.row.value.state.Pending?
            && forall now :: !Eligible(s.row.value, now)
  {
    hide LostReply, LostReplyStates, Next, Timely, Eligible, Shown, Steady;
    var steps, states := LostReply(), LostReplyStates();
    LostReplyEnds();
    forall i | 0 <= i < |steps|
      ensures Next(states[i], steps[i], notice) == states[i + 1] && Timely(states[i], steps[i])
    {
      LostReplyStep(i, notice);
    }
    RunThrough(steps, states, notice);
  }

  lemma LostReplyEnds()
    ensures |LostReplyStates()| == |LostReply()| + 1 && LostReplyStates()[0] == START && AllSteady(LostReply())
    ensures var s := LostReplyStates()[|LostReply()|];
            && s.reporters == map[] && s.row.Some? && s.row.value.body == "A" && Shown(s, "B")
            && s.row.value.attempts == 1 && s.row.value.state.Pending?
            && forall now :: !Eligible(s.row.value, now)
  {
  }

  lemma LostReplyStep(i: nat, notice: string)
    requires i < |LostReply()|
    ensures Next(LostReplyStates()[i], LostReply()[i], notice) == LostReplyStates()[i + 1]
    ensures Timely(LostReplyStates()[i], LostReply()[i])
  {
    if i < 5 {
      FirstReport(i, notice);
    } else {
      LostReport(i, notice);
    }
  }

  lemma FirstReport(i: nat, notice: string)
    requires i < 5
    ensures Next(LostReplyStates()[i], LostReply()[i], notice) == LostReplyStates()[i + 1]
    ensures Timely(LostReplyStates()[i], LostReply()[i])
  {
    hide Backoff;
    if i == 4 {
      assert LostReplyStates()[4].reporters - {"w"} == map[];
    }
  }

  lemma LostReport(i: nat, notice: string)
    requires 5 <= i < |LostReply()|
    ensures Next(LostReplyStates()[i], LostReply()[i], notice) == LostReplyStates()[i + 1]
    ensures Timely(LostReplyStates()[i], LostReply()[i])
  {
    hide Backoff, Patched;
    if i == 8 {
      PatchedOne(Comment(7, "A"), "B");
    } else if i == 9 {
      FirstBackoff();
      assert LostReplyStates()[9].reporters - {"w"} == map[];
    }
  }

  lemma PatchedOne(c: Comment, body: string)
    ensures Patched([c], c.id, body) == [Comment(c.id, body)]
  {
  }

  lemma FirstBackoff()
    ensures Backoff(0) == 15
  {
    assert Power(0) == 1;
  }

  function Overstay(): seq<Step> {
    [Collect("t", "A", 0.0), Take("w", 0.0), List("w", false, 1.0), Take("v", 300.0), List("v", false, 301.0),
     Write("v", 8, true, true, 302.0), Write("w", 7, true, true, 303.0)]
  }

  function OverstayStates(): seq<System> {
    [START,
     System(Some(ROW_A), [], map[], 0.0),
     System(Some(Locked(ROW_A, 0.0)), [], map["w" := Taken(ROW_A, 0.0)], 0.0),
     System(Some(Locked(ROW_A, 0.0)), [], map["w" := Listed(ROW_A, 0.0, None, false)], 1.0),
     System(Some(Locked(ROW_A, 300.0)), [],
            map["w" := Listed(ROW_A, 0.0, None, false), "v" := Taken(Locked(ROW_A, 0.0), 300.0)], 300.0),
     System(Some(Locked(ROW_A, 300.0)), [],
            map["w" := Listed(ROW_A, 0.0, None, false), "v" := Listed(Locked(ROW_A, 0.0), 300.0, None, false)], 301.0),
     System(Some(Locked(ROW_A, 300.0)), [Comment(8, "A")],
            map["w" := Listed(ROW_A, 0.0, None, false),
              "v" := Ended(Locked(ROW_A, 0.0), 300.0, Some(Posted), Some(8))], 302.0),
     System(Some(Locked(ROW_A, 300.0)), [Comment(8, "A"), Comment(7, "A")],
            map["w" := Ended(ROW_A, 0.0, Some(Posted), Some(7)),
                "v" := Ended(Locked(ROW_A, 0.0), 300.0, Some(Posted), Some(8))], 303.0)]
  }

  /** A reporter that writes after its lock ran out can create a second comment. */
  lemma OverstayingDuplicates(notice: string)
    ensures WellTimed(START, Overstay()[..6], notice) && !WellTimed(START, Overstay(), notice)
    ensures |Run(START, Overstay(), notice).remote| == 2
  {
    hide Overstay, OverstayStates, Next, Timely;
    var steps, states := Overstay(), OverstayStates();
    OverstayEnds();
    forall i | 0 <= i < |steps|
      ensures Next(states[i], steps[i], notice) == states[i + 1] && (i < 6 ==> Timely(states[i], steps[i]))
    {
      OverstayStep(i, notice);
    }
    RunThrough(steps, states, notice);
    RunThrough(steps[..6], states[..7], notice);
    LateAt(steps, states, 6, notice);
  }

  lemma OverstayEnds()
    ensures |Overstay()| == 7 && |OverstayStates()| == 8 && OverstayStates()[0] == START
    ensures |OverstayStates()[7].remote| == 2 && !Timely(OverstayStates()[6], Overstay()[6])
  {
  }

  lemma OverstayStep(i: nat, notice: string)
    requires i < |Overstay()|
    ensures Next(OverstayStates()[i], Overstay()[i], notice) == OverstayStates()[i + 1]
    ensures i < 6 ==> Timely(OverstayStates()[i], Overstay()[i])
  {
  }

  lemma {:induction false} LateAt(steps: seq<Step>, states: seq<System>, k: nat, notice: string)
    requires |states| == |steps| + 1 && k < |steps| && !Timely(states[k], steps[k])
    requires forall i :: 0 <= i < |steps| ==> Next(states[i], steps[i], notice) == states[i + 1]
    ensures !WellTimed(states[0], steps, notice)
    decreases |steps|
  {
    hide Next, Timely;
    if k > 0 {
      LateAt(steps[1..], states[1..], k - 1, notice);
    }
  }
}
