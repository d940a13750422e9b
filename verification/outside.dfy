/**
 Everything a run does not decide: when a request to cancel appears, which evidence writes succeed, how
 started programs end, and what the clock says.
 */
module Outside {
  import opened Wrappers
  import opened EvidenceGate

  /** What the runner stops a program for. */
  type Stop = s: Status | s.Cancelled? || s.TimedOut? || s.Errored? witness Errored

  /** How a started program ends: by itself, stopped by the runner, interrupted, or in a way nobody can read. */
  datatype Body = Exited(code: int) | StoppedAs(status: Stop) | Interrupted | Broken

  /** What a report can be read as. */
  type Report = e: Evidence | Readable(e) witness Evidence(MissingEvidence, 0, 0, 0, 0)

  predicate Readable(e: Evidence) {
    var s := e.status;
    && (s.Passed? || s.Failed? || s.MissingEvidence? || s.InvalidEvidence? || s.NoTests? || s.Skipped?)
    && (s.Passed? ==> TestsPassed(Some(e)))
  }

  /**
   A program is started and leaves a report, which can be collected safely or not, cannot be started, or the
   attempt raises.
   */
  datatype Ran = Ran(body: Body, report: Report, safe: bool) | Refused(evidence: Option<Report>) | Threw

  datatype Purpose = ToPrepare | ToProbe | ToCheck | ToCleanUp

  /** The evidence folder of one execution: `cleanup-000-id` and so on. */
  datatype Folder = Folder(purpose: Purpose, index: nat, id: string)

  /** Two readings of a clock are this far apart. */
  ghost predicate Elapsed(shown: seq<real>, seconds: real) {
    exists i, j :: 0 <= i < j < |shown| && shown[j] >= shown[i] + seconds
  }

  lemma ElapsedStays(shown: seq<real>, more: seq<real>, seconds: real)
    requires Elapsed(shown, seconds) && shown <= more
    ensures Elapsed(more, seconds)
  {
    var i, j :| 0 <= i < j < |shown| && shown[j] >= shown[i] + seconds;
    assert more[i] == shown[i] && more[j] == shown[j];
  }

  /** The deadline is this far from a moment that the clock has shown. */
  ghost predicate Began(shown: seq<real>, seconds: real, deadline: real) {
    exists i :: 0 <= i < |shown| && deadline == shown[i] + seconds
  }

  lemma BeganNow(shown: seq<real>, seconds: real)
    requires shown != []
    ensures Began(shown, seconds, shown[|shown| - 1] + seconds)
  {
  }

  lemma BeganStays(shown: seq<real>, more: seq<real>, seconds: real, deadline: real)
    requires Began(shown, seconds, deadline) && shown <= more
    ensures Began(more, seconds, deadline)
  {
    var i :| 0 <= i < |shown| && deadline == shown[i] + seconds;
    assert more[i] == shown[i];
  }

  /** A reading at or after the deadline. */
  lemma TimeIsUp(shown: seq<real>, now: real, seconds: real, deadline: real)
    requires Began(shown, seconds, deadline) && now >= deadline
    ensures Elapsed(shown + [now], seconds)
  {
    var i :| 0 <= i < |shown| && deadline == shown[i] + seconds;
    assert (shown + [now])[|shown|] >= (shown + [now])[i] + seconds;
  }

  /** A file that asks for cancellation. It may appear at any time and stays. */
  class Marker {
    /** How many looks will still find nothing. */
    var quiet: nat
    /** Whether a look has found it. */
    var seen: bool

    constructor (quiet: nat)
      ensures this.quiet == quiet && !seen
    {
      this.quiet, seen := quiet, false;
    }

    predicate Due()
      reads this
    {
      seen || quiet == 0
    }

    method Exists() returns (b: bool)
      modifies this
      ensures b == old(Due()) && seen == b && (old(Due()) ==> Due())
    {
      b := seen || quiet == 0;
      if b { seen := true; } else { quiet := quiet - 1; }
    }

    /** It is found while a program runs. */
    method Notice()
      modifies this
      ensures seen
    {
      seen := true;
    }
  }

  /** What an execution is handed to learn about cancellation: an event of its own and a marker file. */
  class Signal {
    const marker: Marker
    var event: bool

    constructor (marker: Marker)
      ensures this.marker == marker && !event
    {
      this.marker, event := marker, false;
    }

    /** Whether the next look finds a request. */
    predicate Due()
      reads this, marker
    {
      event || marker.Due()
    }

    /** Whether a request has been found. */
    predicate Raised()
      reads this, marker
    {
      event || marker.seen
    }

    /** No request is ever withdrawn. */
    twostate predicate Stays()
      reads this, marker
    {
      (old(event) ==> event) && (old(marker.seen) ==> marker.seen) && (old(Due()) ==> Due())
    }

    /** `cancel.is_set() or cancel_file.exists()`. */
    method Found() returns (b: bool)
      modifies marker
      ensures b == old(Due()) == Raised() && (b ==> Due())
      ensures b || !event
      ensures Stays()
    {
      if event { return true; }
      b := marker.Exists();
    }

    /** `cancel.set()`. */
    method Set()
      modifies this
      ensures event
    {
      event := true;
    }
  }

  class World {
    var writes: seq<bool>
    var runs: seq<Ran>
    var ticks: seq<real>
    var waits: seq<nat>

    /** How often a write failed, a program could not be started, or a Docker call did not do what it was for. */
    ghost var faults: nat

    /** How often a checkpoint could not be written, which is not counted above. */
    ghost var missed: nat

    /** What the clock has shown. */
    ghost var shown: seq<real>

    constructor (writes: seq<bool>, runs: seq<Ran>, ticks: seq<real>, waits: seq<nat>)
      ensures this.writes == writes && this.runs == runs && this.ticks == ticks && this.waits == waits
      ensures faults == 0 && missed == 0 && shown == []
    {
      this.writes, this.runs, this.ticks, this.waits := writes, runs, ticks, waits;
      faults, missed, shown := 0, 0, [];
    }

    method Write() returns (ok: bool)
      modifies this`writes, this`faults
      ensures ok == (old(writes) != [] && old(writes)[0])
      ensures writes == if old(writes) == [] then [] else old(writes)[1..]
      ensures faults == old(faults) + if ok then 0 else 1
    {
      ok := writes != [] && writes[0];
      if writes != [] { writes := writes[1..]; }
      if !ok { faults := faults + 1; }
    }

    /** A write that only records how far the run has come. */
    method Checkpoint() returns (ok: bool)
      modifies this`writes, this`missed
      ensures ok == (old(writes) != [] && old(writes)[0])
      ensures writes == if old(writes) == [] then [] else old(writes)[1..]
      ensures missed == old(missed) + if ok then 0 else 1
    {
      ok := writes != [] && writes[0];
      if writes != [] { writes := writes[1..]; }
      if !ok { missed := missed + 1; }
    }

    /** The next program, and whether there was one. */
    method NextRun() returns (r: Ran, ghost taken: Option<Ran>)
      modifies this`runs, this`faults
      ensures if taken.Some? then old(runs) == [taken.value] + runs && r == taken.value
              else old(runs) == runs == [] && r.Threw?
      ensures faults == old(faults) + if r.Ran? then 0 else 1
    {
      r, taken := Threw, None;
      if runs != [] { r, taken, runs := runs[0], Some(runs[0]), runs[1..]; }
      if !r.Ran? { faults := faults + 1; }
    }

    method Now() returns (t: real)
      modifies this`ticks, this`shown
      ensures t == (if old(ticks) == [] then 0.0 else old(ticks)[0]) && shown == old(shown) + [t]
    {
      t := 0.0;
      if ticks != [] { t, ticks := ticks[0], ticks[1..]; }
      shown := shown + [t];
    }

    /** How often cancellation is looked for during the next delay. */
    method NextWait() returns (n: nat)
      modifies this`waits
    {
      if waits == [] { return 0; }
      n := waits[0];
      waits := waits[1..];
    }
  }
}
