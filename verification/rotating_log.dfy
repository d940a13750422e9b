/**
 The bounded log of a deployed service: a ring of files, generation 0 the newest, written through an
 unbuffered stream that may accept any part of what it is given. Sizes are parameters here; the
 program fixes them to LOG_FILE_BYTES and LOG_FILE_COUNT.
 */
module RotatingLog {
  import opened Wrappers

  const LOG_FILE_BYTES := 5 * 1024 * 1024
  const LOG_FILE_COUNT := 3

  type Bytes = seq<bv8>
  type Files = seq<Option<Bytes>>

  function Content(file: Option<Bytes>): Bytes {
    if file.Some? then file.value else []
  }

  function Size(files: Files): nat
    requires |files| > 0
  {
    |Content(files[0])|
  }

  function Rotated(files: Files): (r: Files)
    requires |files| >= 2
    ensures |r| == |files|
  {
    [Some([])] + files[..|files| - 1]
  }

  /** The log one byte at a time. */
  function PutByte(files: Files, b: bv8, cap: nat): (r: Files)
    requires |files| >= 2
    ensures |r| == |files|
  {
    var room := if Size(files) >= cap then Rotated(files) else files;
    room[0 := Some(Content(room[0]) + [b])]
  }

  function Appended(files: Files, bytes: Bytes, cap: nat): (r: Files)
    requires |files| >= 2
    ensures |r| == |files|
    decreases |bytes|
  {
    if bytes == [] then files
    else PutByte(Appended(files, bytes[..|bytes| - 1], cap), bytes[|bytes| - 1], cap)
  }

  function Tail(bytes: Bytes, cap: nat): Bytes {
    if |bytes| > cap then bytes[|bytes| - cap..] else bytes
  }

  function Trimmed(files: Files, cap: nat): (r: Files)
    ensures |r| == |files|
    ensures forall i :: 0 <= i < |files| ==> r[i] == (if files[i].Some? then Some(Tail(files[i].value, cap)) else None)
  {
    seq(|files|, i requires 0 <= i < |files| => if files[i].Some? then Some(Tail(files[i].value, cap)) else None)
  }

  /** What opening the log leaves: oversized files cut to their tails, and room in generation 0. */
  function Opened(files: Files, cap: nat): (r: Files)
    requires |files| >= 2
    ensures |r| == |files|
  {
    var trimmed := Trimmed(files, cap);
    if Size(trimmed) >= cap then Rotated(trimmed) else trimmed[0 := Some(Content(trimmed[0]))]
  }

  /**
   The files when rotation stops after the oldest is gone and generations `hole` and above have moved up:
   `hole` runs from count - 1, nothing moved yet, down to 0, all moved and generation 0 not created.
   */
  function Interrupted(files: Files, hole: nat): (r: Files)
    requires hole < |files|
    ensures |r| == |files|
  {
    files[..hole] + [None] + files[hole..|files| - 1]
  }

  lemma HoleMoves(files: Files, hole: nat)
    requires hole + 1 < |files|
    ensures Interrupted(files, hole + 1)[hole + 1 := files[hole]][hole := None] == Interrupted(files, hole)
    ensures files[hole].None? ==> Interrupted(files, hole + 1) == Interrupted(files, hole)
    ensures Interrupted(files, hole + 1)[hole] == files[hole]
  {
  }

  lemma OldestGone(files: Files)
    requires |files| > 0
    ensures files[|files| - 1 := None] == Interrupted(files, |files| - 1)
  {
  }

  lemma AllMoved(files: Files)
    requires |files| >= 2
    ensures Interrupted(files, 0)[0 := Some([])] == Rotated(files)
  {
  }

  class Log {
    const cap: nat
    const count: nat
    var files: Files
    var open: bool
    var size: nat

    ghost predicate Valid()
      reads this
    {
      cap >= 1 && count >= 2 && |files| == count && size == Size(files) <= cap && (open ==> files[0].Some?)
    }

    /** `__enter__` over whatever files are there. */
    constructor (cap: nat, count: nat, existing: Files)
      requires cap >= 1 && count >= 2 && |existing| == count
      ensures Valid() && this.cap == cap && this.count == count && open
      ensures files == Opened(existing, cap)
    {
      this.cap, this.count, files, open, size := cap, count, existing, false, 0;
      new;
      for generation := 0 to count
        invariant |files| == count
        invariant forall i :: 0 <= i < generation ==> files[i] == Trimmed(existing, cap)[i]
        invariant forall i :: generation <= i < count ==> files[i] == existing[i]
      {
        if files[generation].Some? && |files[generation].value| > cap {
          files := files[generation := Some(Tail(files[generation].value, cap))];
        }
      }
      assert files == Trimmed(existing, cap);
      size := Size(files);
      if size >= cap {
        Rotate();
      } else {
        files, open := files[0 := Some(Content(files[0]))], true;
      }
    }

    /** `__exit__`. */
    method Close()
      requires Valid()
      modifies this`open
      ensures Valid() && !open
    {
      open := false;
    }

    /** `_rotate`. */
    method Rotate()
      requires cap >= 1 && count >= 2 && |files| == count
      modifies this`files, this`open, this`size
      ensures Valid() && open && files == Rotated(old(files))
    {
      hide Interrupted;
      open := false;
      ghost var before := files;
      files := files[count - 1 := None];
      assert files == Interrupted(before, count - 1) by { OldestGone(before); }
      var generation := count - 2;
      while generation > 0
        invariant 0 <= generation <= count - 2 && |files| == count
        invariant files == Interrupted(before, generation + 1)
      {
        HoleMoves(before, generation);
        if files[generation].Some? {
          files := files[generation + 1 := files[generation]][generation := None];
        }
        generation := generation - 1;
      }
      HoleMoves(before, 0);
      if files[0].Some? {
        files := files[1 := files[0]][0 := None];
      }
      AllMoved(before);
      files, open, size := files[0 := Some([])], true, 0;
    }

    /**
     `write`. The stream takes `accepts[i]` bytes of what the i-th call offers, all of it when that is
     more, and fails when it takes none. `written` bytes are in the log when the method ends.
     */
    method Write(value: Bytes, accepts: seq<nat>) returns (written: nat, calls: nat, ok: bool)
      requires Valid()
      modifies this`files, this`open, this`size
      ensures Valid()
      ensures written <= |value| && calls <= written + 1 && (ok ==> calls <= |value|)
      ensures (ok <==> written == |value|) && (old(open) ==> open)
      ensures !ok && old(open) ==> calls > |accepts| || (calls > 0 && accepts[calls - 1] == 0)
      ensures var a := Appended(old(files), value[..written], cap);
              files == a || (!ok && Size(a) >= cap && files == Rotated(a))
    {
      hide Appended, PutByte;
      written, calls := 0, 0;
      NothingAppended(files, cap);
      assert value[..0] == [];
      while written < |value|
        invariant Valid() && written <= |value| && calls <= written && calls <= |accepts|
        invariant old(open) ==> open
        invariant files == Appended(old(files), value[..written], cap)
        decreases |value| - written
      {
        if size >= cap { Rotate(); }
        if !open { return written, calls, false; }
        ghost var room := files;
        var length := if |value| - written < cap - size then |value| - written else cap - size;
        calls := calls + 1;
        var offered := if calls > |accepts| then 0 else accepts[calls - 1];
        var taken := if offered < length then offered else length;
        if taken == 0 { return written, calls, false; }
        files := files[0 := Some(Content(files[0]) + value[written..written + taken])];
        ChunkExtends(old(files), value, written, taken, room, cap);
        size := size + taken;
        written := written + taken;
      }
      assert value[..written] == value;
      ok := true;
    }
  }

  /** A chunk that fits into the room made for it is the same as its bytes one by one. */
  lemma {:induction false} ChunkIsBytes(files: Files, room: Files, chunk: Bytes, cap: nat)
    requires |files| >= 2 && chunk != [] && cap >= 1
    requires room == if Size(files) >= cap then Rotated(files) else files
    requires Size(room) + |chunk| <= cap
    ensures Appended(files, chunk, cap) == room[0 := Some(Content(room[0]) + chunk)]
    decreases |chunk|
  {
    hide Rotated, PutByte;
    var n := |chunk| - 1;
    var done := Appended(files, chunk[..n], cap);
    if n == 0 {
      PutInRoom(files, room, chunk[0], cap);
      assert chunk[..0] == [] && chunk == [chunk[0]];
    } else {
      ChunkIsBytes(files, room, chunk[..n], cap);
      PutInRoom(done, done, chunk[n], cap);
      assert Content(room[0]) + chunk[..n] + [chunk[n]] == Content(room[0]) + chunk;
    }
  }

  lemma PutInRoom(files: Files, room: Files, b: bv8, cap: nat)
    requires |files| >= 2
    requires room == if Size(files) >= cap then Rotated(files) else files
    ensures PutByte(files, b, cap) == room[0 := Some(Content(room[0]) + [b])]
  {
  }

  lemma NothingAppended(files: Files, cap: nat)
    requires |files| >= 2
    ensures Appended(files, [], cap) == files
  {
  }

  lemma ChunkExtends(start: Files, value: Bytes, w: nat, t: nat, room: Files, cap: nat)
    requires |start| >= 2 && cap >= 1 && t > 0 && w + t <= |value|
    requires var a := Appended(start, value[..w], cap); room == if Size(a) >= cap then Rotated(a) else a
    requires Size(room) + t <= cap
    ensures Appended(start, value[..w + t], cap) == room[0 := Some(Content(room[0]) + value[w..w + t])]
  {
    hide Appended, PutByte;
    ChunkIsBytes(Appended(start, value[..w], cap), room, value[w..w + t], cap);
    AppendedTwice(start, value[..w], value[w..w + t], cap);
    assert value[..w + t] == value[..w] + value[w..w + t];
  }

  lemma {:induction false} AppendedTwice(files: Files, a: Bytes, b: Bytes, cap: nat)
    requires |files| >= 2
    ensures Appended(Appended(files, a, cap), b, cap) == Appended(files, a + b, cap)
    decreases |b|
  {
    if b == [] {
      assert a + b == a;
    } else {
      var n := |b| - 1;
      AppendedTwice(files, a, b[..n], cap);
      assert (a + b)[..|a + b| - 1] == a + b[..n];
    }
  }

  // ----- agreement with the history -----

  /**
   What happens to the files of one log, in order. `Rolled` is a write that failed right after rotating,
   `Crashed` the end of the program inside a rotation, of a write or of an opening.
   */
  datatype Op = Reopen | Wrote(bytes: Bytes) | Rolled | Crashed(hole: nat)

  predicate Uncrashed(ops: seq<Op>) {
    forall i :: 0 <= i < |ops| ==> !ops[i].Crashed?
  }

  function StepFiles(files: Files, op: Op, cap: nat): (r: Files)
    requires |files| >= 2
    ensures |r| == |files|
  {
    match op
    case Reopen => Opened(files, cap)
    case Wrote(bytes) => Appended(files, bytes, cap)
    case Rolled => if Size(files) >= cap then Rotated(files) else files
    case Crashed(hole) => if Size(files) >= cap && hole < |files| then Interrupted(files, hole) else files
  }

  function NoFiles(count: nat): (r: Files)
    ensures |r| == count && forall i :: 0 <= i < count ==> r[i] == None
  {
    seq(count, i => None)
  }

  function FilesAfter(start: Files, ops: seq<Op>, cap: nat): (r: Files)
    requires |start| >= 2
    ensures |r| == |start|
    decreases |ops|
  {
    if ops == [] then start
    else StepFiles(FilesAfter(start, ops[..|ops| - 1], cap), ops[|ops| - 1], cap)
  }

  /** A stream that may take less than a whole chunk: it takes nothing once, or has no answers left. */
  predicate Refuses(accepts: seq<nat>, chunk: Bytes) { 0 in accepts || |accepts| < |chunk| }

  /** The session wrote the first `k` chunks and, unless that was all, a part of the next, which was refused. */
  ghost predicate Drained(existing: Files, files: Files, chunks: seq<Bytes>, accepts: seq<seq<nat>>)
    requires |existing| >= 2 && |accepts| == |chunks|
  {
    exists ops, k: nat, part: Bytes ::
      && Uncrashed(ops) && files == FilesAfter(existing, ops, LOG_FILE_BYTES) && k <= |chunks|
      && History(ops) == Flat(chunks[..k]) + part
      && (if k < |chunks| then part <= chunks[k] && part != chunks[k] && Refuses(accepts[k], chunks[k])
          else part == [])
  }

  /** `_drain_rotating`: one session over the files that exist, which ends at the first failing write. */
  method Drain(existing: Files, chunks: seq<Bytes>, accepts: seq<seq<nat>>) returns (files: Files)
    requires |existing| == LOG_FILE_COUNT && |accepts| == |chunks|
    ensures |files| == LOG_FILE_COUNT && Drained(existing, files, chunks, accepts)
  {
    hide Opened, Appended, Rotated, History, Flat;
    var log := new Log(LOG_FILE_BYTES, LOG_FILE_COUNT, existing);
    ghost var ops: seq<Op> := [];
    assert FilesAfter(existing, [], LOG_FILE_BYTES) == existing;
    ops := Extended(existing, ops, Reopen, LOG_FILE_BYTES);
    assert History([Reopen]) == Flat(chunks[..0]) by { NoHistory(chunks); }
    for i := 0 to |chunks|
      invariant log.Valid() && log.cap == LOG_FILE_BYTES && log.count == LOG_FILE_COUNT && log.open && fresh(log)
      invariant log.files == FilesAfter(existing, ops, LOG_FILE_BYTES)
      invariant History(ops) == Flat(chunks[..i]) && Uncrashed(ops)
    {
      ghost var before := log.files;
      var written, calls, ok := log.Write(chunks[i], accepts[i]);
      var wrote := chunks[i][..written];
      ops := Extended(existing, ops, Wrote(wrote), LOG_FILE_BYTES);
      if !ok {
        ghost var appended := Appended(before, wrote, LOG_FILE_BYTES);
        if log.files != appended {
          ops := Extended(existing, ops, Rolled, LOG_FILE_BYTES);
        }
        assert History(ops) == Flat(chunks[..i]) + wrote;
        return log.files;
      }
      FlatNext(chunks, i);
      assert wrote == chunks[i];
    }
    assert chunks[..|chunks|] == chunks;
    assert History(ops) == Flat(chunks[..|chunks|]) + [];
    log.Close();
    files := log.files;
  }

  lemma LastOp(start: Files, ops: seq<Op>, cap: nat)
    requires |start| >= 2 && ops != []
    ensures var before, last := ops[..|ops| - 1], ops[|ops| - 1];
            && FilesAfter(start, ops, cap) == StepFiles(FilesAfter(start, before, cap), last, cap)
            && History(ops) == History(before) + if last.Wrote? then last.bytes else []
  {
    hide StepFiles;
  }

  lemma {:induction false} FilesCompose(start: Files, a: seq<Op>, b: seq<Op>, cap: nat)
    requires |start| >= 2
    ensures FilesAfter(FilesAfter(start, a, cap), b, cap) == FilesAfter(start, a + b, cap)
    decreases |b|
  {
    if b == [] {
      assert a + b == a;
    } else {
      hide StepFiles, FilesAfter, History;
      var n, whole := |b| - 1, a + b;
      FilesCompose(start, a, b[..n], cap);
      LastOp(start, whole, cap);
      LastOp(FilesAfter(start, a, cap), b, cap);
      assert whole[..|whole| - 1] == a + b[..n];
    }
  }

  lemma {:induction false} HistoriesCompose(a: seq<Op>, b: seq<Op>)
    ensures History(a + b) == History(a) + History(b)
    decreases |b|
  {
    if b == [] {
      assert a + b == a;
    } else {
      var n, whole := |b| - 1, a + b;
      HistoriesCompose(a, b[..n]);
      assert whole[..|whole| - 1] == a + b[..n];
      var last := if b[n].Wrote? then b[n].bytes else [];
      assert History(whole) == History(a + b[..n]) + last;
      assert (History(a) + History(b[..n])) + last == History(a) + (History(b[..n]) + last);
    }
  }

  /** One session after another is one longer history. */
  lemma SessionsCompose(start: Files, a: seq<Op>, b: seq<Op>, cap: nat)
    requires |start| >= 2
    ensures FilesAfter(FilesAfter(start, a, cap), b, cap) == FilesAfter(start, a + b, cap)
    ensures History(a + b) == History(a) + History(b)
  {
    hide FilesAfter, History;
    FilesCompose(start, a, b, cap);
    HistoriesCompose(a, b);
  }

  /** One more operation, with its effect on files and history. */
  ghost method Extended(start: Files, ops: seq<Op>, op: Op, cap: nat) returns (more: seq<Op>)
    requires |start| >= 2
    ensures more == ops + [op]
    ensures FilesAfter(start, more, cap) == StepFiles(FilesAfter(start, ops, cap), op, cap)
    ensures History(more) == History(ops) + if op.Wrote? then op.bytes else []
  {
    more := ops + [op];
    assert more[..|ops|] == ops;
  }

  lemma NoHistory(chunks: seq<Bytes>)
    ensures History([Reopen]) == [] && Flat(chunks[..0]) == []
  {
  }

  lemma FlatNext(chunks: seq<Bytes>, i: nat)
    requires i < |chunks|
    ensures Flat(chunks[..i + 1]) == Flat(chunks[..i]) + chunks[i]
  {
    assert chunks[..i + 1][..i] == chunks[..i];
  }

  /** All bytes ever written. */
  function History(ops: seq<Op>): Bytes
    decreases |ops|
  {
    if ops == [] then []
    else
      var last := ops[|ops| - 1];
      History(ops[..|ops| - 1]) + (if last.Wrote? then last.bytes else [])
  }

  function Flat(blocks: seq<Bytes>): Bytes
    decreases |blocks|
  {
    if blocks == [] then [] else Flat(blocks[..|blocks| - 1]) + blocks[|blocks| - 1]
  }

  predicate Full(blocks: seq<Bytes>, cap: nat) {
    forall i :: 0 <= i < |blocks| ==> |blocks[i]| == cap
  }

  /** The newest generation holds `current`; the older ones hold the last full blocks, newest first. */
  predicate Holds(files: Files, blocks: seq<Bytes>, current: Bytes, cap: nat) {
    && |files| >= 2 && Full(blocks, cap) && |current| <= cap
    && Content(files[0]) == current
    && forall i :: 1 <= i < |files| ==> files[i] == if i <= |blocks| then Some(blocks[|blocks| - i]) else None
  }

  ghost predicate Agrees(files: Files, history: Bytes, cap: nat) {
    exists blocks, current :: Holds(files, blocks, current, cap) && history == Flat(blocks) + current
  }

  lemma RotatedHolds(files: Files, blocks: seq<Bytes>, current: Bytes, cap: nat)
    requires cap >= 1 && Holds(files, blocks, current, cap) && |current| >= cap
    ensures Holds(Rotated(files), blocks + [current], [], cap)
  {
    hide Flat;
    var r, more := Rotated(files), blocks + [current];
    assert files[0] == Some(current);
    forall i | 1 <= i < |r|
      ensures r[i] == if i <= |more| then Some(more[|more| - i]) else None
    {
      assert r[i] == files[i - 1];
      assert 1 < i <= |more| ==> more[|more| - i] == blocks[|blocks| - (i - 1)];
    }
  }

  lemma RotatingAgrees(files: Files, history: Bytes, cap: nat)
    requires cap >= 1 && Agrees(files, history, cap) && Size(files) >= cap
    ensures Agrees(Rotated(files), history, cap)
  {
    hide Rotated;
    var blocks, current :| Holds(files, blocks, current, cap) && history == Flat(blocks) + current;
    RotatedHolds(files, blocks, current, cap);
    assert (blocks + [current])[..|blocks|] == blocks;
    assert Flat(blocks + [current]) + [] == history;
  }

  lemma PuttingAgrees(files: Files, history: Bytes, b: bv8, cap: nat)
    requires cap >= 1 && Agrees(files, history, cap)
    ensures Agrees(PutByte(files, b, cap), history + [b], cap)
  {
    var room := files;
    if Size(files) >= cap {
      RotatingAgrees(files, history, cap);
      room := Rotated(files);
    }
    var blocks, current :| Holds(room, blocks, current, cap) && history == Flat(blocks) + current;
    assert Holds(PutByte(files, b, cap), blocks, current + [b], cap);
    assert history + [b] == Flat(blocks) + (current + [b]);
  }

  lemma {:induction false} AppendingAgrees(files: Files, history: Bytes, bytes: Bytes, cap: nat)
    requires cap >= 1 && |files| >= 2 && Agrees(files, history, cap)
    ensures Agrees(Appended(files, bytes, cap), history + bytes, cap)
    decreases |bytes|
  {
    hide Agrees, PutByte;
    if bytes == [] {
      assert history + bytes == history;
    } else {
      var n := |bytes| - 1;
      AppendingAgrees(files, history, bytes[..n], cap);
      PuttingAgrees(Appended(files, bytes[..n], cap), history + bytes[..n], bytes[n], cap);
      assert history + bytes[..n] + [bytes[n]] == history + bytes;
    }
  }

  lemma OpeningAgrees(files: Files, history: Bytes, cap: nat)
    requires cap >= 1 && Agrees(files, history, cap)
    ensures Agrees(Opened(files, cap), history, cap)
  {
    var blocks, current :| Holds(files, blocks, current, cap) && history == Flat(blocks) + current;
    assert Trimmed(files, cap) == files;
    if Size(files) >= cap {
      RotatingAgrees(files, history, cap);
    } else {
      assert Holds(Opened(files, cap), blocks, current, cap);
    }
  }

  /** Through any writes, partial writes, failures and reopenings, the files are the history cut into blocks. */
  lemma {:induction false} FilesAgree(ops: seq<Op>, cap: nat, count: nat)
    requires cap >= 1 && count >= 2 && Uncrashed(ops)
    ensures Agrees(FilesAfter(NoFiles(count), ops, cap), History(ops), cap)
    decreases |ops|
  {
    if ops == [] {
      assert Holds(NoFiles(count), [], [], cap);
    } else {
      var before := ops[..|ops| - 1];
      FilesAgree(before, cap, count);
      var files, history := FilesAfter(NoFiles(count), before, cap), History(before);
      match ops[|ops| - 1]
      case Reopen => OpeningAgrees(files, history, cap); assert history + [] == history;
      case Wrote(bytes) => AppendingAgrees(files, history, bytes, cap);
      case Rolled =>
        if Size(files) >= cap { RotatingAgrees(files, history, cap); }
        assert history + [] == history;
    }
  }

  // ----- what a reader finds -----

  /** Generations `i` and older, oldest first. */
  function JoinedFrom(files: Files, i: nat): Bytes
    requires i <= |files|
    decreases |files| - i
  {
    if i == |files| then [] else JoinedFrom(files, i + 1) + Content(files[i])
  }

  function Joined(files: Files): Bytes { JoinedFrom(files, 0) }

  predicate SuffixOf(a: Bytes, b: Bytes) {
    |a| <= |b| && a == b[|b| - |a|..]
  }

  lemma SuffixAppend(a: Bytes, b: Bytes, c: Bytes)
    requires SuffixOf(a, b)
    ensures SuffixOf(a + c, b + c)
  {
  }

  lemma HeldAt(files: Files, blocks: seq<Bytes>, current: Bytes, cap: nat, i: nat)
    requires Holds(files, blocks, current, cap) && 1 <= i < |files|
    ensures Content(files[i]) == if i <= |blocks| then blocks[|blocks| - i] else []
  {
  }

  lemma FlatTo(blocks: seq<Bytes>, k: nat)
    requires k < |blocks|
    ensures Flat(blocks[..k + 1]) == Flat(blocks[..k]) + blocks[k]
  {
    assert blocks[..k + 1][..k] == blocks[..k];
  }

  lemma {:induction false} JoinedBlocks(files: Files, blocks: seq<Bytes>, current: Bytes, cap: nat, i: nat)
    requires Holds(files, blocks, current, cap) && 1 <= i <= |files|
    ensures i > |blocks| ==> JoinedFrom(files, i) == []
    ensures i <= |blocks| ==> SuffixOf(JoinedFrom(files, i), Flat(blocks[..|blocks| + 1 - i]))
    ensures i <= |blocks| < |files| ==> JoinedFrom(files, i) == Flat(blocks[..|blocks| + 1 - i])
    decreases |files| - i
  {
    hide Holds, Flat, SuffixOf, Content;
    if i < |files| {
      JoinedBlocks(files, blocks, current, cap, i + 1);
      HeldAt(files, blocks, current, cap, i);
      if i <= |blocks| {
        var k := |blocks| - i;
        FlatTo(blocks, k);
        if i == |blocks| { NothingBefore(JoinedFrom(files, i + 1), blocks[..k]); }
        SuffixAppend(JoinedFrom(files, i + 1), Flat(blocks[..k]), blocks[k]);
      }
    } else {
      NothingBefore([], blocks[..0]);
      SuffixOfAll(if i <= |blocks| then Flat(blocks[..|blocks| + 1 - i]) else []);
    }
  }

  lemma NothingBefore(bytes: Bytes, blocks: seq<Bytes>)
    requires bytes == [] && blocks == []
    ensures Flat(blocks) == bytes && SuffixOf(bytes, Flat(blocks))
  {
  }

  lemma SuffixOfAll(b: Bytes)
    ensures SuffixOf([], b)
  {
  }

  /** The older generations of a full ring hold count - 1 blocks. */
  lemma JoinedFull(files: Files, blocks: seq<Bytes>, current: Bytes, cap: nat)
    requires Holds(files, blocks, current, cap) && |blocks| >= |files| - 1
    ensures |JoinedFrom(files, 1)| == (|files| - 1) * cap
  {
    FullLength(files, cap, 1);
  }

  lemma JoinedSuffix(files: Files, blocks: seq<Bytes>, current: Bytes, cap: nat)
    requires Holds(files, blocks, current, cap)
    ensures SuffixOf(Joined(files), Flat(blocks) + current)
    ensures |blocks| < |files| - 1 ==> Joined(files) == Flat(blocks) + current
  {
    hide Holds;
    JoinedBlocks(files, blocks, current, cap, 1) by { HoldsTwo(files, blocks, current, cap); }
    HoldsTwo(files, blocks, current, cap);
    assert blocks[..|blocks|] == blocks;
    assert SuffixOf(JoinedFrom(files, 1), Flat(blocks));
    SuffixAppend(JoinedFrom(files, 1), Flat(blocks), current);
  }

  lemma HoldsTwo(files: Files, blocks: seq<Bytes>, current: Bytes, cap: nat)
    requires Holds(files, blocks, current, cap)
    ensures |files| >= 2 && Content(files[0]) == current
  {
  }

  lemma HeldFiles(files: Files, blocks: seq<Bytes>, current: Bytes, cap: nat)
    requires Holds(files, blocks, current, cap)
    ensures SuffixOf(Joined(files), Flat(blocks) + current)
    ensures |blocks| < |files| - 1 ==> Joined(files) == Flat(blocks) + current
    ensures |JoinedFrom(files, 1)| <= |Joined(files)|
    ensures forall i :: 0 <= i < |files| ==> |Content(files[i])| <= cap
  {
    hide SuffixOf, Flat;
    JoinedSuffix(files, blocks, current, cap);
  }

  /** All of the history, or at least the last (count - 1) * cap bytes of it, are there. */
  lemma LogKeepsEnough(ops: seq<Op>, cap: nat, count: nat)
    requires cap >= 1 && count >= 2 && Uncrashed(ops)
    ensures var files := FilesAfter(NoFiles(count), ops, cap);
            Joined(files) == History(ops) || |Joined(files)| >= (count - 1) * cap
  {
    hide FilesAfter, History, Holds, Flat, JoinedFrom, SuffixOf, Content;
    FilesAgree(ops, cap, count);
    var files, history := FilesAfter(NoFiles(count), ops, cap), History(ops);
    var blocks, current :| Holds(files, blocks, current, cap) && history == Flat(blocks) + current;
    HeldFiles(files, blocks, current, cap);
    if |blocks| >= count - 1 {
      JoinedFull(files, blocks, current, cap);
    }
  }

  /** Over any files left by something else, opening still brings every generation within the cap. */
  lemma OpeningBounds(files: Files, cap: nat, i: nat)
    requires |files| >= 2 && i < |files| && cap >= 1
    ensures |Content(Opened(files, cap)[i])| <= cap && Size(Opened(files, cap)) < cap
  {
  }

  /** The last bytes of a file, as many as fit. */
  function Newest(bytes: Bytes, cap: nat): Bytes {
    bytes[(if |bytes| > cap then |bytes| - cap else 0)..]
  }

  /** Opening keeps the newest bytes of every file, as many as fit, and moves the files up if there is no room. */
  lemma OpeningKeepsTails(files: Files, cap: nat, i: nat)
    requires |files| >= 2 && i < |files| && files[i].Some?
    ensures var full, kept := |Content(files[0])| >= cap, Opened(files, cap);
            && (full && i + 1 < |files| ==> kept[i + 1] == Some(Newest(files[i].value, cap)))
            && (!full ==> kept[i] == Some(Newest(files[i].value, cap)))
  {
    hide Rotated, Trimmed;
    var trimmed := Trimmed(files, cap);
    assert trimmed[i] == Some(Newest(files[i].value, cap)) by { TrimmedAt(files, cap, i); }
    TrimmedSize(files, cap);
    if i + 1 < |files| { RotatedAt(trimmed, i + 1); }
  }

  lemma TrimmedAt(files: Files, cap: nat, i: nat)
    requires i < |files| && files[i].Some?
    ensures Trimmed(files, cap)[i] == Some(Newest(files[i].value, cap))
  {
  }

  lemma TrimmedSize(files: Files, cap: nat)
    requires |files| > 0
    ensures Size(Trimmed(files, cap)) >= cap <==> |Content(files[0])| >= cap
  {
  }

  lemma RotatedAt(files: Files, i: nat)
    requires |files| >= 2 && 0 < i < |files|
    ensures Rotated(files)[i] == files[i - 1]
  {
  }

  // ----- a crash inside a rotation -----

  lemma {:induction false} InterruptedFrom(files: Files, hole: nat, i: nat)
    requires hole < |files| && i <= |files|
    ensures i > hole ==> JoinedFrom(Interrupted(files, hole), i) == JoinedFrom(files[..|files| - 1], i - 1)
    ensures i <= hole ==> JoinedFrom(Interrupted(files, hole), i) == JoinedFrom(files[..|files| - 1], i)
    decreases |files| - i
  {
    if i < |files| {
      InterruptedFrom(files, hole, i + 1);
    }
  }

  lemma {:induction false} WithoutOldest(files: Files, i: nat)
    requires i < |files|
    ensures SuffixOf(JoinedFrom(files[..|files| - 1], i), JoinedFrom(files, i))
    decreases |files| - i
  {
    if i < |files| - 1 {
      WithoutOldest(files, i + 1);
      SuffixAppend(JoinedFrom(files[..|files| - 1], i + 1), JoinedFrom(files, i + 1), Content(files[i]));
    }
  }

  /** A crash anywhere inside a rotation leaves a suffix of what was there, in order. */
  lemma CrashKeepsSuffix(files: Files, hole: nat)
    requires |files| >= 2 && hole < |files|
    ensures SuffixOf(Joined(Interrupted(files, hole)), Joined(files))
  {
    InterruptedFrom(files, hole, 0);
    WithoutOldest(files, 0);
  }

  // ----- every run, crashes included -----

  predicate Fits(files: Files, cap: nat) {
    forall i :: 0 <= i < |files| ==> |Content(files[i])| <= cap
  }

  lemma SuffixTrans(a: Bytes, b: Bytes, c: Bytes)
    requires SuffixOf(a, b) && SuffixOf(b, c)
    ensures SuffixOf(a, c)
  {
  }

  /** A rotation forgets the oldest generation and nothing else. */
  lemma RotatedSuffix(files: Files)
    requires |files| >= 2
    ensures SuffixOf(Joined(Rotated(files)), Joined(files))
  {
    var kept := files[..|files| - 1];
    AfterAll(kept, Rotated(files), 0);
    WithoutOldest(files, 0);
    assert Joined(Rotated(files)) == JoinedFrom(Rotated(files), 1) + Content(Rotated(files)[0]);
  }

  lemma {:induction false} OlderAlone(files: Files, other: Files, i: nat)
    requires |files| == |other| && 1 <= i <= |files| && files[1..] == other[1..]
    ensures JoinedFrom(files, i) == JoinedFrom(other, i)
    decreases |files| - i
  {
    if i < |files| {
      OlderAlone(files, other, i + 1);
      assert files[i] == files[1..][i - 1] && other[i] == other[1..][i - 1];
    }
  }

  lemma PutSuffix(files: Files, history: Bytes, b: bv8, cap: nat)
    requires |files| >= 2 && cap >= 1 && Fits(files, cap) && SuffixOf(Joined(files), history)
    ensures var r := PutByte(files, b, cap); Fits(r, cap) && SuffixOf(Joined(r), history + [b])
  {
    hide SuffixOf;
    var room := files;
    if Size(files) >= cap {
      RotatedSuffix(files);
      SuffixTrans(Joined(Rotated(files)), Joined(files), history);
      room := Rotated(files);
    }
    var r := PutByte(files, b, cap);
    OlderAlone(room, r, 1);
    assert Joined(r) == Joined(room) + [b] by {
      assert JoinedFrom(room, 1) + (Content(room[0]) + [b]) == (JoinedFrom(room, 1) + Content(room[0])) + [b];
    }
    SuffixAppend(Joined(room), history, [b]);
  }

  lemma {:induction false} AppendSuffix(files: Files, history: Bytes, bytes: Bytes, cap: nat)
    requires |files| >= 2 && cap >= 1 && Fits(files, cap) && SuffixOf(Joined(files), history)
    ensures var r := Appended(files, bytes, cap); Fits(r, cap) && SuffixOf(Joined(r), history + bytes)
    decreases |bytes|
  {
    hide PutByte, Joined, SuffixOf, Fits;
    if bytes == [] {
      assert history + bytes == history;
    } else {
      var n := |bytes| - 1;
      AppendSuffix(files, history, bytes[..n], cap);
      PutSuffix(Appended(files, bytes[..n], cap), history + bytes[..n], bytes[n], cap);
      assert history + bytes[..n] + [bytes[n]] == history + bytes;
    }
  }

  lemma OpenSuffix(files: Files, cap: nat)
    requires |files| >= 2 && cap >= 1 && Fits(files, cap)
    ensures Fits(Opened(files, cap), cap) && SuffixOf(Joined(Opened(files, cap)), Joined(files))
  {
    assert Trimmed(files, cap) == files;
    if Size(files) >= cap {
      RotatedSuffix(files);
    } else {
      OlderAlone(files, Opened(files, cap), 1);
    }
  }

  lemma CrashFits(files: Files, hole: nat, cap: nat)
    requires Fits(files, cap) && hole < |files|
    ensures Fits(Interrupted(files, hole), cap)
  {
  }

  /** One operation adds what it wrote and may forget the oldest bytes. */
  lemma StepSuffix(files: Files, history: Bytes, op: Op, cap: nat)
    requires |files| >= 2 && cap >= 1 && Fits(files, cap) && SuffixOf(Joined(files), history)
    ensures var r := StepFiles(files, op, cap);
            Fits(r, cap) && SuffixOf(Joined(r), history + if op.Wrote? then op.bytes else [])
  {
    hide Joined, SuffixOf, Interrupted, Opened, Appended;
    assert history + [] == history;
    match op
    case Wrote(bytes) => AppendSuffix(files, history, bytes, cap);
    case Reopen =>
      OpenSuffix(files, cap);
      SuffixTrans(Joined(Opened(files, cap)), Joined(files), history);
    case Rolled =>
      if Size(files) >= cap {
        RotatedSuffix(files);
        SuffixTrans(Joined(Rotated(files)), Joined(files), history);
      }
    case Crashed(hole) =>
      if Size(files) >= cap && hole < |files| {
        CrashKeepsSuffix(files, hole);
        CrashFits(files, hole, cap);
        SuffixTrans(Joined(Interrupted(files, hole)), Joined(files), history);
      }
  }

  /**
   The log agrees with the history: through any writes, failures, reopenings and crashes inside rotations,
   the files read oldest to newest are its end, and none exceeds the cap.
   */
  lemma {:induction false} LogIsBoundedSuffix(ops: seq<Op>, cap: nat, count: nat)
    requires cap >= 1 && count >= 2
    ensures var files := FilesAfter(NoFiles(count), ops, cap);
            && SuffixOf(Joined(files), History(ops))
            && (forall i :: 0 <= i < count ==> |Content(files[i])| <= cap)
    decreases |ops|
  {
    hide StepFiles, Joined, SuffixOf;
    if ops == [] {
      NothingJoined(count, 0);
    } else {
      var before := ops[..|ops| - 1];
      LogIsBoundedSuffix(before, cap, count);
      StepSuffix(FilesAfter(NoFiles(count), before, cap), History(before), ops[|ops| - 1], cap);
    }
  }

  lemma {:induction false} NothingJoined(count: nat, i: nat)
    requires i <= count
    ensures JoinedFrom(NoFiles(count), i) == [] && SuffixOf(JoinedFrom(NoFiles(count), i), [])
    ensures i == 0 ==> SuffixOf(Joined(NoFiles(count)), [])
    decreases count - i
  {
    if i < count { NothingJoined(count, i + 1); }
  }

  lemma {:induction false} FullLength(files: Files, cap: nat, i: nat)
    requires i <= |files| && forall j :: i <= j < |files| ==> files[j].Some? && |files[j].value| == cap
    ensures |JoinedFrom(files, i)| == (|files| - i) * cap
    decreases |files| - i
  {
    if i < |files| {
      FullLength(files, cap, i + 1);
      assert (|files| - i) * cap == (|files| - (i + 1)) * cap + cap;
    }
  }

  /**
   How much a full log keeps when it is reopened after such a crash: the reopening rotates again, so
   unless the crash came before the first move or after the last, one more generation is lost.
   */
  lemma CrashRetention(files: Files, hole: nat, cap: nat)
    requires |files| >= 2 && hole < |files| && cap >= 1
    requires forall j :: 0 <= j < |files| ==> files[j].Some? && |files[j].value| == cap
    ensures |Joined(Opened(Interrupted(files, hole), cap))|
            == (if hole == 0 || hole == |files| - 1 then |files| - 1 else |files| - 2) * cap
  {
    var crashed := Interrupted(files, hole);
    var kept := files[..|files| - 1];
    assert Trimmed(crashed, cap) == crashed;
    if hole == 0 {
      assert Opened(crashed, cap) == [Some([])] + kept;
      OpenedAfterHole(kept, Opened(crashed, cap), cap);
    } else if hole == |files| - 1 {
      assert Opened(crashed, cap) == [Some([])] + kept;
      OpenedAfterHole(kept, Opened(crashed, cap), cap);
    } else {
      var r := Opened(crashed, cap);
      assert r == [Some([])] + Interrupted(kept, hole);
      AfterAll(Interrupted(kept, hole), r, 0);
      InterruptedFrom(kept, hole, 0);
      FullLength(kept[..|kept| - 1], cap, 0);
    }
  }

  lemma OpenedAfterHole(kept: Files, r: Files, cap: nat)
    requires r == [Some([])] + kept && forall j :: 0 <= j < |kept| ==> kept[j].Some? && |kept[j].value| == cap
    ensures |Joined(r)| == |kept| * cap
  {
    AfterAll(kept, r, 0);
    FullLength(kept, cap, 0);
  }

  lemma {:induction false} AfterAll(files: Files, r: Files, i: nat)
    requires r == [Some([])] + files && i <= |files|
    ensures JoinedFrom(r, i + 1) == JoinedFrom(files, i)
    decreases |files| - i
  {
    if i < |files| {
      AfterAll(files, r, i + 1);
    }
  }
}
