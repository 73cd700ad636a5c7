/** The vectored, chunked TCP writer of lwip_client/ta/api_msg.c (do_writemore). */
module VectorWriter {
  import opened Common

  // LWIP_SO_SNDTIMEO = 0. tcp_sndbuf, tcp_write and tcp_output answer as they like, except that a
  // zero-byte tcp_write succeeds. A list of answers stands for one invocation; past its end tcp_write
  // answers ERR_MEM, so every finite behaviour is covered.

  /** msg.w: `at` is the vector pointer. */
  datatype Progress = Progress(vectors: seq<seq<byte>>, at: nat, off: nat, cnt: nat, offset: nat, len: nat)

  datatype Answer = Answer(available: nat, err: Err)

  function Ask(core: seq<Answer>): Answer {
    if core == [] then Answer(U16_MAX, MEM) else core[0]
  }

  function Later(core: seq<Answer>): seq<Answer> {
    if core == [] then [] else core[1..]
  }

  /** Position and counters agree: `offset` counts the bytes before the position, `cnt` the
      vectors from it on, and `len` all bytes. */
  ghost predicate Consistent(w: Progress) {
    && w.at < |w.vectors| && w.off <= |w.vectors[w.at]|
    && (if w.cnt > 0 then w.at + w.cnt == |w.vectors| else w.at + 1 == |w.vectors| && w.off == |w.vectors[w.at]|)
    && w.offset == |Flatten(w.vectors[..w.at])| + w.off
    && w.len == |Flatten(w.vectors)|
  }

  function Left(w: Progress): nat
    requires w.at < |w.vectors| && w.off <= |w.vectors[w.at]|
  {
    |w.vectors[w.at]| - w.off
  }

  /** The chunk length: limited to 16 bits, then to the send buffer. */
  function Chunk(w: Progress, available: nat): (n: nat)
    requires w.at < |w.vectors| && w.off <= |w.vectors[w.at]|
    ensures n <= available && n <= Left(w) && n <= U16_MAX
  {
    var limited := if Left(w) > U16_MAX then U16_MAX else Left(w);
    if available < limited then available else limited
  }

  /** `write_more`: the comparison is with the difference truncated to 16 bits. */
  predicate More(w: Progress, n: nat)
    requires w.at < |w.vectors| && w.off <= |w.vectors[w.at]|
  {
    (n == U16_MAX && Left(w) > U16_MAX) || (n == Left(w) % 0x1_0000 && w.cnt > 1)
  }

  function Advanced(w: Progress, n: nat): Progress
    requires w.at < |w.vectors| && w.off <= |w.vectors[w.at]| && n <= Left(w) && w.cnt > 0
  {
    if n < Left(w) then w.(offset := w.offset + n, off := w.off + n)
    else if w.cnt == 1 then w.(offset := w.offset + n, off := w.off + n, cnt := 0)
    else w.(offset := w.offset + n, off := 0, cnt := w.cnt - 1, at := w.at + 1)
  }

  datatype End =
    | NoSpace          // nothing fits and the write may not block
    | Ended(err: Err)  // the loop was left with this result of tcp_write
    | Stalled          // the loop goes round for ever without writing a byte

  datatype Out = Out(w: Progress, bytes: seq<byte>, end: End)

  /** An iteration that writes nothing, finishes nothing and goes round again. tcp_sndbuf
      will answer the same next time: only the acknowledgements this very thread would have
      to process can make room. */
  predicate Stalls(w: Progress, n: nat)
    requires w.at < |w.vectors| && w.off <= |w.vectors[w.at]| && n <= Left(w)
  {
    n == 0 && Left(w) > 0 && More(w, 0)
  }

  /** The do-while loop. */
  function Loop(w: Progress, dontblock: bool, core: seq<Answer>): Out
    requires Consistent(w) && w.cnt > 0
    ensures Consistent(Loop(w, dontblock, core).w)
    decreases w.len - w.offset, w.cnt
  {
    OffsetBound(w);
    var n := Chunk(w, Ask(core).available);
    var err := if n == 0 then OK else Ask(core).err;
    if dontblock && n == 0 && Left(w) > 0 then Out(w, [], NoSpace)
    else if err != OK then Out(w, [], Ended(err))
    else if Stalls(w, n) then Out(w, [], Stalled)
    else
      AdvancedConsistent(w, n);
      var next := Advanced(w, n);
      OffsetBound(next);
      var chunk := w.vectors[w.at][w.off..w.off + n];
      if More(w, n) then
        MoreMeansVectors(w, n);
        var rest := Loop(next, dontblock, Later(core));
        Out(rest.w, chunk + rest.bytes, rest.end)
      else Out(next, chunk, Ended(OK))
  }

  lemma {:induction false} SplitAt(vectors: seq<seq<byte>>, at: nat)
    requires at < |vectors|
    ensures Flatten(vectors) == Flatten(vectors[..at]) + vectors[at] + Flatten(vectors[at + 1..])
  {
    var before, after := vectors[..at + 1], vectors[at + 1..];
    assert Flatten(vectors) == Flatten(before) + Flatten(after) by {
      FlattenAppend(before, after);
      assert before + after == vectors;
    }
    FlattenNext(vectors, at);
  }

  lemma OffsetBound(w: Progress)
    requires Consistent(w)
    ensures w.offset <= w.len
    ensures w.cnt == 0 ==> w.offset == w.len
    ensures w.offset + Left(w) <= w.len
  {
    SplitAt(w.vectors, w.at);
    if w.cnt == 0 { assert w.vectors[w.at + 1..] == []; }
  }

  lemma AdvancedConsistent(w: Progress, n: nat)
    requires Consistent(w) && w.cnt > 0 && n <= Left(w)
    ensures Consistent(Advanced(w, n))
  {
    FlattenNext(w.vectors, w.at);
  }

  /** Going round again, there is a vector to go on with. */
  lemma MoreMeansVectors(w: Progress, n: nat)
    requires Consistent(w) && w.cnt > 0 && n <= Left(w) && More(w, n)
    ensures Advanced(w, n).cnt > 0
  {
  }

  /** From `w` to `w'`, exactly the bytes between their offsets have been written. */
  ghost predicate Wrote(w: Progress, bytes: seq<byte>, w': Progress) {
    && Consistent(w') && w'.vectors == w.vectors && w'.len == w.len
    && w.offset <= w'.offset <= |Flatten(w.vectors)|
    && bytes == Flatten(w.vectors)[w.offset..w'.offset]
  }

  lemma WroteNothing(w: Progress)
    requires Consistent(w)
    ensures Wrote(w, [], w)
  {
    OffsetBound(w);
  }

  lemma WroteMore(w: Progress, first: seq<byte>, mid: Progress, second: seq<byte>, end: Progress)
    requires Wrote(w, first, mid) && Wrote(mid, second, end)
    ensures Wrote(w, first + second, end)
  {
    var all := Flatten(w.vectors);
    assert all[w.offset..mid.offset] + all[mid.offset..end.offset] == all[w.offset..end.offset];
  }

  /** The bytes of one chunk are the next ones of the flattened vectors. */
  lemma WroteChunk(w: Progress, n: nat)
    requires Consistent(w) && w.cnt > 0 && n <= Left(w)
    ensures Wrote(w, w.vectors[w.at][w.off..w.off + n], Advanced(w, n))
  {
    SplitAt(w.vectors, w.at);
    AdvancedConsistent(w, n);
    var before := Flatten(w.vectors[..w.at]);
    assert Flatten(w.vectors)[|before|..|before| + |w.vectors[w.at]|] == w.vectors[w.at];
    assert w.vectors[w.at][w.off..w.off + n] == Flatten(w.vectors)[w.offset..w.offset + n];
  }

  /** The loop makes progress in the lexicographic order (bytes left, vectors left) at every
      turn, if and only if it is not one particular turn: a blocking write with no room in
      the send buffer, at a remainder that is a positive multiple of 65536, with more
      vectors to come. */
  lemma ProgressUnlessTruncated(w: Progress, dontblock: bool, available: nat)
    requires Consistent(w) && w.cnt > 0 && !(dontblock && available == 0)
    ensures var n := Chunk(w, available);
      More(w, n) ==>
        (!(available == 0 && Left(w) > U16_MAX && Left(w) % 0x1_0000 == 0 && w.cnt > 1)
         <==> Advanced(w, n).offset > w.offset || (Advanced(w, n).offset == w.offset && Advanced(w, n).cnt < w.cnt))
  {
  }

  /** Such a turn exists: 65536 bytes and one more vector, and a full send buffer. */
  lemma TruncationStalls(big: seq<byte>, other: seq<byte>)
    requires |big| == 0x1_0000
    ensures var w := Progress([big, other], 0, 0, 2, 0, |Flatten([big, other])|);
      Consistent(w) && Loop(w, false, [Answer(0, OK)]) == Out(w, [], Stalled)
  {
    var w := Progress([big, other], 0, 0, 2, 0, |Flatten([big, other])|);
    assert w.vectors[..0] == [];
    assert Consistent(w);
  }

  /** Whether the loop goes round again after the first chunk. */
  predicate GoesOn(w: Progress, dontblock: bool, core: seq<Answer>)
    requires w.at < |w.vectors| && w.off <= |w.vectors[w.at]|
  {
    var n := Chunk(w, Ask(core).available);
    !(dontblock && n == 0 && Left(w) > 0) && (n == 0 || Ask(core).err == OK) && !Stalls(w, n) && More(w, n)
  }

  /** Going round again is progress. */
  lemma NextTurn(w: Progress, dontblock: bool, core: seq<Answer>)
    requires Consistent(w) && w.cnt > 0 && GoesOn(w, dontblock, core)
    ensures var next := Advanced(w, Chunk(w, Ask(core).available));
      && Consistent(next) && next.cnt > 0 && w.offset <= next.offset <= next.len == w.len
      && (next.offset > w.offset || next.cnt < w.cnt)
  {
    var n := Chunk(w, Ask(core).available);
    AdvancedConsistent(w, n);
    OffsetBound(Advanced(w, n));
  }

  lemma LoopUnfolds(w: Progress, dontblock: bool, core: seq<Answer>)
    requires Consistent(w) && w.cnt > 0 && GoesOn(w, dontblock, core)
    requires var next := Advanced(w, Chunk(w, Ask(core).available)); Consistent(next) && next.cnt > 0
    ensures var n := Chunk(w, Ask(core).available);
      var rest := Loop(Advanced(w, n), dontblock, Later(core));
      Loop(w, dontblock, core) == Out(rest.w, w.vectors[w.at][w.off..w.off + n] + rest.bytes, rest.end)
  {
  }

  predicate EndOk(r: Out, dontblock: bool)
    requires r.w.at < |r.w.vectors| && r.w.off <= |r.w.vectors[r.w.at]|
  {
    && (r.end.NoSpace? ==> dontblock)
    && (r.end.Stalled? ==> !dontblock && r.w.cnt > 1 && Left(r.w) > U16_MAX && Left(r.w) % 0x1_0000 == 0)
    && (r.end.Ended? && r.end.err != OK ==> r.w.offset < r.w.len)
  }

  lemma LoopLast(w: Progress, dontblock: bool, core: seq<Answer>)
    requires Consistent(w) && w.cnt > 0 && !GoesOn(w, dontblock, core)
    ensures var r := Loop(w, dontblock, core); Wrote(w, r.bytes, r.w) && EndOk(r, dontblock)
  {
    OffsetBound(w);
    WroteNothing(w);
    WroteChunk(w, Chunk(w, Ask(core).available));
  }

  /** One more chunk in front of an exact rest. */
  lemma LoopRound(w: Progress, dontblock: bool, core: seq<Answer>, rest: Out)
    requires Consistent(w) && w.cnt > 0 && GoesOn(w, dontblock, core)
    requires var next := Advanced(w, Chunk(w, Ask(core).available));
      Consistent(next) && Wrote(next, rest.bytes, rest.w)
    ensures Wrote(w, w.vectors[w.at][w.off..w.off + Chunk(w, Ask(core).available)] + rest.bytes, rest.w)
  {
    var n := Chunk(w, Ask(core).available);
    WroteChunk(w, n);
    WroteMore(w, w.vectors[w.at][w.off..w.off + n], Advanced(w, n), rest.bytes, rest.w);
  }

  /** Whatever the core answers, the loop writes exactly the next bytes of the flattened
      vectors, and it stalls only for a blocking write in the state singled out above. */
  lemma {:induction false} LoopIsExact(w: Progress, dontblock: bool, core: seq<Answer>)
    requires Consistent(w) && w.cnt > 0
    ensures var r := Loop(w, dontblock, core); Wrote(w, r.bytes, r.w) && EndOk(r, dontblock)
    decreases w.len - w.offset, w.cnt
  {
    OffsetBound(w);
    if GoesOn(w, dontblock, core) {
      NextTurn(w, dontblock, core);
      LoopUnfolds(w, dontblock, core);
      var next := Advanced(w, Chunk(w, Ask(core).available));
      LoopIsExact(next, dontblock, Later(core));
      LoopRound(w, dontblock, core, Loop(next, dontblock, Later(core)));
    } else {
      LoopLast(w, dontblock, core);
    }
  }

  /** One turn of the loop as the code takes it. */
  method WriteChunk(start: Progress, dontblock: bool, core: seq<Answer>)
    returns (w: Progress, bytes: seq<byte>, writeMore: bool, end: End)
    requires Consistent(start) && start.cnt > 0
    ensures writeMore <==> GoesOn(start, dontblock, core)
    ensures writeMore ==> var n := Chunk(start, Ask(core).available);
      w == Advanced(start, n) && bytes == start.vectors[start.at][start.off..start.off + n]
    ensures !writeMore ==> Out(w, bytes, end) == Loop(start, dontblock, core)
  {
    var diff := |start.vectors[start.at]| - start.off;
    var n := if diff > U16_MAX then U16_MAX else diff;
    var answer := Ask(core);
    if answer.available < n {
      n := answer.available;
      if dontblock && n == 0 {
        return start, [], false, NoSpace;
      }
    }
    writeMore := (n == U16_MAX && diff > U16_MAX) || (n == diff % 0x1_0000 && start.cnt > 1);
    if n > 0 && answer.err != OK {
      return start, [], false, Ended(answer.err);
    }
    if writeMore && n == 0 && diff > 0 {
      return start, [], false, Stalled;
    }
    bytes := start.vectors[start.at][start.off..start.off + n];
    w := start.(offset := start.offset + n, off := start.off + n);
    if w.off == |w.vectors[w.at]| {
      w := w.(cnt := w.cnt - 1);
      if w.cnt > 0 {
        w := w.(at := w.at + 1, off := 0);
      }
    }
    end := Ended(OK);
  }

  /** The loop as the code runs it. */
  method WriteLoop(start: Progress, dontblock: bool, answers: seq<Answer>)
    returns (w: Progress, bytes: seq<byte>, end: End)
    requires Consistent(start) && start.cnt > 0
    ensures Out(w, bytes, end) == Loop(start, dontblock, answers)
  {
    OffsetBound(start);
    ghost var all := Loop(start, dontblock, answers);
    var core, writeMore := answers, true;
    w, bytes, end := start, [], Ended(OK);
    while writeMore
      invariant writeMore ==> Consistent(w) && w.cnt > 0 && w.offset <= w.len
      invariant writeMore ==> var rest := Loop(w, dontblock, core); all == Out(rest.w, bytes + rest.bytes, rest.end)
      invariant !writeMore ==> all == Out(w, bytes, end)
      decreases writeMore, if writeMore then w.len - w.offset else 0, w.cnt
    {
      var next, chunk;
      next, chunk, writeMore, end := WriteChunk(w, dontblock, core);
      if writeMore {
        NextTurn(w, dontblock, core);
        LoopUnfolds(w, dontblock, core);
        Regroup(bytes, chunk, Loop(next, dontblock, Later(core)).bytes);
      }
      w, bytes, core := next, bytes + chunk, Later(core);
    }
  }

  // ---- One invocation of do_writemore

  /** What an invocation does: the position and bytes of its loop, the error it completes
      the message with if it completes it, and whether it hangs in the loop instead. */
  datatype Invocation = Invocation(w: Progress, bytes: seq<byte>, done: Option<Err>, stalled: bool)

  /** From leaving the loop to the end; `noRoute` is tcp_output answering ERR_RTE. */
  function Conclude(r: Out, dontblock: bool, noRoute: bool): Invocation {
    match r.end
    case Stalled => Invocation(r.w, r.bytes, None, true)
    case NoSpace =>
      if r.w.offset == 0 then Invocation(r.w, r.bytes, Some(WOULDBLOCK), false)
      else Invocation(r.w, r.bytes, Some(if noRoute then RTE else OK), false)
    case Ended(err) =>
      if err == OK then
        Invocation(r.w, r.bytes,
                   if noRoute then Some(RTE) else if r.w.offset == r.w.len || dontblock then Some(OK) else None, false)
      else if err == MEM then
        Invocation(r.w, r.bytes,
                   if noRoute then Some(RTE)
                   else if dontblock then Some(if r.w.offset == 0 then WOULDBLOCK else OK)
                   else None, false)
      else Invocation(r.w, r.bytes, Some(err), false)
  }

  function Invoke(w: Progress, dontblock: bool, core: seq<Answer>, noRoute: bool): Invocation
    requires Consistent(w) && w.cnt > 0
  {
    Conclude(Loop(w, dontblock, core), dontblock, noRoute)
  }

  /** The errors tcp_write and tcp_output return of their own accord. */
  predicate CoreErr(err: Err) {
    err != WOULDBLOCK
  }

  ghost predicate CoreErrs(core: seq<Answer>) {
    forall k :: 0 <= k < |core| ==> CoreErr(core[k].err)
  }

  lemma {:induction false} LoopError(w: Progress, dontblock: bool, core: seq<Answer>)
    requires Consistent(w) && w.cnt > 0 && CoreErrs(core)
    ensures var r := Loop(w, dontblock, core); r.end.Ended? ==> r.end.err != WOULDBLOCK
    decreases w.len - w.offset, w.cnt
  {
    OffsetBound(w);
    if GoesOn(w, dontblock, core) {
      NextTurn(w, dontblock, core);
      LoopUnfolds(w, dontblock, core);
      LoopError(Advanced(w, Chunk(w, Ask(core).available)), dontblock, Later(core));
    }
  }

  /** A non-blocking loop that ends well with something left to write has written some of it. */
  lemma {:induction false} SomethingWritten(w: Progress, core: seq<Answer>)
    requires Consistent(w) && w.cnt > 0 && w.offset < w.len
    ensures var r := Loop(w, true, core); r.end == Ended(OK) ==> r.w.offset > w.offset
    decreases w.len - w.offset, w.cnt
  {
    OffsetBound(w);
    AdvancedConsistent(w, Chunk(w, Ask(core).available));
    OffsetBound(Advanced(w, Chunk(w, Ask(core).available)));
    if GoesOn(w, true, core) {
      NextTurn(w, true, core);
      LoopUnfolds(w, true, core);
      var next := Advanced(w, Chunk(w, Ask(core).available));
      LoopIsExact(next, true, Later(core));
      if next.offset == w.offset {
        SomethingWritten(next, Later(core));
      }
    }
  }

  lemma ConclusionIsExact(w: Progress, dontblock: bool, r: Out, noRoute: bool)
    requires Consistent(w) && Wrote(w, r.bytes, r.w) && EndOk(r, dontblock)
    requires r.end.Ended? ==> r.end.err != WOULDBLOCK
    requires dontblock && w.offset < w.len && r.end == Ended(OK) ==> r.w.offset > w.offset
    ensures var c := Conclude(r, dontblock, noRoute);
      && (dontblock ==> c.done.Some? && !c.stalled)
      && (c.done == Some(WOULDBLOCK) ==> dontblock && c.w.offset == 0)
      && (c.done == Some(OK) && !dontblock ==> c.w.offset == c.w.len)
      && (c.done == Some(OK) && w.offset < w.len ==> c.w.offset > 0)
      && (c.done.None? ==> !dontblock && (c.stalled || (c.w.offset < c.w.len && c.w.cnt > 0)))
  {
    OffsetBound(r.w);
  }

  /** One invocation: exact bytes; a non-blocking write completes, and reports WOULDBLOCK only
      if nothing has been written and ERR_OK only if something has; a blocking write that
      completes with ERR_OK has written everything; and one that does not complete leaves
      something to write. */
  lemma InvokeIsExact(w: Progress, dontblock: bool, core: seq<Answer>, noRoute: bool)
    requires Consistent(w) && w.cnt > 0 && CoreErrs(core)
    ensures var r := Invoke(w, dontblock, core, noRoute);
      && Wrote(w, r.bytes, r.w)
      && (dontblock ==> r.done.Some? && !r.stalled)
      && (r.done == Some(WOULDBLOCK) ==> dontblock && r.w.offset == 0)
      && (r.done == Some(OK) && !dontblock ==> r.w.offset == r.w.len)
      && (r.done == Some(OK) && w.offset < w.len ==> r.w.offset > 0)
      && (r.done.None? ==> !dontblock && (r.stalled || (r.w.offset < r.w.len && r.w.cnt > 0)))
  {
    LoopIsExact(w, dontblock, core);
    LoopError(w, dontblock, core);
    if dontblock && w.offset < w.len { SomethingWritten(w, core); }
    ConclusionIsExact(w, dontblock, Loop(w, dontblock, core), noRoute);
  }

  /** The loop gets to its turn `k`, in which the core refuses the bytes it is given with `err`. */
  ghost predicate RefusedAt(w: Progress, dontblock: bool, core: seq<Answer>, k: nat, err: Err)
    requires Consistent(w) && w.cnt > 0
    decreases k
  {
    if k == 0 then Left(w) > 0 && Ask(core).available > 0 && Ask(core).err == err
    else
      && GoesOn(w, dontblock, core)
      && (NextTurn(w, dontblock, core);
          RefusedAt(Advanced(w, Chunk(w, Ask(core).available)), dontblock, Later(core), k - 1, err))
  }

  /** The core refuses some bytes of an invocation with `err`. */
  ghost predicate Refuses(w: Progress, dontblock: bool, core: seq<Answer>, err: Err)
    requires Consistent(w) && w.cnt > 0
  {
    exists k: nat :: RefusedAt(w, dontblock, core, k, err)
  }

  lemma {:induction false} RefusalEndsLoop(w: Progress, dontblock: bool, core: seq<Answer>, k: nat, err: Err)
    requires Consistent(w) && w.cnt > 0 && err != OK && RefusedAt(w, dontblock, core, k, err)
    ensures Loop(w, dontblock, core).end == Ended(err)
    decreases k
  {
    OffsetBound(w);
    if k > 0 {
      NextTurn(w, dontblock, core);
      LoopUnfolds(w, dontblock, core);
      RefusalEndsLoop(Advanced(w, Chunk(w, Ask(core).available)), dontblock, Later(core), k - 1, err);
    }
  }

  lemma {:induction false} EndIsRefusal(w: Progress, dontblock: bool, core: seq<Answer>, err: Err) returns (k: nat)
    requires Consistent(w) && w.cnt > 0 && err != OK && Loop(w, dontblock, core).end == Ended(err)
    ensures RefusedAt(w, dontblock, core, k, err)
    decreases w.len - w.offset, w.cnt
  {
    OffsetBound(w);
    k := 0;
    if GoesOn(w, dontblock, core) {
      NextTurn(w, dontblock, core);
      LoopUnfolds(w, dontblock, core);
      var j := EndIsRefusal(Advanced(w, Chunk(w, Ask(core).available)), dontblock, Later(core), err);
      k := j + 1;
    }
  }

  /** An invocation completes the write with an error of the core if and only if tcp_write has
      refused some bytes with it; without a route it never reports success. */
  lemma FatalErrorIsReported(w: Progress, dontblock: bool, core: seq<Answer>, noRoute: bool)
    requires Consistent(w) && w.cnt > 0 && CoreErrs(core)
    ensures var r := Invoke(w, dontblock, core, noRoute);
      && (forall err :: err !in {OK, MEM, RTE, WOULDBLOCK} ==>
            (r.done == Some(err) <==> Refuses(w, dontblock, core, err)))
      && (Refuses(w, dontblock, core, RTE) ==> r.done == Some(RTE))
      && (r.done == Some(RTE) ==> noRoute || Refuses(w, dontblock, core, RTE))
      && r.done != Some(MEM)
      && (noRoute ==>
            r.stalled || (r.done.Some? && r.done != Some(OK) && (r.done == Some(WOULDBLOCK) ==> r.bytes == [])))
  {
    var r := Loop(w, dontblock, core);
    LoopError(w, dontblock, core);
    LoopIsExact(w, dontblock, core);
    forall err | err !in {OK, MEM, WOULDBLOCK} ensures r.end == Ended(err) <==> Refuses(w, dontblock, core, err) {
      if r.end == Ended(err) {
        var k := EndIsRefusal(w, dontblock, core, err);
      }
      if k: nat :| RefusedAt(w, dontblock, core, k, err) {
        RefusalEndsLoop(w, dontblock, core, k, err);
      }
    }
  }

  /** In turn `k` there is less room than the rest of the vector takes, and all of it is used. */
  ghost predicate RoomEndsAt(w: Progress, dontblock: bool, core: seq<Answer>, k: nat, end: Progress)
    requires Consistent(w) && w.cnt > 0
    decreases k
  {
    if k == 0 then Ask(core).available < Left(w) && end.offset == w.offset + Ask(core).available
    else
      && GoesOn(w, dontblock, core)
      && (NextTurn(w, dontblock, core);
          RoomEndsAt(Advanced(w, Chunk(w, Ask(core).available)), dontblock, Later(core), k - 1, end))
  }

  /** A loop that ends with something left to write, but not because the core has refused it, has
      used up the room it found. */
  lemma {:induction false} LoopUsesTheRoom(w: Progress, dontblock: bool, core: seq<Answer>) returns (k: nat)
    requires Consistent(w) && w.cnt > 0
    ensures var r := Loop(w, dontblock, core);
      (r.end.NoSpace? || r.end == Ended(OK)) && r.w.offset < w.len ==> RoomEndsAt(w, dontblock, core, k, r.w)
    decreases w.len - w.offset, w.cnt
  {
    OffsetBound(w);
    k := 0;
    var n := Chunk(w, Ask(core).available);
    AdvancedConsistent(w, n);
    OffsetBound(Advanced(w, n));
    if GoesOn(w, dontblock, core) {
      NextTurn(w, dontblock, core);
      LoopUnfolds(w, dontblock, core);
      var j := LoopUsesTheRoom(Advanced(w, n), dontblock, Later(core));
      k := j + 1;
    }
  }

  /** The core refuses nothing but for lack of memory. */
  predicate ShortOnly(core: seq<Answer>) {
    forall k :: 0 <= k < |core| ==> core[k].err == OK || core[k].err == MEM
  }

  lemma {:induction false} ShortEnd(w: Progress, dontblock: bool, core: seq<Answer>)
    requires Consistent(w) && w.cnt > 0 && ShortOnly(core)
    ensures var r := Loop(w, dontblock, core); r.end.Ended? ==> r.end.err == OK || r.end.err == MEM
    decreases w.len - w.offset, w.cnt
  {
    OffsetBound(w);
    if GoesOn(w, dontblock, core) {
      NextTurn(w, dontblock, core);
      LoopUnfolds(w, dontblock, core);
      ShortEnd(Advanced(w, Chunk(w, Ask(core).available)), dontblock, Later(core));
    }
  }

  /** An invocation that is short of nothing but space and memory: a non-blocking write reports
      WOULDBLOCK if and only if nothing has been written at all, and a blocking one goes on
      until everything has been. */
  lemma ShortInvocation(w: Progress, dontblock: bool, core: seq<Answer>)
    requires Consistent(w) && w.cnt > 0 && w.offset < w.len && CoreErrs(core) && ShortOnly(core)
    ensures var r := Invoke(w, dontblock, core, false);
      && (dontblock ==> r.done == Some(if r.w.offset == 0 then WOULDBLOCK else OK))
      && (!dontblock ==> r.done == (if r.w.offset == w.len then Some(OK) else None))
  {
    InvokeIsExact(w, dontblock, core, false);
    LoopIsExact(w, dontblock, core);
    ShortEnd(w, dontblock, core);
    OffsetBound(Loop(w, dontblock, core).w);
    if dontblock { SomethingWritten(w, core); }
  }

  // ---- A whole write: do_write, then any number of sent and poll callbacks

  datatype Call = Call(core: seq<Answer>, noRoute: bool)

  ghost predicate GoodCalls(calls: seq<Call>) {
    forall k :: 0 <= k < |calls| ==> CoreErrs(calls[k].core)
  }

  datatype Write = Writing(w: Progress) | Written(w: Progress, err: Err) | Hung(w: Progress)

  /** What a write has come to after `calls` invocations, and the bytes tcp_write accepted. */
  ghost function Run(w: Progress, dontblock: bool, calls: seq<Call>): (Write, seq<byte>)
    requires Consistent(w) && w.cnt > 0
    requires GoodCalls(calls)
    decreases |calls|
  {
    if calls == [] then (Writing(w), [])
    else
      InvokeIsExact(w, dontblock, calls[0].core, calls[0].noRoute);
      var r := Invoke(w, dontblock, calls[0].core, calls[0].noRoute);
      if r.stalled then (Hung(r.w), r.bytes)
      else if r.done.Some? then (Written(r.w, r.done.value), r.bytes)
      else
        var rest := Run(r.w, dontblock, calls[1..]);
        (rest.0, r.bytes + rest.1)
  }

  /** The start of netconn_write_vectors_partly: all vectors, nothing written. */
  function Begin(vectors: seq<seq<byte>>): Progress {
    Progress(vectors, 0, 0, |vectors|, 0, |Flatten(vectors)|)
  }

  /** What netconn_write_vectors_partly does with its arguments: refuse them, find nothing to
      write, submit a write, or submit one limited to SSIZE_MAX bytes. */
  datatype Prepared = Refused(err: Err) | NothingToDo | Submitted(w: Progress) | Limited

  /** The sum of the vector lengths, unless it overflows a size_t. */
  method TotalSize(vectors: seq<seq<byte>>) returns (size: Option<nat>)
    requires forall v :: v in vectors ==> |v| <= SIZE_MAX
    ensures size == if |Flatten(vectors)| <= SIZE_MAX then Some(|Flatten(vectors)|) else None
  {
    var total: nat := 0;
    assert vectors[..0] == [];
    for i := 0 to |vectors|
      invariant total == |Flatten(vectors[..i])| <= SIZE_MAX
    {
      FlattenNext(vectors, i);
      assert vectors[i] in vectors;
      total := (total + |vectors[i]|) % (SIZE_MAX + 1);
      if total < |vectors[i]| {
        SplitAt(vectors, i);
        return None;
      }
    }
    assert vectors[..|vectors|] == vectors;
    return Some(total);
  }

  /** netconn_write_vectors_partly up to submitting the message; `counts` says whether the
      caller asked for the number of bytes written. */
  method Prepare(vectors: seq<seq<byte>>, dontblock: bool, counts: bool) returns (r: Prepared)
    requires forall v :: v in vectors ==> |v| <= SIZE_MAX
    ensures var total := |Flatten(vectors)|;
      && (r == Refused(VAL) <==>
           (dontblock && !counts) || total > SIZE_MAX || (total > SSIZE_MAX && !counts))
      && (r.NothingToDo? ==> total == 0)
      && (r.Submitted? ==> 0 < total <= SSIZE_MAX && vectors != [] && r.w == Begin(vectors) && Consistent(r.w))
      && (r.Limited? ==> SSIZE_MAX < total <= SIZE_MAX && counts)
      && (r.Refused? ==> r.err == VAL)
  {
    if dontblock && !counts {
      return Refused(VAL);
    }
    var size := TotalSize(vectors);
    if size.None? {
      return Refused(VAL);
    }
    if size.value == 0 {
      return NothingToDo;
    }
    if size.value > SSIZE_MAX {
      return if counts then Limited else Refused(VAL);
    }
    BeginConsistent(vectors);
    return Submitted(Begin(vectors));
  }

  lemma BeginConsistent(vectors: seq<seq<byte>>)
    requires vectors != []
    ensures Consistent(Begin(vectors)) && Begin(vectors).cnt > 0
  {
    assert vectors[..0] == [];
  }

  lemma {:induction false} RunIsExact(w: Progress, dontblock: bool, calls: seq<Call>)
    requires Consistent(w) && w.cnt > 0
    requires GoodCalls(calls)
    ensures var (end, bytes) := Run(w, dontblock, calls);
      && Wrote(w, bytes, end.w)
      && (end.Written? && end.err == OK && !dontblock ==> end.w.offset == |Flatten(w.vectors)|)
      && (end.Written? && end.err == WOULDBLOCK ==> dontblock && end.w.offset == 0)
      && (end.Written? && end.err == OK && w.offset < w.len ==> end.w.offset > 0)
      && (dontblock && calls != [] ==> end.Written?)
    decreases |calls|
  {
    if calls != [] {
      InvokeIsExact(w, dontblock, calls[0].core, calls[0].noRoute);
      var r := Invoke(w, dontblock, calls[0].core, calls[0].noRoute);
      if !r.stalled && r.done.None? {
        RunIsExact(r.w, dontblock, calls[1..]);
        var rest := Run(r.w, dontblock, calls[1..]);
        WroteMore(w, r.bytes, r.w, rest.1, rest.0.w);
      }
    } else {
      WroteNothing(w);
    }
  }

  /** Vectored write is byte-exact over any run of callbacks and any answers of the core:
      what tcp_write accepted is the first `offset` bytes of the flattened vectors; a
      blocking write that completes with ERR_OK has written all of them; a non-blocking one
      completes in its first invocation, with WOULDBLOCK only if it wrote nothing and with
      ERR_OK only if it wrote something. */
  lemma VectoredWriteIsExact(vectors: seq<seq<byte>>, dontblock: bool, calls: seq<Call>)
    requires vectors != [] && GoodCalls(calls)
    ensures Consistent(Begin(vectors))
    ensures var (end, bytes) := Run(Begin(vectors), dontblock, calls);
      && end.w.offset <= |Flatten(vectors)| && bytes == Flatten(vectors)[..end.w.offset]
      && (end.Written? && end.err == OK && !dontblock ==> bytes == Flatten(vectors))
      && (end.Written? && end.err == WOULDBLOCK ==> dontblock && bytes == [])
      && (end.Written? && end.err == OK && Flatten(vectors) != [] ==> bytes != [])
      && (dontblock && calls != [] ==> Run(Begin(vectors), dontblock, calls[..1]).0.Written?)
  {
    BeginConsistent(vectors);
    RunIsExact(Begin(vectors), dontblock, calls);
    if calls != [] { RunIsExact(Begin(vectors), dontblock, calls[..1]); }
  }

  ghost predicate ShortCalls(calls: seq<Call>) {
    forall k :: 0 <= k < |calls| ==> CoreErrs(calls[k].core) && ShortOnly(calls[k].core) && !calls[k].noRoute
  }

  lemma {:induction false} BlockedShort(w: Progress, calls: seq<Call>)
    requires Consistent(w) && w.cnt > 0 && w.offset < w.len && ShortCalls(calls)
    ensures var end := Run(w, false, calls).0;
      && (end.Written? ==> end.err == OK) && (end.Written? <==> end.w.offset == w.len)
    decreases |calls|
  {
    if calls != [] {
      InvokeIsExact(w, false, calls[0].core, calls[0].noRoute);
      ShortInvocation(w, false, calls[0].core);
      var r := Invoke(w, false, calls[0].core, false);
      LoopIsExact(w, false, calls[0].core);
      if !r.stalled && r.done.None? { BlockedShort(r.w, calls[1..]); }
    }
  }

  /** What a write reports that is short of nothing but space and memory, over any run of
      callbacks: a non-blocking one WOULDBLOCK if no byte has been accepted and ERR_OK
      otherwise; a blocking one ERR_OK, when and only when every byte has been. */
  lemma ShortWriteReports(vectors: seq<seq<byte>>, dontblock: bool, calls: seq<Call>)
    requires vectors != [] && Flatten(vectors) != [] && ShortCalls(calls) && calls != []
    ensures Consistent(Begin(vectors))
    ensures var (end, bytes) := Run(Begin(vectors), dontblock, calls);
      if dontblock then end == Written(end.w, if bytes == [] then WOULDBLOCK else OK)
      else (end.Written? <==> bytes == Flatten(vectors)) && (end.Written? ==> end.err == OK)
  {
    BeginConsistent(vectors);
    VectoredWriteIsExact(vectors, dontblock, calls);
    if dontblock {
      InvokeIsExact(Begin(vectors), true, calls[0].core, calls[0].noRoute);
      ShortInvocation(Begin(vectors), true, calls[0].core);
    } else {
      BlockedShort(Begin(vectors), calls);
    }
  }

  /** The invocation `j` of a write refuses bytes with `err`, or finds no route. */
  ghost predicate RefusedIn(w: Progress, dontblock: bool, calls: seq<Call>, j: nat, err: Err)
    requires Consistent(w) && w.cnt > 0 && GoodCalls(calls) && j < |calls|
    decreases j
  {
    InvokeIsExact(w, dontblock, calls[0].core, calls[0].noRoute);
    var r := Invoke(w, dontblock, calls[0].core, calls[0].noRoute);
    if j == 0 then Refuses(w, dontblock, calls[0].core, err) || (calls[0].noRoute && err == RTE)
    else r.done.None? && !r.stalled && RefusedIn(r.w, dontblock, calls[1..], j - 1, err)
  }

  /** A write that ends with anything but success or WOULDBLOCK ends with the error of the
      invocation that the core refused. */
  lemma {:induction false} FailedWriteReports(w: Progress, dontblock: bool, calls: seq<Call>)
    requires Consistent(w) && w.cnt > 0 && GoodCalls(calls)
    ensures var end := Run(w, dontblock, calls).0;
      end.Written? && end.err != OK && end.err != WOULDBLOCK ==>
        end.err != MEM && exists j: nat :: j < |calls| && RefusedIn(w, dontblock, calls, j, end.err)
    decreases |calls|
  {
    if calls != [] {
      InvokeIsExact(w, dontblock, calls[0].core, calls[0].noRoute);
      FatalErrorIsReported(w, dontblock, calls[0].core, calls[0].noRoute);
      var r := Invoke(w, dontblock, calls[0].core, calls[0].noRoute);
      var end := Run(w, dontblock, calls).0;
      if r.stalled || r.done.Some? {
        if end.Written? && end.err != OK && end.err != WOULDBLOCK {
          assert RefusedIn(w, dontblock, calls, 0, end.err);
        }
      } else {
        FailedWriteReports(r.w, dontblock, calls[1..]);
        if end.Written? && end.err != OK && end.err != WOULDBLOCK {
          var j: nat :| j < |calls[1..]| && RefusedIn(r.w, dontblock, calls[1..], j, end.err);
          assert RefusedIn(w, dontblock, calls, j + 1, end.err);
        }
      }
    }
  }

  // ---- When a write can hang

  /** A vector before the last one that is longer than a chunk can be. */
  predicate LongBeforeLast(vectors: seq<seq<byte>>) {
    exists k :: 0 <= k < |vectors| - 1 && |vectors[k]| > U16_MAX
  }

  /** Where a write hangs, there is such a vector. */
  lemma {:induction false} HungNeedsLong(w: Progress, dontblock: bool, calls: seq<Call>)
    requires Consistent(w) && w.cnt > 0
    requires GoodCalls(calls)
    ensures Run(w, dontblock, calls).0.Hung? ==> !dontblock && LongBeforeLast(w.vectors)
    decreases |calls|
  {
    if calls != [] {
      InvokeIsExact(w, dontblock, calls[0].core, calls[0].noRoute);
      LoopIsExact(w, dontblock, calls[0].core);
      var r := Invoke(w, dontblock, calls[0].core, calls[0].noRoute);
      if r.stalled {
        assert r.w.vectors == w.vectors && |r.w.vectors[r.w.at]| > U16_MAX && r.w.at < |w.vectors| - 1;
      } else if r.done.None? {
        HungNeedsLong(r.w, dontblock, calls[1..]);
      }
    }
  }

  /** Vectors of no bytes are passed over; the loop stops at the first byte it may not send. */
  lemma {:induction false} PassesEmpty(w: Progress, k: nat)
    requires Consistent(w) && w.cnt > 0 && w.at <= k < |w.vectors| && (w.at < k || Left(w) > 0)
    requires |w.vectors[k]| > 0
    ensures var r := Loop(w, false, []);
      && r.w.vectors == w.vectors && r.w.offset == w.offset && r.w.at <= k && r.w.cnt > 0 && r.end == Ended(MEM)
      && (w.at == k ==> r.w == w) && (r.w.at == k && w.at < k ==> r.w.off == 0)
      && (Left(w) == 0 ==> r.w.cnt < w.cnt)
    decreases w.cnt
  {
    OffsetBound(w);
    if Left(w) == 0 {
      AdvancedConsistent(w, 0);
      assert GoesOn(w, false, []);
      NextTurn(w, false, []);
      LoopUnfolds(w, false, []);
      PassesEmpty(Advanced(w, 0), k);
    }
  }

  /** The write has not come further than 65536 bytes before the end of vector `k`. */
  ghost predicate Before(w: Progress, k: nat) {
    && Consistent(w) && w.cnt > 0 && w.at <= k < |w.vectors| - 1 && |w.vectors[k]| > U16_MAX
    && (w.at == k ==> w.off + 0x1_0000 <= |w.vectors[k]|)
  }

  /** How many bytes to let through next. */
  function Grant(w: Progress, k: nat): nat
    requires w.at <= k < |w.vectors| && w.off <= |w.vectors[w.at]|
    requires w.at == k ==> w.off + 0x1_0000 <= |w.vectors[k]|
  {
    var all := if w.at == k then |w.vectors[k]| - 0x1_0000 - w.off else Left(w);
    if all > U16_MAX then U16_MAX else all
  }

  /** Letting them through leaves the write blocked, further on, and still before the place. */
  lemma GrantOne(w: Progress, k: nat)
    requires Before(w, k) && Grant(w, k) > 0
    ensures var r := Loop(w, false, [Answer(Grant(w, k), OK)]);
      Before(r.w, k) && r.w.vectors == w.vectors && r.w.offset == w.offset + Grant(w, k) && r.w.offset < r.w.len
      && (r.end == Ended(OK) || r.end == Ended(MEM))
  {
    var n, core := Grant(w, k), [Answer(Grant(w, k), OK)];
    assert Ask(core) == Answer(n, OK) && Later(core) == [];
    assert Chunk(w, n) == n;
    var next := Advanced(w, n);
    AdvancedConsistent(w, n);
    RoomLeft(next, k);
    if More(w, n) {
      NextTurn(w, false, core);
      LoopUnfolds(w, false, core);
      PassesEmpty(next, k);
      RoomLeft(Loop(next, false, []).w, k);
    }
  }

  lemma RoomLeft(w: Progress, k: nat)
    requires Before(w, k)
    ensures w.offset < w.len
  {
    OffsetBound(w);
    if w.at < k {
      SplitAt(w.vectors, k);
      FlattenPrefix(w.vectors, w.at + 1, k);
      FlattenNext(w.vectors, w.at);
    }
  }

  lemma {:induction false} FlattenPrefix(vectors: seq<seq<byte>>, i: nat, j: nat)
    requires i <= j <= |vectors|
    ensures |Flatten(vectors[..i])| <= |Flatten(vectors[..j])|
    decreases j - i
  {
    if i < j {
      FlattenNext(vectors, i);
      FlattenPrefix(vectors, i + 1, j);
    }
  }

  lemma OneCall(w: Progress, core: seq<Answer>, rest: seq<Call>)
    requires Consistent(w) && w.cnt > 0 && CoreErrs(core) && GoodCalls(rest)
    requires var r := Invoke(w, false, core, false); r.done.None? && !r.stalled && Consistent(r.w) && r.w.cnt > 0
    ensures var calls := [Call(core, false)] + rest;
      && GoodCalls(calls)
      && Run(w, false, calls).0 == Run(Invoke(w, false, core, false).w, false, rest).0
  {
    var calls := [Call(core, false)] + rest;
    assert calls[0] == Call(core, false) && calls[1..] == rest;
    forall k | 0 <= k < |calls| ensures CoreErrs(calls[k].core) {
      assert k > 0 ==> calls[k] == rest[k - 1];
    }
  }

  /** At the place, a full send buffer makes the write hang. */
  lemma HangsHere(w: Progress, k: nat)
    requires Before(w, k) && w.at == k && w.off + 0x1_0000 == |w.vectors[k]|
    ensures CoreErrs([Answer(0, OK)]) && Run(w, false, [Call([Answer(0, OK)], false)]).0.Hung?
  {
    assert Ask([Answer(0, OK)]) == Answer(0, OK);
    assert Stalls(w, 0);
    assert Invoke(w, false, [Answer(0, OK)], false).stalled;
  }

  lemma {:induction false} CanHang(w: Progress, k: nat) returns (calls: seq<Call>)
    requires Before(w, k)
    ensures GoodCalls(calls) && Run(w, false, calls).0.Hung?
    decreases w.len - w.offset, w.cnt
  {
    OffsetBound(w);
    if w.at == k && Grant(w, k) == 0 {
      HangsHere(w, k);
      calls := [Call([Answer(0, OK)], false)];
    } else if Grant(w, k) > 0 {
      GrantOne(w, k);
      var core := [Answer(Grant(w, k), OK)];
      calls := CanHang(Loop(w, false, core).w, k);
      OneCall(w, core, calls);
      calls := [Call(core, false)] + calls;
    } else {
      PassesEmpty(w, k);
      calls := CanHang(Loop(w, false, []).w, k);
      OneCall(w, [], calls);
      calls := [Call([], false)] + calls;
    }
  }

  /** A blocking write of some vectors can hang if and only if one of them, other than the
      last, is longer than 65535 bytes; a non-blocking one never does. */
  lemma HangsIffLong(vectors: seq<seq<byte>>)
    requires vectors != []
    ensures Consistent(Begin(vectors))
    ensures LongBeforeLast(vectors) <==>
      exists calls :: GoodCalls(calls) && Run(Begin(vectors), false, calls).0.Hung?
    ensures forall calls :: GoodCalls(calls) ==> !Run(Begin(vectors), true, calls).0.Hung?
  {
    BeginConsistent(vectors);
    if LongBeforeLast(vectors) {
      var k :| 0 <= k < |vectors| - 1 && |vectors[k]| > U16_MAX;
      var calls := CanHang(Begin(vectors), k);
    }
    forall calls: seq<Call>, dontblock | GoodCalls(calls)
      ensures Run(Begin(vectors), dontblock, calls).0.Hung? ==> !dontblock && LongBeforeLast(vectors)
    {
      HungNeedsLong(Begin(vectors), dontblock, calls);
    }
  }
}
