/** The end of the stream, over whole runs of receive calls: a FIN that has been delivered is
    told exactly once, after the last byte. */
module RecvEnd {
  import opened Common
  import opened RecvSpec
  import opened RecvPeek

  /** A FIN that has arrived is kept, or in the mailbox, until it is told, which closes the
      mailbox. */
  predicate FinKept(s: Rx) {
    s.phase == Finished && s.waitable ==> s.finPending || Fin in s.mbox
  }

  lemma {:induction false} DeliveredFin(s: Rx, items: seq<Item>)
    requires FinKept(s) && InOrder(s.phase, items)
    ensures FinKept(Delivered(s, items).0)
    decreases |items|
  {
    if items != [] && !Refuses(s, items[0]) {
      var next := Arrived(s, items[0]);
      assert items[0].Fin? && s.waitable ==> next.mbox[|s.mbox|] == Fin;
      DeliveredFin(next, items[1..]);
    }
  }

  lemma {:induction false} WaitedFin(s: Rx, tryOnly: bool, script: seq<seq<Item>>, due: (seq<byte>, Phase))
    requires Inv(s) && FinKept(s) && Expecting(s, script, due)
    ensures FinKept(Waited(s, tryOnly, script).0)
    decreases |script|
  {
    var r := Awaited(s, script);
    AwaitedKeeps(s, script, due);
    if script != [] {
      InOrderAppend(s.phase, script[0], All(script[1..]));
      DeliveredFin(s, script[0]);
    }
    if r.0.mbox == [] && !tryOnly && r.1 != [] {
      WaitedFin(r.0, tryOnly, r.1, due);
    }
  }

  /** A kept FIN is the next thing to tell, and once it is told nothing is left. */
  predicate Tidy(s: Rx) {
    FinKept(s) && (s.finPending || !s.waitable ==> s.lastdata.None?)
  }

  /** What a look does about the end: it tells it exactly if it closes the mailbox, which it
      does not if it finds data or is to leave a FIN alone. */
  predicate Tells(s: Rx, got: Received, s': Rx, nofin: bool) {
    && Tidy(s') && (s'.waitable ==> s.waitable)
    && (got.Bytes? ==> !s'.finPending && s'.waitable == s.waitable)
    && (nofin ==> s'.waitable == s.waitable)
    && (s.waitable && !s'.waitable ==> got == Refused(CLSD))
    && (got == Refused(CLSD) && s'.attached && !nofin ==> s.waitable && !s'.waitable)
  }

  /** A message taken out of the mailbox. */
  lemma TakenTells(s: Rx, tryOnly: bool, nofin: bool)
    requires Inv(s) && FinKept(s) && s.lastdata.None? && s.waitable && !s.finPending
    ensures var f := Taken(s, tryOnly);
      var t := FetchedTaken(f.0, f.1, nofin);
      Tells(s, t.1, t.0, nofin) && (t.1.Bytes? ==> t.0.waitable && t.0.lastdata.None?)
  {
    if s.mbox != [] {
      assert s.mbox == [s.mbox[0]] + s.mbox[1..];
      if s.mbox[0].Failure? { FailureIsLast(s); }
    }
  }

  lemma RecvDataTells(s: Rx, dontblock: bool, nofin: bool, script: seq<seq<Item>>, due: (seq<byte>, Phase))
    requires Inv(s) && Tidy(s) && s.lastdata.None? && Expecting(s, script, due) && (nofin ==> !s.finPending)
    ensures var r := RecvData(s, dontblock, nofin, script);
      Tells(s, r.got, r.rx, nofin) && (r.got.Bytes? ==> r.rx.waitable)
  {
    if s.waitable && !s.finPending {
      var tryOnly := TryOnly(s, dontblock);
      WaitedKeeps(s, tryOnly, script, due);
      WaitedFin(s, tryOnly, script, due);
      TakenTells(Waited(s, tryOnly, script).0, tryOnly, nofin);
    }
  }

  lemma RefilledTells(s: Rx, dontblock: bool, nofin: bool, script: seq<seq<Item>>, due: (seq<byte>, Phase))
    requires Inv(s) && Tidy(s) && Expecting(s, script, due) && (nofin ==> !s.finPending)
    ensures var r := Refilled(s, dontblock, nofin, script); Tells(s, r.got, r.rx, nofin)
  {
    if s.lastdata.None? { RecvDataTells(s, dontblock, nofin, script, due); }
  }

  lemma TurnTells(s: Rx, left: nat, later: bool, dontwait: bool, script: seq<seq<Item>>, due: (seq<byte>, Phase))
    requires Inv(s) && Tidy(s) && Expecting(s, script, due) && (later ==> !s.finPending)
    ensures var t := Turn(s, left, later, dontwait, script); Tells(s, t.last, t.rx, later)
  {
    RefilledTells(s, dontwait || later, later, script, due);
    RefilledSound(s, dontwait || later, later, script, due);
  }

  lemma {:induction false} LaterLooksKeepFin(s: Rx, left: nat, dontwait: bool, script: seq<seq<Item>>,
      due: (seq<byte>, Phase))
    requires Inv(s) && Tidy(s) && Expecting(s, script, due) && !s.finPending
    ensures var g := Gather(s, left, true, dontwait, script); Tidy(g.rx) && g.rx.waitable == s.waitable
    decreases left
  {
    var t := Turn(s, left, true, dontwait, script);
    TurnTells(s, left, true, dontwait, script, due);
    TurnSound(s, left, true, dontwait, script, due);
    if !Stops(left, t) {
      LaterLooksKeepFin(t.rx, left - |t.copied|, dontwait, t.rest, due);
    }
  }

  lemma GatherTells(s: Rx, left: nat, dontwait: bool, script: seq<seq<Item>>, due: (seq<byte>, Phase))
    requires Inv(s) && Tidy(s) && Expecting(s, script, due) && left > 0
    ensures var g := Gather(s, left, false, dontwait, script);
      if g.data == [] then Tells(s, g.last, g.rx, false) && !g.last.Bytes?
      else Tidy(g.rx) && g.rx.waitable == s.waitable
  {
    var t := Turn(s, left, false, dontwait, script);
    TurnTells(s, left, false, dontwait, script, due);
    TurnSound(s, left, false, dontwait, script, due);
    if !Stops(left, t) {
      LaterLooksKeepFin(t.rx, left - |t.copied|, dontwait, t.rest, due);
    }
  }

  /** A call for some bytes tells the end exactly if it closes the mailbox, as long as the
      connection has not failed. */
  lemma CallIsTidy(s: Rx, len: nat, peek: bool, dontwait: bool, script: seq<seq<Item>>, due: (seq<byte>, Phase))
    requires Inv(s) && Tidy(s) && Expecting(s, script, due) && len > 0
    ensures var o := Recv(s, len, peek, dontwait, script);
      && Tidy(o.rx) && (o.rx.waitable ==> s.waitable)
      && (o.rx.attached ==> (o.result == 0 <==> s.waitable && !o.rx.waitable))
  {
    if peek {
      RefilledTells(s, dontwait, false, script, due);
      RefilledSound(s, dontwait, false, script, due);
    } else {
      GatherTells(s, Limit(len), dontwait, script, due);
    }
  }

  // ---- Runs

  /** How many of the calls return 0. */
  function Zeros(s: Rx, calls: seq<Call>, carried: seq<seq<Item>>): nat
    decreases |calls|
  {
    if calls == [] then 0
    else
      var o := RecvOne(s, calls[0], carried);
      Is1(o.result == 0) + Zeros(o.rx, calls[1..], o.rest)
  }

  predicate AskForSome(calls: seq<Call>) {
    forall k :: 0 <= k < |calls| ==> calls[k].len > 0
  }

  lemma OneCallTells(s: Rx, calls: seq<Call>, carried: seq<seq<Item>>, due: (seq<byte>, Phase))
    requires Inv(s) && Tidy(s) && calls != [] && Awaits(s, calls, carried, due) && calls[0].len > 0
    ensures var o := RecvOne(s, calls[0], carried);
      && Inv(o.rx) && Tidy(o.rx) && Awaits(o.rx, calls[1..], o.rest, due)
      && (o.rx.waitable ==> s.waitable) && (o.rx.attached ==> s.attached)
      && (o.rx.attached ==> (o.result == 0 <==> s.waitable && !o.rx.waitable))
  {
    var script := carried + calls[0].arrivals;
    MayComeIn(s, calls, carried, due);
    RecvOneServes(s, calls, carried, due);
    CallIsTidy(s, calls[0].len, calls[0].peek, calls[0].dontwait, script, Due(s, script));
  }

  lemma {:induction false} ZerosTell(s: Rx, calls: seq<Call>, carried: seq<seq<Item>>, due: (seq<byte>, Phase))
    requires Inv(s) && Tidy(s) && Awaits(s, calls, carried, due) && AskForSome(calls)
    ensures var r := RecvMany(s, calls, carried);
      && Tidy(r.rx) && (r.rx.waitable ==> s.waitable)
      && (r.rx.attached ==> s.attached && Zeros(s, calls, carried) == Is1(s.waitable && !r.rx.waitable))
    decreases |calls|
  {
    if calls != [] {
      OneCallTells(s, calls, carried, due);
      var o := RecvOne(s, calls[0], carried);
      ZerosTell(o.rx, calls[1..], o.rest, due);
    }
  }

  /** The peer has closed, and everything has been returned: the next call tells the end, if no
      call has, and fails otherwise; it never waits. */
  lemma NothingButTheEnd(s: Rx, len: nat, peek: bool, dontwait: bool)
    requires Inv(s) && Tidy(s) && s.phase == Finished && Remaining(s) == []
    ensures var o := Recv(s, len, peek, dontwait, []); !o.blocked && o.result == if s.waitable then 0 else -1
  {
    assert s.lastdata.None?;
    if s.waitable && !s.finPending {
      HeadIsFin(s.mbox);
    }
    ClosedExactlyAtEnd(s, dontwait);
    WhatIsNow(s, dontwait);
    NoDataAnswers(s, len, peek, dontwait, []);
  }

  lemma HeadIsFin(mbox: seq<Item>)
    requires Fin in mbox && DataOf(mbox) == [] && InOrder(Streaming, mbox) && PhaseAfter(Streaming, mbox) != Failed
    ensures mbox[0] == Fin
  {
    NoFailureYet(Streaming, mbox);
  }

  /** Over any sequence of receive calls for some bytes on a new socket, with or without
      MSG_PEEK and interleaved with any arrivals, as long as the connection does not fail: at
      most one call returns 0. It does so only when the peer has closed and every byte has been
      returned; and once that is so, and none has, the next call does. */
  lemma EndIsToldOnce(s: Rx, calls: seq<Call>, len: nat, peek: bool, dontwait: bool)
    requires s == NEW_SOCKET && InOrder(Streaming, Coming(calls)) && AskForSome(calls)
    ensures var r := RecvMany(s, calls, []);
      r.rx.attached ==>
        && Zeros(s, calls, []) == Is1(!r.rx.waitable)
        && (!r.rx.waitable ==> r.rx.phase == Finished && Remaining(r.rx) == [])
        && (r.rx.phase == Finished && Remaining(r.rx) == [] ==>
              Recv(r.rx, len, peek, dontwait, []).result == -(Zeros(s, calls, []) as int))
  {
    var due := (DataOf(Coming(calls)), PhaseAfter(Streaming, Coming(calls)));
    assert All([]) + Coming(calls) == Coming(calls);
    assert [] + DataOf(Coming(calls)) == DataOf(Coming(calls));
    ZerosTell(s, calls, [], due);
    RecvManyDelivers(s, calls, [], due);
    var r := RecvMany(s, calls, []);
    if r.rx.attached && r.rx.phase == Finished && Remaining(r.rx) == [] {
      NothingButTheEnd(r.rx, len, peek, dontwait);
    }
  }
}
