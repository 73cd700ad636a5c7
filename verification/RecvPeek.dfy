/** What a call with MSG_PEEK does to the call after it: nothing, unless it meets the end of
    the stream, which it takes, as it is not told NETCONN_NOFIN; and what a call that finds no
    data reports, which is what there is when it looks into the mailbox: it looks once, after
    whatever has arrived by then. */
module RecvPeek {
  import opened Common
  import opened RecvSpec

  /** The messages that say that the peer has closed. */
  predicate Closes(item: Item) {
    item.Fin? || item == Failure(CLSD)
  }

  /** The next call reports the end of the stream: nothing is left over, and the FIN that was
      kept, or the next message, finds the pcb still there or its own error pending; or that
      error is all there is. */
  predicate AtEnd(s: Rx) {
    && s.lastdata.None? && s.waitable
    && if s.finPending || (s.mbox != [] && Closes(s.mbox[0])) then s.attached || s.pendingErr == CLSD
       else s.mbox == [] && s.pendingErr == CLSD
  }

  lemma {:induction false} GatherStart(s: Rx, t: Rx, left: nat, dontwait: bool,
      script: seq<seq<Item>>, rest: seq<seq<Item>>)
    requires Refilled(s, dontwait, false, script) == Refilled(t, dontwait, false, rest)
    ensures Gather(s, left, false, dontwait, script) == Gather(t, left, false, dontwait, rest)
  {
  }

  /** The answer of a call that found no data. */
  function Answer(got: Received): (int, seq<byte>, bool) {
    (if got == Refused(CLSD) then 0 else -1, [], got.NeverReturns?)
  }

  /** What a caller sees of a call. */
  function Seen(o: Outcome): (int, seq<byte>, bool) {
    (o.result, o.data, o.blocked)
  }

  lemma NoDataAnswers(s: Rx, len: nat, peek: bool, dontwait: bool, script: seq<seq<Item>>)
    requires !Refilled(s, dontwait, false, script).got.Bytes?
    ensures Seen(Recv(s, len, peek, dontwait, script)) == Answer(Refilled(s, dontwait, false, script).got)
    ensures Recv(s, len, peek, dontwait, script).rx == Refilled(s, dontwait, false, script).rx
  {
  }

  /** With nothing arriving, the look into the mailbox. */
  function Now(s: Rx, dontwait: bool): Received {
    Refilled(s, dontwait, false, []).got
  }

  function AfterNow(s: Rx, dontwait: bool): Rx {
    Refilled(s, dontwait, false, []).rx
  }

  /** The end is reported exactly at the end. */
  lemma ClosedExactlyAtEnd(s: Rx, dontwait: bool)
    requires Inv(s)
    ensures Now(s, dontwait) == Refused(CLSD) <==> AtEnd(s)
  {
  }

  lemma FailureIsLast(s: Rx)
    requires Inv(s) && s.mbox != [] && s.mbox[0].Failure?
    ensures s.mbox[1..] == [] && !s.attached
  {
    NoDataAfterEnd(Failed, s.mbox[1..]);
  }

  /** After a call that found no data the end is not reported again. */
  lemma NotAgain(s: Rx, dontwait: bool)
    requires Inv(s) && !Now(s, dontwait).Bytes?
    ensures !AtEnd(AfterNow(s, dontwait))
  {
    if s.mbox != [] && s.mbox[0].Failure? {
      FailureIsLast(s);
    }
  }

  /** The next call has something to wait for, or to return. */
  predicate Open(s: Rx) {
    s.lastdata.None? && s.waitable && !s.finPending
  }

  predicate DataNext(s: Rx) {
    s.lastdata.Some? || (Open(s) && s.mbox != [] && s.mbox[0].Data?)
  }

  predicate WouldWait(s: Rx, dontwait: bool) {
    Open(s) && s.mbox == [] && !TryOnly(s, dontwait)
  }

  lemma WhatIsNow(s: Rx, dontwait: bool)
    ensures Now(s, dontwait).Bytes? <==> DataNext(s)
    ensures Now(s, dontwait).NeverReturns? <==> WouldWait(s, dontwait)
  {
  }

  /** Nor is there data after it, and the next call waits exactly if it would have before. */
  lemma StillNoData(s: Rx, dontwait: bool, nextDontwait: bool)
    requires Inv(s) && !DataNext(s)
    ensures !DataNext(AfterNow(s, dontwait))
    ensures WouldWait(AfterNow(s, dontwait), nextDontwait) <==> WouldWait(s, nextDontwait)
  {
    if Open(s) && s.mbox != [] {
      PopKeeps(s);
      if s.mbox[0].Failure? {
        FailureIsLast(s);
      }
    }
  }

  lemma KeepsInv(s: Rx, dontwait: bool)
    requires Inv(s)
    ensures Inv(AfterNow(s, dontwait))
  {
    RefilledSound(s, dontwait, false, [], Due(s, []));
  }

  /** With nothing arriving in between, the call after a peek returns what it would have
      returned without the peek, if and only if the peek was not made at the end of the
      stream. There the peek returns 0, and the next call -1 in place of the 0. */
  lemma QuietPeekIsInvisibleUnlessAtEnd(s: Rx, len: nat, dontwait: bool, nextLen: nat, nextPeek: bool,
      nextDontwait: bool)
    requires Inv(s)
    ensures var o := Recv(s, len, true, dontwait, []);
            var after := Seen(Recv(o.rx, nextLen, nextPeek, nextDontwait, []));
            var without := Seen(Recv(s, nextLen, nextPeek, nextDontwait, []));
            && (after == without <==> !AtEnd(s))
            && (AtEnd(s) ==> Seen(o) == (0, [], false) && without == (0, [], false) && after == (-1, [], false))
  {
    ClosedExactlyAtEnd(s, dontwait);
    ClosedExactlyAtEnd(s, nextDontwait);
    var t := AfterNow(s, dontwait);
    WhatIsNow(s, dontwait);
    WhatIsNow(s, nextDontwait);
    if Now(s, dontwait).Bytes? {
      GatherStart(s, t, Limit(nextLen), nextDontwait, [], []);
    } else {
      KeepsInv(s, dontwait);
      NotAgain(s, dontwait);
      StillNoData(s, dontwait, nextDontwait);
      ClosedExactlyAtEnd(t, nextDontwait);
      WhatIsNow(t, nextDontwait);
      NoDataAnswers(s, len, true, dontwait, []);
      NoDataAnswers(s, nextLen, nextPeek, nextDontwait, []);
      NoDataAnswers(t, nextLen, nextPeek, nextDontwait, []);
    }
  }

  // ---- With arrivals

  /** What has arrived when the call looks into the mailbox, if it does, and the script left. */
  function ArrivedBy(s: Rx, dontwait: bool, script: seq<seq<Item>>): (Rx, seq<seq<Item>>) {
    if Open(s) then Waited(s, TryOnly(s, dontwait), script) else (s, script)
  }

  /** A call looks into the mailbox as it is when it gives up waiting. */
  lemma LooksAtWhatArrived(s: Rx, dontwait: bool, script: seq<seq<Item>>, due: (seq<byte>, Phase))
    requires Inv(s) && Expecting(s, script, due) && Refilled(s, dontwait, false, script).got.Refused?
    ensures var r, w := Refilled(s, dontwait, false, script), ArrivedBy(s, dontwait, script);
      Inv(w.0) && r.got == Now(w.0, true) && r.rx == AfterNow(w.0, true) && r.rest == w.1
  {
    if Open(s) { WaitedKeeps(s, TryOnly(s, dontwait), script, due); }
  }

  /** On a socket that has failed, or whose receiving side is shut, it does not matter what
      the script says: nothing comes, or nobody looks. */
  lemma NoMoreArrivals(s: Rx, dontwait: bool, rest: seq<seq<Item>>, due: (seq<byte>, Phase))
    requires Inv(s) && s.lastdata.None? && Expecting(s, rest, due) && (!s.waitable || s.phase == Failed)
    ensures Refilled(s, dontwait, false, rest).got == Now(s, dontwait)
  {
    if s.waitable && !s.finPending {
      NoDataAfterEnd(s.phase, All(rest));
      NothingComes(s, TryOnly(s, dontwait), rest);
    }
  }

  /** A call that has reported the end, or an error, leaves the socket failed or shut. */
  lemma EndsHere(s: Rx, dontwait: bool)
    requires Inv(s) && Now(s, dontwait).Refused? && Now(s, dontwait) != Refused(WOULDBLOCK)
    ensures var t := AfterNow(s, dontwait); t.lastdata.None? && (!t.waitable || t.phase == Failed)
  {
    if s.mbox != [] && s.mbox[0].Failure? {
      FailureIsLast(s);
    }
  }

  /** The call after one that has reported the end, or an error, fails. */
  lemma FailsAfter(s: Rx, dontwait: bool, script: seq<seq<Item>>, due: (seq<byte>, Phase))
    requires Inv(s) && Expecting(s, script, due)
    requires var got := Refilled(s, dontwait, false, script).got; got.Refused? && got != Refused(WOULDBLOCK)
    ensures var r := Refilled(s, dontwait, false, script);
      var next := Refilled(r.rx, dontwait, false, r.rest).got;
      next.Refused? && next != Refused(CLSD)
  {
    var r, w := Refilled(s, dontwait, false, script), ArrivedBy(s, dontwait, script);
    LooksAtWhatArrived(s, dontwait, script, due);
    RefilledSound(s, dontwait, false, script, due);
    EndsHere(w.0, true);
    KeepsInv(w.0, true);
    WhatIsNow(w.0, true);
    NoMoreArrivals(r.rx, dontwait, r.rest, due);
    StillNoData(w.0, true, dontwait);
    NotAgain(w.0, true);
    WhatIsNow(r.rx, dontwait);
    ClosedExactlyAtEnd(r.rx, dontwait);
  }

  /** A call that is still waiting has seen everything come. */
  lemma {:induction false} WaitedForAll(s: Rx, script: seq<seq<Item>>)
    requires Waited(s, false, script).0.mbox == []
    ensures Waited(s, false, script).1 == []
    decreases |script|
  {
    var r := Awaited(s, script);
    if r.0.mbox == [] && r.1 != [] {
      WaitedForAll(r.0, r.1);
    }
  }

  /** A call that has waited in vain has changed nothing, and so waits again. */
  lemma WaitsAgain(s: Rx, dontwait: bool, script: seq<seq<Item>>)
    requires Refilled(s, dontwait, false, script).got.NeverReturns?
    ensures var r := Refilled(s, dontwait, false, script);
      r.rest == [] && Refilled(r.rx, dontwait, false, r.rest).got.NeverReturns?
  {
    WaitedForAll(s, script);
    WaitedLeaves(s, script);
  }

  /** Arrivals of nothing that could end the wait leave the flags alone. */
  lemma {:induction false} WaitedLeaves(s: Rx, script: seq<seq<Item>>)
    requires s.waitable && Waited(s, false, script).0.mbox == []
    ensures var t := Waited(s, false, script).0;
      t.waitable && t.finPending == s.finPending && t.lastdata == s.lastdata && t.nonblocking == s.nonblocking
      && t.mboxClosed == s.mboxClosed && t.pendingErr == s.pendingErr
    decreases |script|
  {
    if script != [] {
      DeliveredLeaves(s, script[0]);
      var r := Awaited(s, script);
      if r.0.mbox == [] && r.1 != [] {
        WaitedLeaves(r.0, r.1);
      }
    }
  }

  lemma {:induction false} DeliveredLeaves(s: Rx, items: seq<Item>)
    requires s.waitable && Delivered(s, items).0.mbox == []
    ensures Delivered(s, items).0 == s
    decreases |items|
  {
    if items != [] && !Refuses(s, items[0]) {
      DeliveredGrows(Arrived(s, items[0]), items[1..]);
    }
  }

  lemma NoEndBeforeData(s: Rx, dontwait: bool, script: seq<seq<Item>>, due: (seq<byte>, Phase))
    requires Inv(s) && Expecting(s, script, due) && Refilled(s, dontwait, false, script).got.Bytes?
    ensures !AtEnd(ArrivedBy(s, dontwait, script).0)
  {
    if Open(s) { WaitedKeeps(s, TryOnly(s, dontwait), script, due); }
  }

  lemma NoEndWhileWaiting(s: Rx, dontwait: bool, script: seq<seq<Item>>)
    requires Refilled(s, dontwait, false, script).got.NeverReturns?
    ensures !AtEnd(ArrivedBy(s, dontwait, script).0)
  {
    WaitedLeaves(s, script);
    var t := Waited(s, false, script).0;
    assert ArrivedBy(s, dontwait, script).0 == t && t.mbox == [] && t.pendingErr == OK;
  }

  /** The end is reported exactly if it is there when the call looks. */
  lemma EndIsThere(s: Rx, dontwait: bool, script: seq<seq<Item>>, due: (seq<byte>, Phase))
    requires Inv(s) && Expecting(s, script, due)
    ensures Refilled(s, dontwait, false, script).got == Refused(CLSD) <==> AtEnd(ArrivedBy(s, dontwait, script).0)
  {
    match Refilled(s, dontwait, false, script).got
    case Bytes(_) =>
      NoEndBeforeData(s, dontwait, script, due);
    case NeverReturns =>
      NoEndWhileWaiting(s, dontwait, script);
    case Refused(_) =>
      LooksAtWhatArrived(s, dontwait, script, due);
      ClosedExactlyAtEnd(ArrivedBy(s, dontwait, script).0, true);
  }

  /** A failure to report: of its message, or of the connection once the mailbox is empty, or in
      place of a FIN that finds the pcb gone. */
  predicate FailsWith(s: Rx, err: Err) {
    && s.lastdata.None? && s.waitable
    && if s.finPending || (s.mbox != [] && Closes(s.mbox[0]))
       then !s.attached && (s.pendingErr == err || (s.pendingErr == OK && err == RST))
       else if s.mbox != [] then s.mbox[0] == Failure(err)
       else s.pendingErr == err
  }

  /** The receiving side is shut, or the failure has been reported. */
  predicate OverAndTold(s: Rx) {
    s.lastdata.None? && (!s.waitable || (!s.finPending && s.mbox == [] && s.phase == Failed && s.pendingErr == OK))
  }

  /** What is reported of `t` by a call that finds it, and may not wait if `now`. */
  predicate ReportedAt(t: Rx, now: bool, err: Err) {
    match err
    case CLSD => AtEnd(t)
    case RST => FailsWith(t, RST)
    case ABRT => FailsWith(t, ABRT)
    case WOULDBLOCK => Open(t) && t.mbox == [] && t.phase != Failed && now
    case CONN => OverAndTold(t)
    case _ => false
  }

  lemma ReportedHead(t: Rx, err: Err)
    requires Inv(t) && Open(t) && t.mbox != [] && !t.mbox[0].Data?
    ensures Now(t, true) == Refused(err) <==> ReportedAt(t, true, err)
  {
    assert GoodItem(t.mbox[0]);
    if t.mbox[0].Failure? { FailureIsLast(t); }
  }

  lemma ReportedEmpty(t: Rx, err: Err)
    requires Inv(t) && Open(t) && t.mbox == []
    ensures Now(t, true) == Refused(err) <==> ReportedAt(t, true, err)
  {
  }

  lemma ReportedOver(t: Rx, err: Err)
    requires Inv(t) && t.lastdata.None? && !Open(t)
    ensures Now(t, true) == Refused(err) <==> ReportedAt(t, true, err)
  {
  }

  lemma ReportedNow(t: Rx, err: Err)
    requires Inv(t) && Now(t, true).Refused?
    ensures Now(t, true) == Refused(err) <==> ReportedAt(t, true, err)
  {
    WhatIsNow(t, true);
    if !Open(t) { ReportedOver(t, err); }
    else if t.mbox == [] { ReportedEmpty(t, err); }
    else { ReportedHead(t, err); }
  }

  lemma NothingReported(t: Rx, now: bool, err: Err)
    requires Inv(t) && (DataNext(t) || WaitsForEver(t, now, []))
    ensures !ReportedAt(t, now || t.nonblocking, err)
  {
  }

  /** Nothing has come yet: only a call that may not wait says so. */
  lemma OnlyIfMayNotWait(s: Rx, dontwait: bool, script: seq<seq<Item>>, due: (seq<byte>, Phase))
    requires Inv(s) && Expecting(s, script, due) && Refilled(s, dontwait, false, script).got.Refused?
    ensures var t := ArrivedBy(s, dontwait, script).0;
      && t.nonblocking == s.nonblocking
      && (Open(t) && t.mbox == [] && t.phase != Failed ==> dontwait || s.nonblocking)
  {
    if Open(s) { WaitedKeeps(s, TryOnly(s, dontwait), script, due); }
  }

  lemma NoReportWithData(s: Rx, dontwait: bool, script: seq<seq<Item>>, due: (seq<byte>, Phase), err: Err)
    requires Inv(s) && Expecting(s, script, due) && Refilled(s, dontwait, false, script).got.Bytes?
    ensures !ReportedAt(ArrivedBy(s, dontwait, script).0, dontwait || s.nonblocking, err)
  {
    if Open(s) { WaitedKeeps(s, TryOnly(s, dontwait), script, due); }
    NothingReported(ArrivedBy(s, dontwait, script).0, dontwait, err);
  }

  lemma NoReportWhileWaiting(s: Rx, dontwait: bool, script: seq<seq<Item>>, err: Err)
    requires Inv(s) && Refilled(s, dontwait, false, script).got.NeverReturns?
    ensures !ReportedAt(ArrivedBy(s, dontwait, script).0, dontwait || s.nonblocking, err)
  {
    FirstLookWaits(s, dontwait, script);
    NothingComes(s, TryOnly(s, dontwait), script);
    NothingReported(s, dontwait, err);
  }

  /** What a call that found no data reports, by what is there when it looks: the end of the
      stream, a failure, that nothing has come yet, or that all is over. */
  lemma ErrorsAreExact(s: Rx, dontwait: bool, script: seq<seq<Item>>, due: (seq<byte>, Phase), err: Err)
    requires Inv(s) && Expecting(s, script, due)
    ensures var got, t := Refilled(s, dontwait, false, script).got, ArrivedBy(s, dontwait, script).0;
      got == Refused(err) <==> ReportedAt(t, dontwait || s.nonblocking, err)
  {
    match Refilled(s, dontwait, false, script).got
    case Bytes(_) =>
      NoReportWithData(s, dontwait, script, due, err);
    case NeverReturns =>
      NoReportWhileWaiting(s, dontwait, script, err);
    case Refused(_) =>
      LooksAtWhatArrived(s, dontwait, script, due);
      OnlyIfMayNotWait(s, dontwait, script, due);
      ReportedNow(ArrivedBy(s, dontwait, script).0, err);
  }

  /** The call after a peek that has gone `script` in, and a call in place of the peek. */
  function AfterPeek(s: Rx, dontwait: bool, script: seq<seq<Item>>, nextLen: nat, nextPeek: bool)
    : (int, seq<byte>, bool)
  {
    var r := Refilled(s, dontwait, false, script);
    Seen(Recv(r.rx, nextLen, nextPeek, dontwait, r.rest))
  }

  function InItsPlace(s: Rx, dontwait: bool, script: seq<seq<Item>>, nextLen: nat, nextPeek: bool)
    : (int, seq<byte>, bool)
  {
    Seen(Recv(s, nextLen, nextPeek, dontwait, script))
  }

  lemma AfterDataOrWaiting(s: Rx, dontwait: bool, script: seq<seq<Item>>, nextLen: nat, nextPeek: bool)
    requires !Refilled(s, dontwait, false, script).got.Refused?
    ensures AfterPeek(s, dontwait, script, nextLen, nextPeek) == InItsPlace(s, dontwait, script, nextLen, nextPeek)
    ensures var r := Refilled(s, dontwait, false, script);
      r.got.Bytes? ==> Recv(r.rx, nextLen, nextPeek, dontwait, r.rest) == Recv(s, nextLen, nextPeek, dontwait, script)
  {
    var r := Refilled(s, dontwait, false, script);
    if r.got.Bytes? {
      GatherStart(s, r.rx, Limit(nextLen), dontwait, script, r.rest);
    } else {
      WaitsAgain(s, dontwait, script);
      NoDataAnswers(s, nextLen, nextPeek, dontwait, script);
      NoDataAnswers(r.rx, nextLen, nextPeek, dontwait, r.rest);
    }
  }

  lemma AfterRefusal(s: Rx, dontwait: bool, script: seq<seq<Item>>, due: (seq<byte>, Phase), nextLen: nat,
      nextPeek: bool)
    requires Inv(s) && Expecting(s, script, due)
    requires var got := Refilled(s, dontwait, false, script).got; got.Refused? && got != Refused(WOULDBLOCK)
    ensures AfterPeek(s, dontwait, script, nextLen, nextPeek) == (-1, [], false)
    ensures InItsPlace(s, dontwait, script, nextLen, nextPeek) == Answer(Refilled(s, dontwait, false, script).got)
  {
    var r := Refilled(s, dontwait, false, script);
    FailsAfter(s, dontwait, script, due);
    NoDataAnswers(s, nextLen, nextPeek, dontwait, script);
    NoDataAnswers(r.rx, nextLen, nextPeek, dontwait, r.rest);
  }

  /** A peek on a socket that does not block, which finds nothing yet, has changed nothing. */
  lemma NothingYet(s: Rx, dontwait: bool, script: seq<seq<Item>>, due: (seq<byte>, Phase))
    requires Inv(s) && Expecting(s, script, due) && Refilled(s, dontwait, false, script).got == Refused(WOULDBLOCK)
    ensures var r := Refilled(s, dontwait, false, script); (r.rx, r.rest) == ArrivedBy(s, dontwait, script)
  {
    LooksAtWhatArrived(s, dontwait, script, due);
    OnlyFromEmpty(ArrivedBy(s, dontwait, script).0);
  }

  lemma OnlyFromEmpty(s: Rx)
    requires Inv(s) && Now(s, true) == Refused(WOULDBLOCK)
    ensures AfterNow(s, true) == s
  {
    if s.mbox != [] && s.mbox[0].Failure? { PopKeeps(s); }
  }

  lemma PeekIs(s: Rx, len: nat, dontwait: bool, script: seq<seq<Item>>)
    ensures var o, r := Recv(s, len, true, dontwait, script), Refilled(s, dontwait, false, script);
      && o.rx == r.rx && o.rest == r.rest
      && (!r.got.Bytes? ==> Seen(o) == Answer(r.got))
      && (r.got.Bytes? && r.got.pbuf != [] && len > 0 ==> o.result > 0)
  {
  }

  /** Whatever arrives before a peek, while it waits, and after it: the next call answers as
      a call in place of the peek would have, if and only if the peek has not reported the end
      of the stream, which it does exactly if the end is there when it looks. Then it returns
      0, as that call would have, and the next call -1. A peek that finds nothing yet, on a
      socket that does not block, leaves everything as the arrivals have made it, and after one
      that finds data the effects of the next call are the same, too. */
  lemma PeekIsInvisibleUnlessAtEnd(s: Rx, len: nat, dontwait: bool, script: seq<seq<Item>>, due: (seq<byte>, Phase),
      nextLen: nat, nextPeek: bool)
    requires Inv(s) && Expecting(s, script, due)
    ensures var o, found := Recv(s, len, true, dontwait, script), Refilled(s, dontwait, false, script).got;
            var arrived := ArrivedBy(s, dontwait, script);
            var after := Seen(Recv(o.rx, nextLen, nextPeek, dontwait, o.rest));
            var without := Seen(Recv(s, nextLen, nextPeek, dontwait, script));
            && (found == Refused(CLSD) <==> AtEnd(arrived.0))
            && (len > 0 ==> (o.result == 0 <==> found == Refused(CLSD)))
            && (if found == Refused(WOULDBLOCK) then (o.rx, o.rest) == arrived
                else after == without <==> found != Refused(CLSD))
            && (found == Refused(CLSD) ==>
                  Seen(o) == (0, [], false) && without == (0, [], false) && after == (-1, [], false))
            && (found.Bytes? ==>
                  Recv(o.rx, nextLen, nextPeek, dontwait, o.rest) == Recv(s, nextLen, nextPeek, dontwait, script))
  {
    var found := Refilled(s, dontwait, false, script).got;
    EndIsThere(s, dontwait, script, due);
    PeekIs(s, len, dontwait, script);
    RefilledSound(s, dontwait, false, script, due);
    assert found.Bytes? ==> found.pbuf != [];
    if !found.Refused? {
      AfterDataOrWaiting(s, dontwait, script, nextLen, nextPeek);
    } else if found == Refused(WOULDBLOCK) {
      NothingYet(s, dontwait, script, due);
    } else {
      AfterRefusal(s, dontwait, script, due, nextLen, nextPeek);
    }
  }

  /** So it fails on a new socket to which the peer has sent nothing but a FIN. */
  lemma PeekTakesTheFin(s: Rx, len: nat, nextLen: nat)
    requires s == NEW_SOCKET
    ensures var o := Recv(s, len, true, false, [[Fin]]);
            && o.result == 0
            && Recv(o.rx, nextLen, false, false, []).result == -1
            && Recv(s, nextLen, false, false, [[Fin]]).result == 0
  {
    assert [Fin][1..] == [];
    assert Delivered(Arrived(s, Fin), []) == (Arrived(s, Fin), []);
    assert [] + [Fin] == [Fin];
  }
}
