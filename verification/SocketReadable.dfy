/** The receive count of a socket over whole calls: it stays close to the messages that wait
    in the mailbox, so that taking one does not wrap it around.

    From below it is bounded by the messages announced and not taken: a RCVMINUS comes from a
    thread that has taken a message, and all messages but those posted before the descriptor
    was known, no more than a mailbox holds, and the one of err_tcp have been announced to it.
    From above it is bounded by the same, by the RCVMINUS that are still on their way, each of
    which belongs to a holder of the descriptor, and by the RCVPLUS that announce no message;
    once the socket is being closed RCVMINUS are turned away, but so are RCVPLUS. */
module SocketReadable {
  import opened Common
  import opened SocketTable
  import opened SocketThreads
  import opened SelectCall
  import opened SocketRefcount
  import opened SocketSelect
  import opened SocketCalls
  import opened SocketProtocol

  // ---- RCVMINUS events on their way

  function Minuses(ts: seq<Thread>, i: nat): nat {
    if ts == [] then 0 else Is1(Brings(ts[0].pc, i, RcvMinus)) + Minuses(ts[1..], i)
  }

  lemma {:induction false} MinusesUpdate(ts: seq<Thread>, t: Tid, th: Thread, i: nat)
    requires t < |ts|
    ensures Minuses(ts[t := th], i)
         == Minuses(ts, i) - Is1(Brings(ts[t].pc, i, RcvMinus)) + Is1(Brings(th.pc, i, RcvMinus))
    ensures Is1(Brings(ts[t].pc, i, RcvMinus)) <= Minuses(ts, i)
  {
    if t > 0 {
      assert ts[t := th][1..] == ts[1..][t - 1 := th];
      MinusesUpdate(ts[1..], t - 1, th, i);
    }
  }

  lemma MinusesStep(s: State, t: Tid, a: Action, s': State, i: nat)
    requires Next(s, t, a, s')
    ensures Minuses(s'.threads, i) == Minuses(s.threads, i) - Is1(Brings(s.threads[t].pc, i, RcvMinus))
                                   + Is1(Brings(s'.threads[t].pc, i, RcvMinus))
    ensures Is1(Brings(s.threads[t].pc, i, RcvMinus)) <= Minuses(s.threads, i)
  {
    var m := Decide(s, s.threads[t], a).value;
    var th := ThreadAfter(s, s.threads[t], m);
    var ts := s.threads[t := th];
    MinusesUpdate(s.threads, t, th, i);
    ThreadsAfterAt(s, t, m, t);
    if m.effect.Signal? && m.effect.waiter < |ts| {
      MinusesUpdate(ts, m.effect.waiter, ts[m.effect.waiter].(signalled := true, token := true), i);
    }
  }

  lemma {:induction false} MinusesAreHolders(ts: seq<Thread>, i: nat)
    requires forall t :: 0 <= t < |ts| && Brings(ts[t].pc, i, RcvMinus) ==> ts[t].holds[i] >= 1
    ensures Minuses(ts, i) <= Holders(ts, i)
  {
    if ts != [] {
      forall t | 0 <= t < |ts[1..]| && Brings(ts[1..][t].pc, i, RcvMinus) ensures ts[1..][t].holds[i] >= 1 {
        assert ts[1..][t] == ts[t + 1];
      }
      MinusesAreHolders(ts[1..], i);
    }
  }

  lemma {:induction false} NoMinuses(ts: seq<Thread>, i: nat)
    requires forall t :: 0 <= t < |ts| ==> !Brings(ts[t].pc, i, RcvMinus)
    ensures Minuses(ts, i) == 0
  {
    if ts != [] {
      NoMinuses(ts[1..], i);
    }
  }

  /** Only threads that hold a socket whose descriptor is known have a RCVMINUS for it. */
  lemma MinusesBound(w: World, i: nat)
    requires RefInv(w.s) && Protocol(w) && i < |w.peers|
    ensures Minuses(w.s.threads, i) <= U8_MAX
    ensures !IsKnown(w.peers, i) ==> Minuses(w.s.threads, i) == 0
  {
    var ts := w.s.threads;
    forall t | 0 <= t < |ts| && Brings(ts[t].pc, i, RcvMinus)
      ensures ts[t].holds[i] >= 1 && IsKnown(w.peers, i)
    {
      assert CallOk(ts[t], t, w.calls[t], w.peers, w.core);
    }
    MinusesAreHolders(ts, i);
    assert SlotOk(w.s.slots[i], Holders(ts, i));
    if !IsKnown(w.peers, i) { NoMinuses(ts, i); }
  }

  // ---- The receive count

  /** err_tcp has yet to post its message to the netconn in `i`. */
  predicate Posting(w: World, i: nat) {
    w.core.Some? && w.core.value < |w.calls|
    && w.calls[w.core.value].Handling? && w.calls[w.core.value].fd == i && w.calls[w.core.value].end.AckAndPost?
  }

  /** The receive count is not far from announced messages minus taken ones. */
  predicate RcvOk(p: Peer, rcvevent: int, pending: bool, minuses: nat, posting: bool)
    requires p.Peer?
  {
    && p.announced + minuses <= rcvevent + p.taken + MBOX_ROOM + Is1(p.gone && !posting)
    && (if !pending then rcvevent + p.taken <= p.announced + minuses + p.bare + 1
        else rcvevent <= MBOX_ROOM + U8_MAX + 1 + p.bare)
  }

  ghost predicate ReadInv(w: World, i: nat)
    requires i < |w.peers| && i < |w.s.slots|
  {
    && KnownOk(w, i)
    && (MadeReady(w, i) ==> w.s.slots[i].rcvevent == 0)
  }

  /** alloc_socket has cleared the receive count of `i`, and its maker has not yet made the
      descriptor known. */
  predicate MadeReady(w: World, i: nat) {
    && i < |w.peers| && w.peers[i].Peer? && w.peers[i].stage.Opened?
    && var t := w.peers[i].stage.maker;
       t < |w.calls| && t < |w.s.threads| && IsMaking(w.s.threads[t].pc, w.calls[t], i)
  }

  predicate IsMaking(pc: Pc, call: Call, i: nat) {
    call.Opening? && call.fd == i && (pc.Storing? ==> pc.k >= 2)
  }

  /** Other RCVPLUS that a socket can have counted without its receive count wrapping around. */
  const BARE_MAX := 0x7fff - MBOX_ROOM - U8_MAX - 2

  /** A RCVPLUS is received, a RCVMINUS is received, and a RCVMINUS is turned away. */
  lemma PlusReceived(p: Peer, r: int, pending: bool, minuses: nat, posting: bool, byCore: bool)
    requires p.Peer? && CountsOk(p) && p.bare <= BARE_MAX && minuses <= U8_MAX && RcvOk(p, r, pending, minuses, posting)
    requires byCore && Unannounced(p) ==> !pending
    ensures S16(r + 1) == r + 1 && RcvOk(Announced(p, byCore, true), r + 1, pending, minuses, posting)
  {
  }

  lemma MinusReceived(p: Peer, r: int, pending: bool, minuses: nat, posting: bool)
    requires p.Peer? && CountsOk(p) && p.bare <= BARE_MAX && 0 < minuses <= U8_MAX
    requires RcvOk(p, r, pending, minuses, posting)
    ensures S16(r - 1) == r - 1 && RcvOk(p, r - 1, pending, minuses - 1, posting)
  {
  }

  /** A thread with a RCVMINUS for `i` gets on with it, unless the socket is being closed. */
  lemma MinusGoesOn(s: State, th: Thread, a: Action, i: nat)
    requires Decide(s, th, a).Some? && th.deleting.None? && !th.pc.Running?
    requires i < |s.slots| && s.slots[i].conn.Some?
    ensures var pc := Decide(s, th, a).value.pc;
      if Brings(th.pc, i, RcvMinus) then
        if th.pc.EvApply? then !Brings(pc, i, RcvMinus)
        else Brings(pc, i, RcvMinus) || s.slots[i].pending.Pending?
      else !Brings(pc, i, RcvMinus)
  {
    OthersStayApplied(s, th, a);
  }

  /** Inside event_callback, and elsewhere inside an operation. */
  lemma WithinRead(w: World, t: Tid, a: Action, i: nat, r': int, pc': Pc, minuses: nat)
    requires t < |w.s.threads| && t < |w.calls| && !w.s.threads[t].pc.Running? && w.s.threads[t].deleting.None?
    requires i < |w.peers| && i < |w.s.slots| && CountsOk(w.peers[i]) && IsKnown(w.peers, i)
    requires w.peers[i].bare <= BARE_MAX && w.s.slots[i].conn.Some?
    requires Decide(w.s, w.s.threads[t], a).Some? && pc' == Decide(w.s, w.s.threads[t], a).value.pc
    requires r' == NextRcv(w.s.threads[t], w.s.slots[i], i)
    requires !StoresTo(w.s.threads[t].pc, i) && !w.s.threads[t].pc.Allocating?
    requires Is1(Brings(w.s.threads[t].pc, i, RcvMinus)) <= minuses <= U8_MAX
    requires RcvOk(w.peers[i], w.s.slots[i].rcvevent, w.s.slots[i].pending.Pending?, minuses, Posting(w, i))
    requires Unannounced(w.peers[i]) && w.core == Some(t) ==> w.s.slots[i].pending.NotPending?
    ensures RcvOk(Within(w, t, w.s.threads[t], a).peers[i], r', w.s.slots[i].pending.Pending?,
        minuses - Is1(Brings(w.s.threads[t].pc, i, RcvMinus)) + Is1(Brings(pc', i, RcvMinus)), Posting(w, i))
  {
    var th, slot := w.s.threads[t], w.s.slots[i];
    MinusGoesOn(w.s, th, a, i);
    if th.pc == EvApply(i, RcvPlus) {
      PlusReceived(w.peers[i], slot.rcvevent, slot.pending.Pending?, minuses, Posting(w, i), w.core == Some(t));
    } else if th.pc == EvApply(i, RcvMinus) {
      MinusReceived(w.peers[i], slot.rcvevent, slot.pending.Pending?, minuses, Posting(w, i));
    }
  }

  /** The receive count stays in place, the events on their way and the peer change. */
  ghost predicate RcvKeeps(w: World, i: nat, turn: Turn, minuses: nat, pending': bool, posting': bool)
    requires i < |w.peers| && i < |w.s.slots|
  {
    var slot := w.s.slots[i];
    IsKnown(w.peers, i) && RcvOk(w.peers[i], slot.rcvevent, slot.pending.Pending?, minuses, Posting(w, i)) ==>
      i < |turn.peers| && (IsKnown(turn.peers, i) ==>
        RcvOk(turn.peers[i], slot.rcvevent, pending', minuses + Is1(Raises(turn, i)), posting'))
  }

  /** The turn starts a RCVMINUS for `i`. */
  predicate Raises(turn: Turn, i: nat) {
    turn.action == Some(Post(i, RcvMinus))
  }

  /** err_tcp's message is still to come after this turn of thread `t`. */
  predicate PostingAfter(w: World, t: Tid, turn: Turn, i: nat) {
    if turn.core == Some(t) then turn.call.Handling? && turn.call.fd == i && turn.call.end.AckAndPost?
    else turn.core.Some? && Posting(w, i)
  }

  lemma CoreBeginsRead(w: World, t: Tid, d: Deed, i: nat, minuses: nat)
    requires CoreBegins(w, t, d).Some? && i < |w.peers| && i < |w.s.slots| && CountsOk(w.peers[i])
    ensures var turn := CoreBegins(w, t, d).value;
      RcvKeeps(w, i, turn, minuses, w.s.slots[i].pending.Pending?, PostingAfter(w, t, turn, i))
  {
  }

  lemma CallBeginsRead(w: World, t: Tid, d: Deed, i: nat, minuses: nat)
    requires CallBegins(w, t, d).Some? && i < |w.peers| && i < |w.s.slots| && CountsOk(w.peers[i])
    requires w.core != Some(t)
    ensures var turn := CallBegins(w, t, d).value;
      RcvKeeps(w, i, turn, minuses, w.s.slots[i].pending.Pending?, PostingAfter(w, t, turn, i))
  {
    match d
    case Receive(_, _) =>
    case Shutdown(_, _, _, _) =>
    case Close(_, _) =>
    case Replay(_) =>
    case _ =>
  }

  lemma CarryRead(w: World, t: Tid, d: Deed, i: nat, minuses: nat, pending': bool)
    requires t < |w.calls| && t < |w.s.threads| && Carry(w, t, d).Some?
    requires i < |w.peers| && i < |w.s.slots| && CountsOk(w.peers[i]) && minuses <= U8_MAX
    requires CallOk(w.s.threads[t], t, w.calls[t], w.peers, w.core)
    requires Unannounced(w.peers[i]) && w.core == Some(t) ==> AnnouncesTo(w, t, i)
    requires Carry(w, t, d).value.action.Some? || pending' == w.s.slots[i].pending.Pending?
    requires w.s.slots[i].pending.Pending? ==> pending'
    ensures var turn := Carry(w, t, d).value;
      RcvKeeps(w, i, turn, minuses, pending', PostingAfter(w, t, turn, i))
  {
    match w.calls[t]
    case NoCall =>
    case Handling(_, _, _, _) =>
    case Closing(_, _) =>
    case Opening(_, _) =>
  }

  lemma OthersMaking(w: World, t: Tid, d: Deed, w': World, i: nat)
    requires RefInv(w.s) && Protocol(w) && Acts(w, t, d, w') && i < |w.peers| && ReadInv(w, i)
    requires MadeReady(w', i) && w'.peers[i].stage.maker != t
    ensures i < |w'.s.slots| && w'.s.slots[i].rcvevent == 0
  {
    var th, turn := w.s.threads[t], Decision(w, t, d).value;
    var u := w'.peers[i].stage.maker;
    assert CallOk(th, t, w.calls[t], w.peers, w.core);
    PeersChange(w, t, d, i);
    if turn.action.Some? {
      EventFields(w.s, t, turn.action.value, w'.s, i);
      ThreadsAfterAt(w.s, t, Decide(w.s, th, turn.action.value).value, u);
    }
    assert MadeReady(w, i);
    OnlyTheMaker(th, t, w.calls[t], w.peers, w.core, w.s.slots[i], i);
  }

  lemma OwnMaking(w: World, t: Tid, d: Deed, w': World, i: nat)
    requires Acts(w, t, d, w') && i < |w.peers| == |w.s.slots| && ReadInv(w, i)
    requires CallOk(w.s.threads[t], t, w.calls[t], w.peers, w.core)
    requires MadeReady(w', i) && w'.peers[i].stage.maker == t
    ensures i < |w'.s.slots| && w'.s.slots[i].rcvevent == 0
  {
    var th := w.s.threads[t];
    StaysMaker(w, t, d);
    EventFields(w.s, t, d.action, w'.s, i);
    ThreadsAfterAt(w.s, t, Decide(w.s, th, d.action).value, t);
    assert w.calls[t] == w'.calls[t] ==> MadeReady(w, i) || (th.deleting.None? && StoresTo(th.pc, i) && th.pc.k == 1);
  }

  /** The receive count of a known, open socket after a step. */
  ghost predicate KnownOk(w: World, i: nat)
    requires i < |w.peers| && i < |w.s.slots|
  {
    IsKnown(w.peers, i) && w.s.slots[i].conn.Some? ==>
      RcvOk(w.peers[i], w.s.slots[i].rcvevent, w.s.slots[i].pending.Pending?, Minuses(w.s.threads, i), Posting(w, i))
  }

  /** What a step of thread `t` inside an operation leaves at descriptor `i`. */
  ghost predicate InsideStep(s: State, t: Tid, a: Action, s': State, i: nat)
    requires t < |s.threads| && i < |s.slots|
  {
    && t < |s'.threads| && i < |s'.slots|
    && s'.slots[i].rcvevent == NextRcv(s.threads[t], s.slots[i], i) && s'.slots[i].pending == s.slots[i].pending
    && Is1(Brings(s.threads[t].pc, i, RcvMinus)) <= Minuses(s.threads, i)
    && Minuses(s'.threads, i)
       == Minuses(s.threads, i) - Is1(Brings(s.threads[t].pc, i, RcvMinus)) + Is1(Brings(s'.threads[t].pc, i, RcvMinus))
    && Decide(s, s.threads[t], a).Some? && s'.threads[t].pc == Decide(s, s.threads[t], a).value.pc
  }

  lemma InsideSteps(s: State, t: Tid, a: Action, s': State, i: nat)
    requires Next(s, t, a, s') && i < |s.slots| && i < |s'.slots| && !s.threads[t].pc.Running?
    requires s.slots[i].conn.Some? && s'.slots[i].conn.Some?
    ensures InsideStep(s, t, a, s', i)
  {
    EventFields(s, t, a, s', i);
    MinusesStep(s, t, a, s', i);
    ThreadsAfterAt(s, t, Decide(s, s.threads[t], a).value, t);
    PendingOnlyByFree(s, t, a, s', i);
  }

  lemma InsideKnown(w: World, t: Tid, a: Action, w': World, i: nat)
    requires t < |w.s.threads| && t < |w.calls| && i < |w.peers| == |w.s.slots| && InsideStep(w.s, t, a, w'.s, i)
    requires w'.peers == Within(w, t, w.s.threads[t], a).peers && Posting(w', i) == Posting(w, i)
    requires KnownOk(w, i) && CountsOk(w.peers[i]) && w.peers[i].Peer? && w.peers[i].bare <= BARE_MAX
    requires w.s.threads[t].deleting.None? && !w.s.threads[t].pc.Running?
    requires CallOk(w.s.threads[t], t, w.calls[t], w.peers, w.core) && Minuses(w.s.threads, i) <= U8_MAX
    requires IsKnown(w.peers, i) && w.s.slots[i].conn.Some? && IsKnown(w'.peers, i)
    requires Unannounced(w.peers[i]) && w.core == Some(t) ==> w.s.slots[i].pending.NotPending?
    ensures KnownOk(w', i)
  {
    var th := w.s.threads[t];
    if !th.pc.Allocating? {
      WithinRead(w, t, a, i, w'.s.slots[i].rcvevent, w'.s.threads[t].pc, Minuses(w.s.threads, i));
    } else {
      OthersStayApplied(w.s, th, a);
    }
  }

  lemma SamePosting(w: World, t: Tid, d: Deed, w': World, i: nat)
    requires Acts(w, t, d, w') && !w.s.threads[t].pc.Running?
    requires CallOk(w.s.threads[t], t, w.calls[t], w.peers, w.core)
    ensures Posting(w', i) == Posting(w, i)
  {
  }

  /** Inside an operation, no release becomes pending. */
  lemma PendingOnlyByFree(s: State, t: Tid, a: Action, s': State, i: nat)
    requires Next(s, t, a, s') && i < |s.slots| && !s.threads[t].pc.Running?
    requires s.slots[i].conn.Some? && s'.slots[i].conn.Some?
    ensures s'.slots[i].pending == s.slots[i].pending
  {
    var e := Decide(s, s.threads[t], a).value.effect;
    ConnMoves(s, s.threads[t], a);
    if Touches(e) == Some(i) && !e.Take? { KeepsConn(s.slots[i], e); }
  }

  lemma BetweenSteps(s: State, t: Tid, a: Action, s': State, i: nat)
    requires Next(s, t, a, s') && i < |s.slots| && s.threads[t].pc.Running? && s.threads[t].deleting.None?
    requires s.slots[i].conn.Some? && i < |s'.slots| && s'.slots[i].conn.Some?
    ensures s'.slots[i].rcvevent == s.slots[i].rcvevent
    ensures Minuses(s'.threads, i) == Minuses(s.threads, i) + Is1(a == Post(i, RcvMinus))
    ensures s.slots[i].pending.Pending? ==> s'.slots[i].pending.Pending?
    ensures s'.slots[i].pending == s.slots[i].pending || a.FreeSocket?
  {
    EventFields(s, t, a, s', i);
    MinusesStep(s, t, a, s', i);
    StartAfter(s, s.threads[t], a);
    ThreadsAfterAt(s, t, Decide(s, s.threads[t], a).value, t);
    ConnMoves(s, s.threads[t], a);
    var e := Decide(s, s.threads[t], a).value.effect;
    if Touches(e) == Some(i) && !e.Free? { KeepsConn(s.slots[i], e); }
  }

  /** What the turn of a thread between two operations does to the receive count of `i`. */
  lemma BetweenKeeps(w: World, t: Tid, d: Deed, i: nat, minuses: nat, pending': bool)
    requires t < |w.calls| && t < |w.s.threads| && Decision(w, t, d).Some?
    requires w.s.threads[t].deleting.None? && w.s.threads[t].pc.Running?
    requires i < |w.peers| == |w.s.slots| && CountsOk(w.peers[i]) && minuses <= U8_MAX
    requires CallOk(w.s.threads[t], t, w.calls[t], w.peers, w.core) && (w.core == Some(t) ==> w.calls[t].Handling?)
    requires Unannounced(w.peers[i]) && w.core == Some(t) ==> AnnouncesTo(w, t, i)
    requires w.s.slots[i].pending.Pending? ==> pending'
    requires var a := Decision(w, t, d).value.action;
      (a.Some? && a.value.FreeSocket?) || pending' == w.s.slots[i].pending.Pending?
    ensures var turn := Decision(w, t, d).value;
      RcvKeeps(w, i, turn, minuses, pending', PostingAfter(w, t, turn, i))
  {
    if !w.calls[t].NoCall? {
      CarryRead(w, t, d, i, minuses, pending');
    } else if d.Arrive? || d.Notify? || d.Break? {
      CoreBeginsRead(w, t, d, i, minuses);
    } else if !d.Table? {
      CallBeginsRead(w, t, d, i, minuses);
    }
  }

  lemma PostingIs(w: World, t: Tid, d: Deed, w': World, i: nat)
    requires Acts(w, t, d, w')
    ensures Posting(w', i) == PostingAfter(w, t, Decision(w, t, d).value, i)
  {
  }

  /** The socket was known and open before the step, and still is. */
  lemma KnownStaysOk(w: World, t: Tid, d: Deed, w': World, i: nat)
    requires RefInv(w.s) && Protocol(w) && Acts(w, t, d, w') && i < |w.peers| && KnownOk(w, i)
    requires IsKnown(w.peers, i) && IsKnown(w'.peers, i) && w.peers[i].bare <= BARE_MAX
    requires w.s.slots[i].conn.Some? && i < |w'.s.slots| && w'.s.slots[i].conn.Some?
    ensures KnownOk(w', i)
  {
    var th, turn := w.s.threads[t], Decision(w, t, d).value;
    assert CallOk(th, t, w.calls[t], w.peers, w.core) && PeerOk(w, i);
    MinusesBound(w, i);
    if Unannounced(w.peers[i]) { CoreAnnounces(w, i); }
    if th.deleting.None? && !th.pc.Running? {
      InsideSteps(w.s, t, d.action, w'.s, i);
      SamePosting(w, t, d, w', i);
      InsideKnown(w, t, d.action, w', i);
    } else if th.deleting.None? {
      BetweenKnown(w, t, d, w', i);
    } else {
      DeletesOnly(w, t, d, w', i);
    }
  }

  lemma BetweenKnown(w: World, t: Tid, d: Deed, w': World, i: nat)
    requires Acts(w, t, d, w') && i < |w.peers| == |w.s.slots| && KnownOk(w, i) && CountsOk(w.peers[i])
    requires w.s.threads[t].deleting.None? && w.s.threads[t].pc.Running?
    requires CallOk(w.s.threads[t], t, w.calls[t], w.peers, w.core) && CoreIsHandling(w.calls, w.core)
    requires Minuses(w.s.threads, i) <= U8_MAX
    requires Unannounced(w.peers[i]) && w.core == Some(t) ==> AnnouncesTo(w, t, i)
    requires IsKnown(w.peers, i) && IsKnown(w'.peers, i)
    requires w.s.slots[i].conn.Some? && i < |w'.s.slots| && w'.s.slots[i].conn.Some?
    ensures KnownOk(w', i)
  {
    var turn := Decision(w, t, d).value;
    if turn.action.Some? { BetweenSteps(w.s, t, turn.action.value, w'.s, i); }
    BetweenKeeps(w, t, d, i, Minuses(w.s.threads, i), w'.s.slots[i].pending.Pending?);
    PostingIs(w, t, d, w', i);
  }

  /** A thread that has a netconn to delete does just that. */
  lemma DeletesOnly(w: World, t: Tid, d: Deed, w': World, i: nat)
    requires Acts(w, t, d, w') && w.s.threads[t].deleting.Some? && i < |w.s.slots|
    ensures w'.peers == w.peers && w'.s.slots == w.s.slots && Posting(w', i) == Posting(w, i)
    ensures Minuses(w'.s.threads, i) == Minuses(w.s.threads, i)
  {
    MinusesStep(w.s, t, d.action, w'.s, i);
    ThreadsAfterAt(w.s, t, Decide(w.s, w.s.threads[t], d.action).value, t);
  }

  /** The step makes the descriptor known. */
  lemma BecomesKnown(w: World, t: Tid, d: Deed, w': World, i: nat)
    requires RefInv(w.s) && Protocol(w) && Acts(w, t, d, w') && i < |w.peers| && ReadInv(w, i)
    requires !IsKnown(w.peers, i) && IsKnown(w'.peers, i) && i < |w'.s.slots|
    ensures KnownOk(w', i)
  {
    var th := w.s.threads[t];
    assert CallOk(th, t, w.calls[t], w.peers, w.core) && PeerOk(w, i);
    PublishesOnly(w, t, d, i);
    MinusesBound(w, i);
    assert MadeReady(w, i);
  }

  lemma PublishesOnly(w: World, t: Tid, d: Deed, i: nat)
    requires t < |w.calls| && t < |w.s.threads| && Decision(w, t, d).Some? && i < |w.peers|
    requires !IsKnown(w.peers, i) && IsKnown(Decision(w, t, d).value.peers, i)
    ensures w.s.threads[t].deleting.None? && w.s.threads[t].pc.Running? && d.Publish?
    ensures w.calls[t].Opening? && w.calls[t].fd == i && w.peers[i].Peer?
    ensures Decision(w, t, d).value == Turn(None, w.peers[i := w.peers[i].(stage := Known)], NoCall, w.core)
  {
    var th := w.s.threads[t];
    if th.deleting.None? && th.pc.Running? {
      if !w.calls[t].NoCall? {
        CarryPublishes(w, t, d, i);
      } else if !d.Table? {
        BeginPublishes(w, t, d, i);
      }
    }
  }

  lemma CarryPublishes(w: World, t: Tid, d: Deed, i: nat)
    requires t < |w.calls| && Carry(w, t, d).Some? && i < |w.peers|
    requires !IsKnown(w.peers, i) && IsKnown(Carry(w, t, d).value.peers, i)
    ensures d.Publish? && w.calls[t].Opening? && w.calls[t].fd == i && w.peers[i].Peer?
    ensures Carry(w, t, d).value == Turn(None, w.peers[i := w.peers[i].(stage := Known)], NoCall, w.core)
  {
  }

  lemma BeginPublishes(w: World, t: Tid, d: Deed, i: nat)
    requires i < |w.peers| && !IsKnown(w.peers, i)
    ensures CoreBegins(w, t, d).Some? ==> !IsKnown(CoreBegins(w, t, d).value.peers, i)
    ensures CallBegins(w, t, d).Some? ==> !IsKnown(CallBegins(w, t, d).value.peers, i)
  {
  }

  lemma ReadStep(w: World, t: Tid, d: Deed, w': World, i: nat)
    requires RefInv(w.s) && Protocol(w) && Acts(w, t, d, w') && i < |w.peers| && ReadInv(w, i)
    requires w.peers[i].Peer? ==> w.peers[i].bare <= BARE_MAX
    ensures i < |w'.peers| == |w'.s.slots| && ReadInv(w', i)
  {
    SlotsChange(w, t, d, w', i);
    assert PeerOk(w, i);
    assert CallOk(w.s.threads[t], t, w.calls[t], w.peers, w.core);
    PeersChange(w, t, d, i);
    if MadeReady(w', i) {
      if w'.peers[i].stage.maker == t { OwnMaking(w, t, d, w', i); } else { OthersMaking(w, t, d, w', i); }
    }
    if IsKnown(w'.peers, i) && w'.s.slots[i].conn.Some? {
      if IsKnown(w.peers, i) {
        KnownStaysOk(w, t, d, w', i);
      } else {
        BecomesKnown(w, t, d, w', i);
      }
    }
  }
}
