/** Closed sockets over whole calls: netconn_prepare_delete makes a socket writable before it
    can be freed, and it stays so until its slot is somebody else's.

    So when alloc_socket takes a slot that select calls still wait for, because they could not
    mark the closing socket and were counted in on its successor, the slot has been writable
    for them since that one was closed, and its SENDPLUS has told them. The exceptions are a
    close whose events go nowhere, as the descriptor is not in callback_arg.socket yet, and a
    select call that counts itself in on a slot while alloc_socket makes its stores; what is
    proved here is that without these the third store surprises nobody. */
module SocketWritable {
  import opened Common
  import opened SocketTable
  import opened SocketThreads
  import opened SelectCall
  import opened SocketRefcount
  import opened SocketSelect
  import opened SocketCalls
  import opened SocketProtocol

  // ---- A closed socket is writable

  /** alloc_socket has not finished, or has, and the descriptor is not known yet. */
  predicate StoredUpTo(w: World, i: nat, k: nat) {
    && i < |w.peers| && w.peers[i].Peer? && w.peers[i].stage.Opened?
    && var t := w.peers[i].stage.maker;
       && t < |w.calls| && t < |w.s.threads| && w.calls[t].Opening? && w.calls[t].fd == i
       && (w.s.threads[t].pc.Storing? ==> w.s.threads[t].pc.k > k)
  }

  /** lwip_close has yet to raise its SENDPLUS, or to have it applied. */
  predicate SendComing(w: World, i: nat)
    requires i < |w.s.slots|
  {
    && IsKnown(w.peers, i) && w.core.Some? && w.core.value < |w.calls| && w.core.value < |w.s.threads|
    && SendsTo(w.s.threads[w.core.value].pc, w.calls[w.core.value], w.s.slots[i].conn, i)
  }

  predicate SendsTo(pc: Pc, call: Call, conn: Option<ConnId>, i: nat) {
    && call.Handling? && call.fd == i && call.conn == conn && call.end.AckAndFree?
    && (SendPlus in call.todo || Brings(pc, i, SendPlus))
  }

  /** A socket that is, or may be, freed is writable, or is about to become so; one that
      select calls wait for is so before alloc_socket makes it writable. */
  ghost predicate WriteInv(w: World, i: nat)
    requires i < |w.peers| && i < |w.s.slots|
  {
    var p, slot := w.peers[i], w.s.slots[i];
    && (Ended(p) ==> slot.sendevent || SendComing(w, i))
    && (slot.pending.Pending? || (p.Peer? && slot.conn.None?) ==> slot.sendevent)
    && (forall t :: 0 <= t < |w.calls| && ClosingIt(w.calls[t], i) ==> slot.sendevent)
    && (AcceptedUpTo(w, i, 2) ==> slot.sendevent)
    && (SettingUp(w.s, i) ==> !Ended(p))
  }

  predicate ClosingIt(call: Call, i: nat) {
    call.Closing? && call.fd == i
  }

  /** lwip_close on a socket whose descriptor is not known, so that its events are dropped,
      and which alloc_socket has not made writable. */
  predicate ClosesBlindly(w: World, d: Deed, i: nat) {
    && d.Close? && d.fd == i && i < |w.peers| && i < |w.s.slots| && !IsKnown(w.peers, i)
    && !(w.s.slots[i].sendevent && !SettingUp(w.s, i))
  }

  /** Once a socket may be freed, nothing makes it unwritable. */
  lemma StaysWritable(w: World, t: Tid, i: nat)
    requires Protocol(w) && t < |w.s.threads| && i < |w.peers| && Ended(w.peers[i])
    requires SettingUp(w.s, i) ==> !Ended(w.peers[i])
    ensures w.s.slots[i].sendevent ==> NextSend(w.s.threads[t], w.s.slots[i], i)
  {
    var th := w.s.threads[t];
    assert CallOk(th, t, w.calls[t], w.peers, w.core) && PeerOk(w, i);
    assert StoresTo(th.pc, i) ==> SettingUp(w.s, i);
  }

  /** sendevent of slot `i` after a deed. */
  lemma SendAfter(w: World, t: Tid, d: Deed, w': World, i: nat)
    requires Acts(w, t, d, w') && i < |w.s.slots|
    ensures i < |w'.s.slots|
    ensures w'.s.slots[i].sendevent == if Decision(w, t, d).value.action.Some?
                                       then NextSend(w.s.threads[t], w.s.slots[i], i) else w.s.slots[i].sendevent
  {
    var a := Decision(w, t, d).value.action;
    if a.Some? { EventFields(w.s, t, a.value, w'.s, i); }
  }

  /** Which deeds let a socket be freed that could not be before. */
  lemma EndsBy(w: World, t: Tid, d: Deed, i: nat)
    requires t < |w.calls| && t < |w.s.threads| && Decision(w, t, d).Some? && i < |w.peers|
    requires i < |Decision(w, t, d).value.peers|
    requires !Ended(w.peers[i]) && Ended(Decision(w, t, d).value.peers[i])
    ensures w.s.threads[t].deleting.None? && w.s.threads[t].pc.Running? && w.peers[i].Peer?
    ensures if d.Close? then d.fd == i && w.calls[t].NoCall? && w.core.None? && d.fd in w.s.threads[t].holds
            else d.Abandon? && w.calls[t] == Opening(i, true)
  {
    var th := w.s.threads[t];
    if th.deleting.None? && th.pc.Running? {
      if !w.calls[t].NoCall? {
        CarryEnds(w, t, d, i);
      } else if d.Arrive? || d.Notify? || d.Break? {
        CoreBeginsEnds(w, t, d, i);
      } else if !d.Table? {
        CallBeginsEnds(w, t, d, i);
      }
    }
  }

  lemma CarryEnds(w: World, t: Tid, d: Deed, i: nat)
    requires t < |w.calls| && Carry(w, t, d).Some? && i < |w.peers| && i < |Carry(w, t, d).value.peers|
    requires !Ended(w.peers[i]) && Ended(Carry(w, t, d).value.peers[i])
    ensures d.Abandon? && w.calls[t] == Opening(i, true) && w.peers[i].Peer?
  {
  }

  lemma CoreBeginsEnds(w: World, t: Tid, d: Deed, i: nat)
    requires CoreBegins(w, t, d).Some? && i < |w.peers| && i < |CoreBegins(w, t, d).value.peers|
    ensures !Ended(w.peers[i]) ==> !Ended(CoreBegins(w, t, d).value.peers[i])
  {
  }

  lemma CallBeginsEnds(w: World, t: Tid, d: Deed, i: nat)
    requires CallBegins(w, t, d).Some? && i < |w.peers| && i < |CallBegins(w, t, d).value.peers|
    requires !Ended(w.peers[i]) && Ended(CallBegins(w, t, d).value.peers[i])
    ensures d.Close? && d.fd == i && w.core.None? && w.peers[i].Peer?
  {
  }

  /** A thread that is about to have its SENDPLUS applied gets there, or finds the socket
      closing. */
  lemma SenderWithin(w: World, t: Tid, a: Action, i: nat)
    requires t < |w.s.threads| && t < |w.calls| && !w.s.threads[t].pc.Running? && i < |w.s.slots|
    requires w.s.threads[t].deleting.None? && Decide(w.s, w.s.threads[t], a).Some?
    requires SendsTo(w.s.threads[t].pc, w.calls[t], w.s.slots[i].conn, i)
    requires w.s.slots[i].conn.Some? && w.s.slots[i].pending.NotPending?
    requires InCallback(w.s.threads[t].pc, i)
    ensures Within(w, t, w.s.threads[t], a).call == w.calls[t] && Within(w, t, w.s.threads[t], a).core == w.core
    ensures NextSend(w.s.threads[t], w.s.slots[i], i)
      || SendsTo(Decide(w.s, w.s.threads[t], a).value.pc, w.calls[t], w.s.slots[i].conn, i)
  {
  }

  lemma SenderCarries(w: World, t: Tid, d: Deed, i: nat, after: Thread)
    requires t < |w.s.threads| && t < |w.calls| && w.s.threads[t].pc.Running? && Carry(w, t, d).Some? && i < |w.s.slots|
    requires SendsTo(w.s.threads[t].pc, w.calls[t], w.s.slots[i].conn, i) && IsKnown(w.peers, i)
    requires var turn := Carry(w, t, d).value;
      if turn.action.Some? then StartsAt(w.s.threads[t], turn.action.value, after) else after == w.s.threads[t]
    ensures var turn := Carry(w, t, d).value;
      turn.core == w.core && SendsTo(after.pc, turn.call, w.s.slots[i].conn, i)
  {
  }

  lemma OwnSend(w: World, t: Tid, d: Deed, w': World, i: nat)
    requires RefInv(w.s) && Protocol(w) && Acts(w, t, d, w') && i < |w.peers| == |w'.s.slots|
    requires SendComing(w, i) && w.core == Some(t)
    requires w.s.slots[i].conn.Some? && w.s.slots[i].pending.NotPending?
    ensures w'.s.slots[i].sendevent
      || (w'.core == Some(t) && t < |w'.s.threads| && SendsTo(w'.s.threads[t].pc, w'.calls[t], w.s.slots[i].conn, i))
  {
    var th, turn := w.s.threads[t], Decision(w, t, d).value;
    assert CallOk(th, t, w.calls[t], w.peers, w.core);
    SendAfter(w, t, d, w', i);
    if turn.action.Some? {
      ThreadsAfterAt(w.s, t, Decide(w.s, th, turn.action.value).value, t);
    }
    if th.deleting.None? && th.pc.Running? {
      if turn.action.Some? { StartAfter(w.s, th, turn.action.value); }
      SenderCarries(w, t, d, i, w'.s.threads[t]);
    } else if th.deleting.None? {
      SenderWithin(w, t, d.action, i);
    }
  }

  lemma SendComingStep(w: World, t: Tid, d: Deed, w': World, i: nat)
    requires RefInv(w.s) && Protocol(w) && Acts(w, t, d, w') && Protocol(w') && i < |w.peers| == |w'.peers|
    requires SendComing(w, i) && w.s.slots[i].pending.NotPending?
    ensures w'.s.slots[i].sendevent || SendComing(w', i)
  {
    var u := w.core.value;
    assert CallOk(w.s.threads[u], u, w.calls[u], w.peers, w.core);
    assert CallOk(w.s.threads[t], t, w.calls[t], w.peers, w.core);
    PeersChange(w, t, d, i);
    OtherThread(w, t, d, w', u);
    assert Vouched(w.s.threads[u], i, w.s.slots[i]);
    if u == t { OwnSend(w, t, d, w', i); }
    if w'.core == Some(u) && u < |w'.calls| && w'.calls[u].Handling? && w'.calls[u].fd == i
       && w'.calls[u].end.AckAndFree? {
      assert CallOk(w'.s.threads[u], u, w'.calls[u], w'.peers, w'.core);
      OwnedStays(w, t, d, w', u, i);
      KnownAndOpenStays(w, t, d, i);
    }
  }

  lemma KnownAndOpenStays(w: World, t: Tid, d: Deed, i: nat)
    requires t < |w.calls| && t < |w.s.threads| && Decision(w, t, d).Some? && i < |w.peers| == |w.s.slots|
    requires CallOk(w.s.threads[t], t, w.calls[t], w.peers, w.core)
    requires IsKnown(w.peers, i) && w.s.slots[i].conn.Some?
    ensures IsKnown(Decision(w, t, d).value.peers, i)
  {
    PeersChange(w, t, d, i);
  }

  lemma EndedWritable(w: World, t: Tid, d: Deed, w': World, i: nat)
    requires RefInv(w.s) && Protocol(w) && Acts(w, t, d, w') && Protocol(w') && i < |w.peers| == |w'.peers|
    requires WriteInv(w, i) && !ClosesBlindly(w, d, i) && Ended(w'.peers[i])
    ensures w'.s.slots[i].sendevent || SendComing(w', i)
  {
    SendAfter(w, t, d, w', i);
    if Ended(w.peers[i]) {
      StaysWritable(w, t, i);
      if !w.s.slots[i].sendevent { SendComingStep(w, t, d, w', i); }
    } else {
      EndsBy(w, t, d, i);
      if d.Abandon? {
        assert CallOk(w.s.threads[t], t, w.calls[t], w.peers, w.core) && StoredUpTo(w, i, 2);
      } else {
        CloseSends(w, t, d, w', i);
      }
    }
  }

  lemma CloseSends(w: World, t: Tid, d: Deed, w': World, i: nat)
    requires Acts(w, t, d, w') && i < |w.peers| == |w.s.slots| && d.Close? && d.fd == i
    requires !ClosesBlindly(w, d, i)
    ensures i < |w'.s.slots| && (w'.s.slots[i].sendevent || SendComing(w', i))
  {
    assert Raised(d.isTcp && !w.peers[i].gone, true, true)[if d.isTcp && !w.peers[i].gone then 2 else 1] == SendPlus;
  }

  /** The step releases slot `i`, or lets its release become pending: who does that. */
  lemma FreesBy(w: World, t: Tid, d: Deed, w': World, i: nat)
    requires Protocol(w) && Acts(w, t, d, w') && i < |w.peers| && i < |w'.s.slots|
    requires w.s.slots[i].pending.NotPending? && w.s.slots[i].conn.Some?
    requires w'.s.slots[i].pending.Pending? || w'.s.slots[i].conn.None?
    ensures w.s.threads[t].deleting.None? && w.s.threads[t].pc.Running?
    ensures w'.s.slots[i].sendevent == w.s.slots[i].sendevent
    ensures ClosingIt(w.calls[t], i) || (w.calls[t] == Opening(i, true) && StoredUpTo(w, i, 2))
  {
    SendAfter(w, t, d, w', i);
    var th, a := w.s.threads[t], Decision(w, t, d).value.action;
    assert CallOk(th, t, w.calls[t], w.peers, w.core);
    ConnMoves(w.s, th, a.value);
    var e := Decide(w.s, th, a.value).value.effect;
    if Touches(e) == Some(i) && !e.Free? && !e.Take? { KeepsConn(w.s.slots[i], e); }
    assert a.value.FreeSocket? && a.value.fd == i;
    OnlyCarryFrees(w, t, d);
  }

  lemma OnlyCarryFrees(w: World, t: Tid, d: Deed)
    requires t < |w.calls| && t < |w.s.threads| && Decision(w, t, d).Some?
    requires var a := Decision(w, t, d).value.action; a.Some? && a.value.FreeSocket?
    requires w.s.threads[t].deleting.None? && w.s.threads[t].pc.Running?
    ensures var i := Decision(w, t, d).value.action.value.fd;
      ClosingIt(w.calls[t], i) || w.calls[t] == Opening(i, true)
  {
  }

  lemma FreedWritable(w: World, t: Tid, d: Deed, w': World, i: nat)
    requires RefInv(w.s) && Protocol(w) && Acts(w, t, d, w') && Protocol(w') && i < |w.peers| == |w'.peers|
    requires WriteInv(w, i)
    requires w'.s.slots[i].pending.Pending? || (w'.peers[i].Peer? && w'.s.slots[i].conn.None?)
    ensures w'.s.slots[i].sendevent
  {
    assert PeerOk(w, i) && PeerOk(w', i);
    if w.s.slots[i].pending.Pending? || w.s.slots[i].conn.None? {
      if !Ended(w.peers[i]) { EndsBy(w, t, d, i); }
      SendAfter(w, t, d, w', i);
      StaysWritable(w, t, i);
    } else {
      FreesBy(w, t, d, w', i);
    }
  }

  lemma ClosingWritable(w: World, t: Tid, d: Deed, w': World, i: nat, u: Tid)
    requires RefInv(w.s) && Protocol(w) && Acts(w, t, d, w') && i < |w.peers| && WriteInv(w, i)
    requires u < |w'.calls| && ClosingIt(w'.calls[u], i)
    ensures i < |w'.s.slots| && w'.s.slots[i].sendevent
  {
    SendAfter(w, t, d, w', i);
    assert CallOk(w.s.threads[u], u, w.calls[u], w.peers, w.core);
    if ClosingIt(w.calls[u], i) {
      StaysWritable(w, t, i);
    } else {
      ClosesAfter(w, t, d, i);
    }
  }

  /** lwip_close goes on after the last event of the handler. */
  lemma ClosesAfter(w: World, t: Tid, d: Deed, i: nat)
    requires t < |w.calls| && t < |w.s.threads| && Decision(w, t, d).Some?
    requires !ClosingIt(w.calls[t], i) && ClosingIt(Decision(w, t, d).value.call, i)
    ensures w.s.threads[t].deleting.None? && w.s.threads[t].pc.Running? && Decision(w, t, d).value.action.None?
    ensures w.calls[t].Handling? && w.calls[t].fd == i && w.calls[t].todo == [] && w.calls[t].end.AckAndFree?
  {
    var th := w.s.threads[t];
    if th.deleting.None? && th.pc.Running? {
      if w.calls[t].NoCall? {
        if !d.Table? && !d.Arrive? && !d.Notify? && !d.Break? { NeverCloses(w, t, d); }
      } else {
        CarryCloses(w, t, d, i);
      }
    }
  }

  lemma NeverCloses(w: World, t: Tid, d: Deed)
    requires CallBegins(w, t, d).Some?
    ensures !CallBegins(w, t, d).value.call.Closing?
  {
  }

  lemma CarryCloses(w: World, t: Tid, d: Deed, i: nat)
    requires t < |w.calls| && Carry(w, t, d).Some? && ClosingIt(Carry(w, t, d).value.call, i)
    ensures Carry(w, t, d).value.action.None?
    ensures w.calls[t].Handling? && w.calls[t].fd == i && w.calls[t].todo == [] && w.calls[t].end.AckAndFree?
  {
  }

  predicate AcceptedUpTo(w: World, i: nat, k: nat) {
    StoredUpTo(w, i, k) && w.calls[w.peers[i].stage.maker].accepted
  }

  lemma StoredWritable(w: World, t: Tid, d: Deed, w': World, i: nat)
    requires RefInv(w.s) && Protocol(w) && Acts(w, t, d, w') && i < |w.peers| && WriteInv(w, i)
    requires AcceptedUpTo(w', i, 2) && w'.peers[i].stage.maker != t
    ensures i < |w'.s.slots| && w'.s.slots[i].sendevent
  {
    var th, u := w.s.threads[t], w'.peers[i].stage.maker;
    assert CallOk(th, t, w.calls[t], w.peers, w.core);
    PeersChange(w, t, d, i);
    SendAfter(w, t, d, w', i);
    OtherThread(w, t, d, w', u);
    assert AcceptedUpTo(w, i, 2);
    OnlyTheMaker(th, t, w.calls[t], w.peers, w.core, w.s.slots[i], i);
  }

  lemma MakerStored(w: World, t: Tid, d: Deed, w': World, i: nat)
    requires Protocol(w) && Acts(w, t, d, w') && i < |w.peers| && i < |w.s.slots| && WriteInv(w, i)
    requires AcceptedUpTo(w', i, 2) && w'.peers[i].stage.maker == t
    ensures i < |w'.s.slots| && w'.s.slots[i].sendevent
  {
    assert CallOk(w.s.threads[t], t, w.calls[t], w.peers, w.core);
    SendAfter(w, t, d, w', i);
    StaysMaker(w, t, d);
    ThreadsAfterAt(w.s, t, Decide(w.s, w.s.threads[t], d.action).value, t);
    OwnStored(w, t, d.action, i);
  }

  /** The maker itself: the third store makes an accepted socket writable. */
  lemma OwnStored(w: World, t: Tid, a: Action, i: nat)
    requires t < |w.s.threads| && t < |w.calls| && i < |w.peers| && i < |w.s.slots|
    requires Decide(w.s, w.s.threads[t], a).Some?
    requires CallOk(w.s.threads[t], t, w.calls[t], w.peers, w.core)
    requires w.s.threads[t].deleting.Some? || !w.s.threads[t].pc.Running?
    requires var call := Within(w, t, w.s.threads[t], a).call; call.Opening? && call.fd == i && call.accepted
    requires var pc := Decide(w.s, w.s.threads[t], a).value.pc; pc.Storing? ==> pc.k > 2
    requires AcceptedUpTo(w, i, 2) ==> w.s.slots[i].sendevent
    ensures NextSend(w.s.threads[t], w.s.slots[i], i)
  {
  }

  lemma OthersSetup(w: World, t: Tid, d: Deed, w': World, i: nat, u: Tid)
    requires Protocol(w) && Acts(w, t, d, w') && i < |w.peers| == |w'.peers|
    requires WriteInv(w, i) && !ClosesBlindly(w, d, i)
    requires u < |w.s.threads| && u != t && StoresTo(w.s.threads[u].pc, i)
    ensures !Ended(w'.peers[i])
  {
    assert SettingUp(w.s, i);
    assert CallOk(w.s.threads[u], u, w.calls[u], w.peers, w.core);
    assert CallOk(w.s.threads[t], t, w.calls[t], w.peers, w.core);
    if Ended(w'.peers[i]) { EndsBy(w, t, d, i); }
  }

  lemma NotEndedInSetup(w: World, t: Tid, d: Deed, w': World, i: nat)
    requires Protocol(w) && Acts(w, t, d, w') && Protocol(w') && i < |w.peers| == |w'.peers|
    requires WriteInv(w, i) && !ClosesBlindly(w, d, i) && SettingUp(w'.s, i)
    ensures !Ended(w'.peers[i])
  {
    var u :| 0 <= u < |w'.s.threads| && StoresTo(w'.s.threads[u].pc, i);
    OtherThread(w, t, d, w', u);
    if u != t {
      OthersSetup(w, t, d, w', i, u);
    } else {
      assert CallOk(w'.s.threads[u], u, w'.calls[u], w'.peers, w'.core);
      OwnSetup(w, t, d, w', i);
    }
  }

  lemma OwnSetup(w: World, t: Tid, d: Deed, w': World, i: nat)
    requires Protocol(w) && Acts(w, t, d, w') && i < |w.peers| == |w'.peers| && WriteInv(w, i)
    requires t < |w'.s.threads| && StoresTo(w'.s.threads[t].pc, i) && w'.calls[t].Opening? && w'.calls[t].fd == i
    ensures !Ended(w'.peers[i])
  {
    var th := w.s.threads[t];
    assert CallOk(th, t, w.calls[t], w.peers, w.core);
    StaysMaker(w, t, d);
    ThreadsAfterAt(w.s, t, Decide(w.s, th, d.action).value, t);
    if !th.pc.Allocating? {
      assert StoresTo(th.pc, i) ==> SettingUp(w.s, i);
    }
  }

  lemma WriteStep(w: World, t: Tid, d: Deed, w': World, i: nat)
    requires RefInv(w.s) && Protocol(w) && Acts(w, t, d, w') && Protocol(w') && i < |w.peers|
    requires WriteInv(w, i) && !ClosesBlindly(w, d, i)
    ensures i < |w'.peers| == |w'.s.slots| && WriteInv(w', i)
  {
    SendAfter(w, t, d, w', i);
    if Ended(w'.peers[i]) { EndedWritable(w, t, d, w', i); }
    if w'.s.slots[i].pending.Pending? || (w'.peers[i].Peer? && w'.s.slots[i].conn.None?) {
      FreedWritable(w, t, d, w', i);
    }
    forall u | 0 <= u < |w'.calls| && ClosingIt(w'.calls[u], i) ensures w'.s.slots[i].sendevent {
      ClosingWritable(w, t, d, w', i, u);
    }
    if AcceptedUpTo(w', i, 2) {
      if w'.peers[i].stage.maker == t { MakerStored(w, t, d, w', i); } else { StoredWritable(w, t, d, w', i); }
    }
    if SettingUp(w'.s, i) { NotEndedInSetup(w, t, d, w', i); }
  }

  // ---- Waiting for a slot that alloc_socket is setting up

  predicate StoresEarly(pc: Pc, i: nat) {
    StoresTo(pc, i) && pc.k <= 2
  }

  /** A slot that select calls wait for is writable before alloc_socket says whether it is. */
  ghost predicate WaitedInv(w: World, i: nat)
    requires i < |w.peers| && i < |w.s.slots|
  {
    && (forall t :: 0 <= t < |w.s.threads| ==> MarkedAt(w.s.threads[t].pc, i) || w.peers[i].Peer?)
    && (forall t :: 0 <= t < |w.s.threads| && StoresEarly(w.s.threads[t].pc, i) ==> NobodyToTell(w.s.slots[i]))
  }

  predicate NobodyToTell(slot: Slot) {
    slot.selectWaiting == 0 || slot.sendevent
  }

  /** A select call counts itself in on a slot that alloc_socket is setting up. */
  predicate CountsInEarly(w: World, t: Tid, i: nat) {
    && t < |w.s.threads| && w.s.threads[t].pc.SelCount? && w.s.threads[t].pc.k == i && SettingUp(w.s, i)
  }

  /** A call that is counted in on an available slot came when the slot was in use. */
  lemma WaitedForPeer(w: World, i: nat)
    requires RefInv(w.s) && WaitInv(w.s) && i < |w.peers| && i < |w.s.slots| && WaitedInv(w, i)
    requires Available(w.s.slots[i]) && w.s.slots[i].selectWaiting > 0
    ensures w.peers[i].Peer?
  {
    NoneCounted(w.s.threads, i);
    var t :| 0 <= t < |w.s.threads| && Counts(w.s.threads[t].pc, i);
    UnmarkedOnAvailable(w.s, t, i);
    assert Sound(w.s.threads[t].pc) by { assert ThreadOk(w.s.threads[t]); }
    assert !MarkedAt(w.s.threads[t].pc, i);
  }

  lemma MarkedStep(w: World, t: Tid, d: Deed, w': World, i: nat, u: Tid)
    requires Protocol(w) && Acts(w, t, d, w') && i < |w.peers| == |w'.peers| && WaitedInv(w, i)
    requires u < |w'.s.threads|
    ensures MarkedAt(w'.s.threads[u].pc, i) || w'.peers[i].Peer?
  {
    OtherThread(w, t, d, w', u);
    assert CallOk(w.s.threads[t], t, w.calls[t], w.peers, w.core) && PeerOk(w, i);
    PeersChange(w, t, d, i);
    var a := Decision(w, t, d).value.action;
    if u == t && a.Some? && w.peers[i].Nobody? {
      StepMarks(w.s, w.s.threads[t], a.value, i);
      ThreadsAfterAt(w.s, t, Decide(w.s, w.s.threads[t], a.value).value, t);
    }
  }

  /** Nobody starts to wait for a slot that is being set up. */
  lemma WaitersStay(s: State, t: Tid, a: Action, s': State, i: nat)
    requires Next(s, t, a, s') && i < |s.slots| && WaitInv(s)
    requires s.threads[t].pc.SelCount? ==> s.threads[t].pc.k != i
    ensures i < |s'.slots| && s'.slots[i].selectWaiting <= s.slots[i].selectWaiting
  {
    var e := Decide(s, s.threads[t], a).value.effect;
    if e.CountUp? {
      CountsUpOnce(s, s.threads[t], a);
    } else if Touches(e) == Some(i) {
      WaitersAfter(s.slots[i], e);
    }
  }

  lemma WaitersAfter(slot: Slot, e: Effect)
    requires !e.CountUp?
    ensures OnSlot(slot, e).0.selectWaiting <= slot.selectWaiting
  {
  }

  lemma CountsUpOnce(s: State, th: Thread, a: Action)
    requires Decide(s, th, a).Some? && Decide(s, th, a).value.effect.CountUp?
    ensures th.pc.SelCount? && Decide(s, th, a).value.effect.fd == th.pc.k
  {
  }

  /** One thread that is setting up the slot, after a step of another thread or of its own. */
  lemma WaitedOther(w: World, t: Tid, d: Deed, w': World, i: nat, u: Tid)
    requires Protocol(w) && Acts(w, t, d, w') && i < |w.peers| && WaitInv(w.s) && WaitedInv(w, i)
    requires !CountsInEarly(w, t, i) && u < |w.s.threads| && u != t && StoresEarly(w.s.threads[u].pc, i)
    ensures i < |w'.s.slots| && NobodyToTell(w'.s.slots[i])
  {
    assert SettingUp(w.s, i) by { assert StoresTo(w.s.threads[u].pc, i); }
    assert CallOk(w.s.threads[u], u, w.calls[u], w.peers, w.core);
    assert CallOk(w.s.threads[t], t, w.calls[t], w.peers, w.core);
    var a := Decision(w, t, d).value.action;
    if a.Some? {
      WaitersStay(w.s, t, a.value, w'.s, i);
      EventFields(w.s, t, a.value, w'.s, i);
      OnlyTheMaker(w.s.threads[t], t, w.calls[t], w.peers, w.core, w.s.slots[i], i);
    }
  }

  /** A thread comes to its early stores by taking the slot, or from an earlier store. */
  lemma EarlyStores(s: State, th: Thread, a: Action, i: nat)
    requires Decide(s, th, a).Some? && !th.pc.Running? && StoresEarly(Decide(s, th, a).value.pc, i)
    ensures th.pc.Storing? || th.pc.Allocating?
    ensures if th.deleting.Some? || th.pc.Storing? then StoresEarly(th.pc, i)
            else i < |s.slots| && Available(s.slots[i])
    ensures i < |s.slots| ==> NextSend(th, s.slots[i], i) == s.slots[i].sendevent
  {
    OthersStayApplied(s, th, a);
  }

  lemma WaitedOwn(w: World, t: Tid, d: Deed, w': World, i: nat)
    requires RefInv(w.s) && Protocol(w) && Acts(w, t, d, w') && i < |w.peers|
    requires WaitInv(w.s) && WaitedInv(w, i) && WriteInv(w, i)
    requires t < |w'.s.threads| && StoresEarly(w'.s.threads[t].pc, i)
    ensures i < |w'.s.slots| && NobodyToTell(w'.s.slots[i])
  {
    NeverStoresFromRunning(w, t, d, w');
    ThreadsAfterAt(w.s, t, Decide(w.s, w.s.threads[t], d.action).value, t);
    EarlyStores(w.s, w.s.threads[t], d.action, i);
    WaitersStay(w.s, t, d.action, w'.s, i);
    EventFields(w.s, t, d.action, w'.s, i);
    if !StoresEarly(w.s.threads[t].pc, i) && w.s.slots[i].selectWaiting > 0 { WaitedForPeer(w, i); }
  }

  lemma NeverStoresFromRunning(w: World, t: Tid, d: Deed, w': World)
    requires Protocol(w) && Acts(w, t, d, w') && t < |w'.s.threads| && w'.s.threads[t].pc.Storing?
    ensures !w.s.threads[t].pc.Running? && Decision(w, t, d).value.action == Some(d.action)
    ensures w.s.threads[t].deleting.None? || w.s.threads[t].pc == w'.s.threads[t].pc
  {
    var th, action := w.s.threads[t], Decision(w, t, d).value.action;
    if action.Some? {
      ThreadsAfterAt(w.s, t, Decide(w.s, th, action.value).value, t);
      if th.deleting.None? && th.pc.Running? { StartAfter(w.s, th, action.value); }
    }
  }

  lemma WaitedStep(w: World, t: Tid, d: Deed, w': World, i: nat)
    requires RefInv(w.s) && Protocol(w) && Acts(w, t, d, w') && i < |w.peers|
    requires WaitInv(w.s) && WaitedInv(w, i) && WriteInv(w, i) && !CountsInEarly(w, t, i)
    requires i < |w'.peers| == |w.peers| && i < |w'.s.slots|
    ensures WaitedInv(w', i)
  {
    forall u | 0 <= u < |w'.s.threads| ensures MarkedAt(w'.s.threads[u].pc, i) || w'.peers[i].Peer? {
      MarkedStep(w, t, d, w', i, u);
    }
    forall u | 0 <= u < |w'.s.threads| && StoresEarly(w'.s.threads[u].pc, i) ensures NobodyToTell(w'.s.slots[i]) {
      OtherThread(w, t, d, w', u);
      if u == t { WaitedOwn(w, t, d, w', i); } else { WaitedOther(w, t, d, w', i, u); }
    }
  }
}
