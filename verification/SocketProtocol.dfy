/** What every run of SocketCalls keeps: who may raise an event on a descriptor, and that
    the socket it is meant for cannot go away under it.

    A thread with an event that event_callback has not applied yet either owns a hold on the
    descriptor for its call, or has the TCP/IP thread, so that nobody can close the socket
    meanwhile. A slot is freed only after netconn_prepare_delete, or by an lwip_accept that has
    given up, and taken only when no thread is concerned with it any more. At most one message of
    a netconn is posted and not announced, and then the TCP/IP thread is about to announce it,
    and will not be turned away. */
module SocketProtocol {
  import opened Common
  import opened SocketTable
  import opened SocketThreads
  import opened SelectCall
  import opened SocketRefcount
  import opened SocketSelect
  import opened SocketCalls

  // ---- The protocol

  /** An event of descriptor `i` that event_callback has not applied yet. */
  predicate Brings(pc: Pc, i: nat, e: Event) {
    pc == EvGet(i, e) || pc == EvCheck(i, e) || pc == EvApply(i, e)
  }

  predicate Unapplied(pc: Pc) {
    pc.EvGet? || pc.EvCheck? || pc.EvApply?
  }

  predicate InCallback(pc: Pc, i: nat) {
    && (Unapplied(pc) || pc.EvWalkStart? || pc.EvWalk? || pc.EvDone?)
    && pc.fd == i
  }

  /** The thread holds `i` for its call, besides the holds of the position it is in. */
  predicate Owns(th: Thread, i: nat) {
    th.holds[i] > Unchecked(th.pc, i) + Checked(th.pc, i)
  }

  predicate IsKnown(peers: seq<Peer>, i: nat) {
    i < |peers| && peers[i].Peer? && peers[i].stage == Known
  }

  /** What a thread may be doing in its call. */
  predicate CallOk(th: Thread, t: Tid, call: Call, peers: seq<Peer>, core: Option<Tid>) {
    match call
    case NoCall => FreeOk(th, peers)
    case Opening(i, accepted) => OpeningOk(th, t, i, accepted, peers)
    case Handling(i, _, todo, end) => core == Some(t) && HandlingOk(th, i, todo, end, peers)
    case Closing(i, _) => i < |peers| && peers[i].Peer? && peers[i].closed && th.pc.Running? && Owns(th, i)
  }

  predicate FreeOk(th: Thread, peers: seq<Peer>) {
    && !th.pc.Storing?
    && (Unapplied(th.pc) ==> IsKnown(peers, th.pc.fd) && Owns(th, th.pc.fd))
    && (Unapplied(th.pc) ==> th.pc.event.RcvMinus? || th.pc.event.RcvPlus?)
  }

  predicate OpeningOk(th: Thread, t: Tid, i: nat, accepted: bool, peers: seq<Peer>) {
    && i < |peers| && peers[i].Peer? && peers[i].stage == Opened(t)
    && ((StoresTo(th.pc, i) && th.pc.writable == accepted && th.pc.k <= 3) || (th.pc.Running? && Owns(th, i)))
  }

  predicate HandlingOk(th: Thread, i: nat, todo: seq<Event>, end: End, peers: seq<Peer>) {
    && i < |peers| && peers[i].Peer?
    && (th.pc.Running? || InCallback(th.pc, i))
    && (if end.AckAndFree? then peers[i].closed && peers[i].gone && Owns(th, i) else !peers[i].closed)
    && (SendMinus in todo || Brings(th.pc, i, SendMinus) ==> !peers[i].gone)
    && RcvMinus !in todo && !Brings(th.pc, i, RcvMinus)
    && (Unapplied(th.pc) ==> peers[i].stage == Known)
  }

  /** The TCP/IP thread has posted a message to the netconn in `i` and is about to announce it. */
  predicate Announcing(th: Thread, call: Call, i: nat) {
    call.Handling? && call.fd == i && call.end.Ack? && (RcvPlus in call.todo || Brings(th.pc, i, RcvPlus))
  }

  /** The netconn has been closed, or given up: its slot may be freed. */
  predicate Ended(p: Peer) {
    p.Peer? && (p.closed || p.stage.Abandoned?)
  }

  /** No more messages are taken than were posted or wait for more than the mailbox holds,
      and at most one has yet to be announced. */
  predicate CountsOk(p: Peer) {
    p.Peer? ==>
      (p.closed ==> p.gone) && p.taken <= p.posted <= p.taken + MBOX_ROOM && p.announced <= p.posted <= p.announced + 1
  }

  predicate Unannounced(p: Peer) {
    p.Peer? && p.announced < p.posted
  }

  ghost predicate PeerOk(w: World, i: nat)
    requires i < |w.peers| && i < |w.s.slots|
  {
    var p, slot := w.peers[i], w.s.slots[i];
    && (slot.conn.Some? ==> p.Peer?)
    && (slot.pending.Pending? ==> p.Peer?)
    && (p.Peer? && (slot.pending.Pending? || slot.conn.None?) ==> Ended(p))
    && CountsOk(p) && (Unannounced(p) ==> BeingAnnounced(w, i))
  }

  ghost predicate BeingAnnounced(w: World, i: nat)
    requires i < |w.peers| && i < |w.s.slots|
  {
    exists t :: 0 <= t < |w.calls| && t < |w.s.threads| && AnnouncesTo(w, t, i)
  }

  /** Unless it has been given up, it is still in the slot. */
  predicate AnnouncesTo(w: World, t: Tid, i: nat)
    requires t < |w.calls| && t < |w.s.threads| && i < |w.peers| && i < |w.s.slots|
  {
    Announcing(w.s.threads[t], w.calls[t], i) && (Ended(w.peers[i]) || w.calls[t].conn == w.s.slots[i].conn)
  }

  predicate CoreIsHandling(calls: seq<Call>, core: Option<Tid>) {
    core.Some? ==> core.value < |calls| && calls[core.value].Handling?
  }

  ghost predicate Protocol(w: World) {
    && |w.peers| == |w.s.slots| && |w.calls| == |w.s.threads| && CoreIsHandling(w.calls, w.core)
    && (forall t :: 0 <= t < |w.calls| ==> CallOk(w.s.threads[t], t, w.calls[t], w.peers, w.core))
    && (forall i :: 0 <= i < |w.peers| ==> PeerOk(w, i))
  }

  // ---- Steps inside the operations of the table

  /** A step keeps a thread on its descriptor and its event inside event_callback, and what
      it owns there. */
  ghost predicate StaysInCallback(th: Thread, after: Thread, i: nat) {
    && (after.pc.Running? || InCallback(after.pc, i))
    && (Owns(th, i) ==> Owns(after, i))
    && (Unapplied(after.pc) ==> Unapplied(th.pc) && after.pc.event == th.pc.event)
  }

  lemma CallbackMoves(s: State, pc: Pc, i: nat, held: nat)
    requires InCallback(pc, i) && EventStep(s, pc).Some?
    ensures var m := EventStep(s, pc).value;
      && (m.pc.Running? || InCallback(m.pc, i))
      && HeldAfter(held, m.effect, i) - Unchecked(m.pc, i) - Checked(m.pc, i)
         == held - Unchecked(pc, i) - Checked(pc, i)
      && (Unapplied(m.pc) ==> Unapplied(pc) && m.pc.event == pc.event)
  {
  }

  lemma HeldIs(s: State, th: Thread, m: Move, i: nat)
    requires m.effect.Drop? ==> m.effect.fd in th.holds
    requires !m.effect.Free?
    ensures ThreadAfter(s, th, m).holds[i] == HeldAfter(th.holds[i], m.effect, i)
  {
  }

  lemma CallbackStep(s: State, th: Thread, a: Action, i: nat)
    requires Decide(s, th, a).Some? && th.deleting.None? && InCallback(th.pc, i) && Pinned(th)
    ensures StaysInCallback(th, ThreadAfter(s, th, Decide(s, th, a).value), i)
  {
    var m := Decide(s, th, a).value;
    StepIsLegal(s, th, a);
    CallbackMoves(s, th.pc, i, th.holds[i]);
    HeldIs(s, th, m, i);
  }

  /** No step but the start of an event_callback gets to where an event is unapplied. */
  lemma OthersStayApplied(s: State, th: Thread, a: Action)
    requires Decide(s, th, a).Some? && !th.pc.Running?
    ensures !Unapplied(th.pc) ==> !Unapplied(Decide(s, th, a).value.pc)
    ensures Decide(s, th, a).value.pc.Storing? ==> th.pc.Storing? || th.pc.Allocating?
  {
    if th.deleting.None? && !th.pc.Checking? && !th.pc.Allocating? && !th.pc.Storing? {
      if EventStep(s, th.pc).None? { SelectUnapplied(s, th, a); }
    }
  }

  lemma SelectUnapplied(s: State, th: Thread, a: Action)
    requires SelectStep(s, th, a).Some?
    ensures var pc := SelectStep(s, th, a).value.pc; !Unapplied(pc) && !pc.Storing?
  {
    match th.pc
    case SelMark(_, _, _) =>
    case SelScan(_, _, _, _) =>
    case SelCount(_, _) =>
    case SelUncount(_, _, _, _) =>
    case SelRelease(_, _, _, _) =>
    case _ =>
  }

  /** The step of a thread inside an operation, without a call, or in one. */
  lemma WithinFree(w: World, t: Tid, a: Action, after: Thread)
    requires t < |w.s.threads| && t < |w.calls| && ThreadOk(w.s.threads[t]) && !w.s.threads[t].pc.Running?
    requires w.s.threads[t].deleting.None? && Decide(w.s, w.s.threads[t], a).Some?
    requires after == ThreadAfter(w.s, w.s.threads[t], Decide(w.s, w.s.threads[t], a).value)
    requires w.calls[t].NoCall? && FreeOk(w.s.threads[t], w.peers) && |w.peers| == |w.s.slots|
    ensures CallOk(after, t, Within(w, t, w.s.threads[t], a).call, Within(w, t, w.s.threads[t], a).peers, w.core)
  {
    var th := w.s.threads[t];
    OthersStayApplied(w.s, th, a);
    if Unapplied(th.pc) {
      CallbackStep(w.s, th, a, th.pc.fd);
    }
  }

  lemma WithinOpening(w: World, t: Tid, a: Action, after: Thread)
    requires t < |w.s.threads| && t < |w.calls| && ThreadOk(w.s.threads[t]) && !w.s.threads[t].pc.Running?
    requires w.s.threads[t].deleting.None? && Decide(w.s, w.s.threads[t], a).Some?
    requires after == ThreadAfter(w.s, w.s.threads[t], Decide(w.s, w.s.threads[t], a).value)
    requires w.calls[t].Opening? && OpeningOk(w.s.threads[t], t, w.calls[t].fd, w.calls[t].accepted, w.peers)
    ensures Within(w, t, w.s.threads[t], a) == Turn(Some(a), w.peers, w.calls[t], w.core)
    ensures OpeningOk(after, t, w.calls[t].fd, w.calls[t].accepted, w.peers)
  {
    assert Checked(w.s.threads[t].pc, w.calls[t].fd) == 1;
  }

  lemma WithinHandling(w: World, t: Tid, a: Action, after: Thread)
    requires t < |w.s.threads| && t < |w.calls| && ThreadOk(w.s.threads[t]) && !w.s.threads[t].pc.Running?
    requires w.s.threads[t].deleting.None? && Decide(w.s, w.s.threads[t], a).Some?
    requires after == ThreadAfter(w.s, w.s.threads[t], Decide(w.s, w.s.threads[t], a).value)
    requires w.calls[t].Handling? && HandlingOk(w.s.threads[t], w.calls[t].fd, w.calls[t].todo, w.calls[t].end, w.peers)
    ensures var turn := Within(w, t, w.s.threads[t], a);
      && turn.call == w.calls[t] && turn.core == w.core
      && HandlingOk(after, w.calls[t].fd, w.calls[t].todo, w.calls[t].end, turn.peers)
  {
    CallbackStep(w.s, w.s.threads[t], a, w.calls[t].fd);
  }

  /** The thread `t` itself, inside an operation. */
  lemma WithinCall(w: World, t: Tid, d: Deed, w': World)
    requires RefInv(w.s) && Protocol(w) && Acts(w, t, d, w')
    requires w.s.threads[t].deleting.Some? || !w.s.threads[t].pc.Running?
    ensures CallOk(w'.s.threads[t], t, w'.calls[t], w'.peers, w'.core)
  {
    var th := w.s.threads[t];
    var m := Decide(w.s, th, d.action).value;
    ThreadsAfterAt(w.s, t, m, t);
    assert ThreadOk(th) && CallOk(th, t, w.calls[t], w.peers, w.core);
    var after := ThreadAfter(w.s, th, m);
    if th.deleting.None? {
      match w.calls[t]
      case NoCall => WithinFree(w, t, d.action, after);
      case Opening(_, _) => WithinOpening(w, t, d.action, after);
      case Handling(_, _, _, _) => WithinHandling(w, t, d.action, after);
      case Closing(_, _) =>
    }
  }

  // ---- Steps between them

  /** Where the start of an operation leads. */
  ghost predicate StartsAt(th: Thread, a: Action, after: Thread) {
    if a.Post? then after.pc == EvGet(a.fd, a.event) && after.holds == th.holds && after.deleting == th.deleting
    else !Unapplied(after.pc) && !after.pc.Storing? && (a.FreeSocket? ==> after.pc.Running?)
  }

  lemma StartAfter(s: State, th: Thread, a: Action)
    requires th.deleting.None? && th.pc.Running? && Decide(s, th, a).Some?
    ensures StartsAt(th, a, ThreadAfter(s, th, Decide(s, th, a).value))
  {
  }

  lemma CoreBeginsOk(w: World, t: Tid, th: Thread, d: Deed)
    requires th.pc.Running? && CoreBegins(w, t, d).Some? && (d.Arrive? || d.Notify? || d.Break?)
    requires d.fd < |w.peers| && d.fd < |w.s.slots| && PeerOk(w, d.fd)
    ensures var turn := CoreBegins(w, t, d).value; turn.action.None? && CallOk(th, t, turn.call, turn.peers, turn.core)
  {
  }

  lemma CallBeginsOk(w: World, t: Tid, th: Thread, d: Deed, after: Thread)
    requires th.pc.Running? && CallBegins(w, t, d).Some? && (d.Receive? || d.Shutdown? || d.Close? || d.Replay?)
    requires d.fd in th.holds && d.fd < |w.peers| && CountsOk(w.peers[d.fd])
    requires var turn := CallBegins(w, t, d).value; turn.action.Some? ==> StartsAt(th, turn.action.value, after)
    ensures var turn := CallBegins(w, t, d).value;
      CallOk(if turn.action.Some? then after else th, t, turn.call, turn.peers, turn.core)
  {
    match d
    case Receive(_, _) =>
    case Shutdown(_, _, _, _) =>
    case Close(_, _) =>
    case Replay(_) =>
  }

  lemma CarryOk(w: World, t: Tid, th: Thread, d: Deed, after: Thread)
    requires th.pc.Running? && t < |w.calls| && Carry(w, t, d).Some? && CallOk(th, t, w.calls[t], w.peers, w.core)
    requires var turn := Carry(w, t, d).value; turn.action.Some? ==> StartsAt(th, turn.action.value, after)
    ensures var turn := Carry(w, t, d).value;
      CallOk(if turn.action.Some? then after else th, t, turn.call, turn.peers, turn.core)
  {
    match w.calls[t]
    case NoCall =>
    case Handling(_, _, _, _) =>
    case Closing(_, _) =>
    case Opening(_, _) =>
  }

  /** A thread that is between two operations, which starts the next one, or none. */
  lemma BetweenCall(w: World, t: Tid, d: Deed, w': World)
    requires Protocol(w) && Acts(w, t, d, w')
    requires w.s.threads[t].deleting.None? && w.s.threads[t].pc.Running?
    ensures CallOk(w'.s.threads[t], t, w'.calls[t], w'.peers, w'.core)
  {
    var th := w.s.threads[t];
    var turn := Decision(w, t, d).value;
    assert CallOk(th, t, w.calls[t], w.peers, w.core);
    if turn.action.Some? {
      StartAfter(w.s, th, turn.action.value);
      ThreadsAfterAt(w.s, t, Decide(w.s, th, turn.action.value).value, t);
    }
    var after := w'.s.threads[t];
    if !w.calls[t].NoCall? {
      CarryOk(w, t, th, d, after);
    } else if d.Arrive? || d.Notify? || d.Break? {
      assert PeerOk(w, d.fd);
      CoreBeginsOk(w, t, th, d);
    } else if !d.Table? {
      assert d.fd < |w.peers| ==> PeerOk(w, d.fd);
      CallBeginsOk(w, t, th, d, after);
    }
  }

  // ---- What other threads make of the peers

  /** A step of thread `t` changes peer `i` in one of these ways only. */
  ghost predicate PeerChange(w: World, t: Tid, p': Peer, core': Option<Tid>, i: nat)
    requires i < |w.peers| && i < |w.s.slots|
  {
    var p := w.peers[i];
    || (Available(w.s.slots[i]) && p' == NEWBORN.(stage := Opened(t)))
    || (p.Nobody? && p'.Nobody?)
    || (p.Peer? && p'.Peer? && (p'.stage == p.stage || p.stage == Opened(t))
        && (p.closed ==> p'.closed) && (p.gone ==> p'.gone)
        && (w.core.Some? ==> p'.closed == p.closed && p'.gone == p.gone))
  }

  lemma PeersChange(w: World, t: Tid, d: Deed, i: nat)
    requires t < |w.calls| && t < |w.s.threads| && Decision(w, t, d).Some? && i < |w.peers| && i < |w.s.slots|
    requires CallOk(w.s.threads[t], t, w.calls[t], w.peers, w.core)
    ensures var turn := Decision(w, t, d).value;
      |turn.peers| == |w.peers| && PeerChange(w, t, turn.peers[i], turn.core, i)
    ensures var turn := Decision(w, t, d).value;
      turn.core != w.core ==> w.core.None? || (w.core == Some(t) && turn.core.None?)
  {
    var th := w.s.threads[t];
    if th.deleting.None? && th.pc.Running? {
      if !w.calls[t].NoCall? {
        CarryPeers(w, t, d, i);
      } else if d.Arrive? || d.Notify? || d.Break? {
        CoreBeginsPeers(w, t, d, i);
      } else if !d.Table? {
        CallBeginsPeers(w, t, d, i);
      }
    }
  }

  lemma CarryPeers(w: World, t: Tid, d: Deed, i: nat)
    requires t < |w.calls| && Carry(w, t, d).Some? && i < |w.peers| && i < |w.s.slots| && t < |w.s.threads|
    requires CallOk(w.s.threads[t], t, w.calls[t], w.peers, w.core)
    ensures var turn := Carry(w, t, d).value;
      |turn.peers| == |w.peers| && PeerChange(w, t, turn.peers[i], turn.core, i)
    ensures var turn := Carry(w, t, d).value; turn.core != w.core ==> w.core == Some(t) && turn.core.None?
  {
    match w.calls[t]
    case NoCall =>
    case Handling(_, _, _, _) =>
    case Closing(_, _) =>
    case Opening(_, _) =>
  }

  lemma CoreBeginsPeers(w: World, t: Tid, d: Deed, i: nat)
    requires CoreBegins(w, t, d).Some? && i < |w.peers| && i < |w.s.slots|
    ensures var turn := CoreBegins(w, t, d).value;
      |turn.peers| == |w.peers| && w.core.None? && PeerChange(w, t, turn.peers[i], turn.core, i)
  {
  }

  lemma CallBeginsPeers(w: World, t: Tid, d: Deed, i: nat)
    requires CallBegins(w, t, d).Some? && i < |w.peers| && i < |w.s.slots|
    ensures var turn := CallBegins(w, t, d).value;
      && |turn.peers| == |w.peers| && PeerChange(w, t, turn.peers[i], turn.core, i)
      && (turn.core == w.core || w.core.None?)
  {
    match d
    case Receive(_, _) =>
    case Shutdown(_, _, _, _) =>
    case Close(_, _) =>
    case Replay(_) =>
    case _ =>
  }

  /** The descriptor that a thread's call, or its event, is about. */
  function Concerned(pc: Pc, call: Call): nat {
    if !call.NoCall? then call.fd else if Unapplied(pc) then pc.fd else 0
  }

  /** The call of another thread goes on as it was. */
  lemma OtherCall(w: World, t: Tid, d: Deed, w': World, u: Tid)
    requires RefInv(w.s) && Protocol(w) && Acts(w, t, d, w') && u != t && u < |w.calls|
    ensures |w'.s.threads| == |w.s.threads| && |w'.calls| == |w.calls|
    ensures CallOk(w'.s.threads[u], u, w'.calls[u], w'.peers, w'.core)
  {
    var th := w.s.threads[u];
    OtherThread(w, t, d, w', u);
    assert CallOk(th, u, w.calls[u], w.peers, w.core);
    assert ThreadOk(th);
    var i := Concerned(th.pc, w.calls[u]);
    if i < |w.peers| {
      assert CallOk(w.s.threads[t], t, w.calls[t], w.peers, w.core);
      PeersChange(w, t, d, i);
      HoldersUpdate(w.s.threads, u, th, i);
      assert SlotOk(w.s.slots[i], Holders(w.s.threads, i)) && PeerOk(w, i);
      OtherCallAt(w, t, u, w'.s.threads[u], w'.peers, w'.core, i);
    }
  }

  lemma OtherCallAt(w: World, t: Tid, u: Tid, after: Thread, peers': seq<Peer>, core': Option<Tid>, i: nat)
    requires u != t && u < |w.calls| && u < |w.s.threads| && ThreadOk(w.s.threads[u])
    requires CallOk(w.s.threads[u], u, w.calls[u], w.peers, w.core)
    requires i == Concerned(w.s.threads[u].pc, w.calls[u])
    requires after.pc == w.s.threads[u].pc && after.holds == w.s.threads[u].holds
    requires i < |w.peers| == |peers'| && i < |w.s.slots| && PeerOk(w, i) && PeerChange(w, t, peers'[i], core', i)
    requires Available(w.s.slots[i]) ==> w.s.threads[u].holds[i] == 0
    requires core' != w.core ==> w.core.None? || (w.core == Some(t) && core'.None?)
    ensures CallOk(after, u, w.calls[u], peers', core')
  {
    var th := w.s.threads[u];
    assert Unchecked(th.pc, i) + Checked(th.pc, i) <= th.holds[i];
    match w.calls[u]
    case NoCall =>
    case Handling(_, _, _, _) =>
    case Closing(_, _) =>
    case Opening(_, _) =>
  }

  // ---- Slots and their peers

  /** Slots are freed by free_socket and taken by alloc_socket. */
  lemma ConnMoves(s: State, th: Thread, a: Action)
    requires Decide(s, th, a).Some?
    ensures var m := Decide(s, th, a).value;
      && (m.effect.Free? ==> th.deleting.None? && th.pc.Running? && a == FreeSocket(m.effect.fd, m.effect.isTcp))
      && (m.effect.Take? ==> th.deleting.None? && th.pc.Allocating? && th.pc.k == m.effect.fd)
      && (m.effect.Take? ==> m.effect.fd < |s.slots| && Available(s.slots[m.effect.fd]))
  {
    if th.deleting.None? && !th.pc.Running? && !th.pc.Checking? && !th.pc.Allocating? && !th.pc.Storing? {
      OnlyAllocMovesConns(s, th, a);
    }
  }

  /** A slot keeps its netconn and its mark, or is taken, or was closed before. */
  ghost predicate SlotChange(slot: Slot, slot': Slot, p: Peer, p': Peer) {
    || (slot'.conn == slot.conn && slot'.pending == slot.pending && (p.Peer? <==> p'.Peer?) && (Ended(p) ==> Ended(p')))
    || (Available(slot) && slot'.conn.Some? && slot'.pending.NotPending?
        && p'.Peer? && p' == NEWBORN.(stage := p'.stage))
    || (Ended(p') && (slot'.conn == slot.conn || slot'.conn.None?))
  }

  /** What a step of the table does to the netconn and the mark of slot `i`. */
  lemma SlotMoves(s: State, t: Tid, a: Action, s': State, i: nat)
    requires Next(s, t, a, s') && i < |s.slots|
    ensures |s'.slots| == |s.slots|
    ensures var slot, slot', th := s.slots[i], s'.slots[i], s.threads[t];
      if Takes(s, th, a, i) then Available(slot) && slot'.conn.Some? && slot'.pending.NotPending? && TakesSlot(th, i)
      else
        || (slot'.conn == slot.conn && slot'.pending == slot.pending)
        || ((Frees(th, a, i) || slot.pending.Pending?) && (slot'.conn == slot.conn || slot'.conn.None?))
  {
    var e := Decide(s, s.threads[t], a).value.effect;
    ConnMoves(s, s.threads[t], a);
    if Touches(e) == Some(i) && !e.Free? && !e.Take? { KeepsConn(s.slots[i], e); }
  }

  predicate TakesSlot(th: Thread, i: nat) {
    th.deleting.None? && th.pc.Allocating? && th.pc.k == i
  }

  predicate Frees(th: Thread, a: Action, i: nat) {
    th.deleting.None? && th.pc.Running? && a.FreeSocket? && a.fd == i
  }

  lemma SlotsChange(w: World, t: Tid, d: Deed, w': World, i: nat)
    requires Protocol(w) && Acts(w, t, d, w') && i < |w.peers|
    ensures |w'.s.slots| == |w.s.slots| == |w'.peers|
    ensures SlotChange(w.s.slots[i], w'.s.slots[i], w.peers[i], w'.peers[i])
  {
    var th, a := w.s.threads[t], Decision(w, t, d).value.action;
    assert CallOk(th, t, w.calls[t], w.peers, w.core) && PeerOk(w, i);
    PeersChange(w, t, d, i);
    if a.Some? { SlotMoves(w.s, t, a.value, w'.s, i); }
    if a.Some? && Takes(w.s, th, a.value, i) {
      TakeMakes(w, t, d, i);
    } else {
      PeersEnd(w, t, d, i);
      if a.Some? && Frees(th, a.value, i) { FreeEnds(w, t, d, i); }
    }
  }

  lemma TakeMakes(w: World, t: Tid, d: Deed, i: nat)
    requires t < |w.calls| && t < |w.s.threads| && Decision(w, t, d).Some? && i < |w.peers| == |w.s.slots|
    requires TakesSlot(w.s.threads[t], i) && Available(w.s.slots[i])
    ensures Decision(w, t, d).value.peers == w.peers[i := NEWBORN.(stage := Opened(t))]
  {
  }

  /** The step is alloc_socket taking slot `i`. */
  predicate Takes(s: State, th: Thread, a: Action, i: nat) {
    Decide(s, th, a).Some? && Decide(s, th, a).value.effect.Take? && Decide(s, th, a).value.effect.fd == i
  }

  /** Only alloc_socket makes a peer of a slot, and nothing else revives one. */
  lemma PeersEnd(w: World, t: Tid, d: Deed, i: nat)
    requires t < |w.calls| && t < |w.s.threads| && Decision(w, t, d).Some? && i < |w.peers| == |w.s.slots|
    requires CallOk(w.s.threads[t], t, w.calls[t], w.peers, w.core)
    requires var a := Decision(w, t, d).value.action; a.Some? ==> !Takes(w.s, w.s.threads[t], a.value, i)
    ensures var turn := Decision(w, t, d).value;
      && |turn.peers| == |w.peers| && (w.peers[i].Peer? <==> turn.peers[i].Peer?)
      && (Ended(w.peers[i]) ==> Ended(turn.peers[i]))
  {
    PeersChange(w, t, d, i);
  }

  lemma KeepsConn(slot: Slot, e: Effect)
    requires !e.Free? && !e.Take?
    ensures var after := OnSlot(slot, e).0;
      after.pending == slot.pending && (after.conn == slot.conn || (slot.pending.Pending? && after.conn.None?))
  {
  }

  /** free_socket comes after netconn_prepare_delete, or after lwip_accept has given up. */
  lemma FreeEnds(w: World, t: Tid, d: Deed, i: nat)
    requires t < |w.calls| && t < |w.s.threads| && Decision(w, t, d).Some? && i < |w.peers|
    requires w.s.threads[t].deleting.None? && w.s.threads[t].pc.Running?
    requires CallOk(w.s.threads[t], t, w.calls[t], w.peers, w.core)
    requires var a := Decision(w, t, d).value.action; a.Some? && a.value.FreeSocket? && a.value.fd == i
    ensures i < |Decision(w, t, d).value.peers| && Ended(Decision(w, t, d).value.peers[i])
  {
  }

  // ---- Messages and their announcements

  lemma CarryCounts(w: World, t: Tid, d: Deed, i: nat)
    requires t < |w.calls| && Carry(w, t, d).Some? && i < |w.peers| && CountsOk(w.peers[i])
    ensures var turn := Carry(w, t, d).value;
      i < |turn.peers| && CountsOk(turn.peers[i]) && (Unannounced(turn.peers[i]) ==> Unannounced(w.peers[i]))
  {
    match w.calls[t]
    case NoCall =>
    case Handling(_, _, _, _) =>
    case Closing(_, _) =>
    case Opening(_, _) =>
  }

  predicate Announces(call: Call, i: nat, conn: Option<ConnId>) {
    call.Handling? && call.fd == i && call.conn == conn && call.todo == [RcvPlus] && call.end.Ack?
  }

  lemma CoreBeginsCounts(w: World, t: Tid, d: Deed, i: nat)
    requires CoreBegins(w, t, d).Some? && i < |w.peers| && CountsOk(w.peers[i])
    requires Unannounced(w.peers[i]) ==> w.core.Some?
    ensures var turn := CoreBegins(w, t, d).value;
      && i < |turn.peers| && CountsOk(turn.peers[i])
      && (Unannounced(turn.peers[i]) ==>
            i < |w.s.slots| && Announces(turn.call, i, w.s.slots[i].conn) && turn.action.None?)
  {
  }

  lemma CallBeginsCounts(w: World, t: Tid, d: Deed, i: nat)
    requires CallBegins(w, t, d).Some? && i < |w.peers| && CountsOk(w.peers[i])
    ensures var turn := CallBegins(w, t, d).value;
      i < |turn.peers| && CountsOk(turn.peers[i]) && (Unannounced(turn.peers[i]) ==> Unannounced(w.peers[i]))
  {
    match d
    case Receive(_, _) =>
    case Shutdown(_, _, _, _) =>
    case Close(_, _) =>
    case Replay(_) =>
    case _ =>
  }

  lemma CountsStep(w: World, t: Tid, d: Deed, i: nat)
    requires t < |w.calls| && t < |w.s.threads| && Decision(w, t, d).Some? && i < |w.peers| && CountsOk(w.peers[i])
    requires Unannounced(w.peers[i]) ==> w.core.Some?
    ensures var turn := Decision(w, t, d).value;
      && i < |turn.peers| && CountsOk(turn.peers[i])
      && (Unannounced(turn.peers[i]) && !Unannounced(w.peers[i])
          ==> i < |w.s.slots| && Announces(turn.call, i, w.s.slots[i].conn) && turn.action.None?)
  {
    var th := w.s.threads[t];
    if th.deleting.None? && th.pc.Running? {
      if !w.calls[t].NoCall? {
        CarryCounts(w, t, d, i);
      } else if d.Arrive? || d.Notify? || d.Break? {
        CoreBeginsCounts(w, t, d, i);
      } else if !d.Table? {
        CallBeginsCounts(w, t, d, i);
      }
    }
  }

  /** The thread that announces a message to a socket that is not being closed is not turned
      away, and goes on announcing until the socket has been told. */
  lemma AnnouncerWithin(w: World, t: Tid, a: Action, i: nat, after: Thread)
    requires t < |w.s.threads| && t < |w.calls| && !w.s.threads[t].pc.Running? && ThreadOk(w.s.threads[t])
    requires w.s.threads[t].deleting.None? && Decide(w.s, w.s.threads[t], a).Some?
    requires after == ThreadAfter(w.s, w.s.threads[t], Decide(w.s, w.s.threads[t], a).value)
    requires CallOk(w.s.threads[t], t, w.calls[t], w.peers, w.core) && Announcing(w.s.threads[t], w.calls[t], i)
    requires i < |w.peers| == |w.s.slots| && PeerOk(w, i)
    ensures var turn := Within(w, t, w.s.threads[t], a);
      Unannounced(turn.peers[i]) ==> Announcing(after, turn.call, i) && turn.call.conn == w.calls[t].conn
  {
  }

  lemma AnnouncerCarries(w: World, t: Tid, d: Deed, i: nat, after: Thread)
    requires t < |w.s.threads| && t < |w.calls| && w.s.threads[t].pc.Running?
    requires Carry(w, t, d).Some? && Announcing(w.s.threads[t], w.calls[t], i) && i < |w.peers|
    requires CountsOk(w.peers[i])
    requires var turn := Carry(w, t, d).value;
      if turn.action.Some? then StartsAt(w.s.threads[t], turn.action.value, after) else after == w.s.threads[t]
    ensures var turn := Carry(w, t, d).value;
      Unannounced(turn.peers[i]) ==> Announcing(after, turn.call, i) && turn.call.conn == w.calls[t].conn
  {
  }

  lemma StillAnnounced(w: World, t: Tid, d: Deed, w': World, i: nat, u: Tid)
    requires RefInv(w.s) && Protocol(w) && Acts(w, t, d, w') && i < |w.peers| == |w'.peers| && i < |w'.s.slots|
    requires u < |w.calls| && AnnouncesTo(w, u, i) && Unannounced(w.peers[i]) && Unannounced(w'.peers[i])
    requires SlotChange(w.s.slots[i], w'.s.slots[i], w.peers[i], w'.peers[i])
    ensures u < |w'.calls| && u < |w'.s.threads| && AnnouncesTo(w', u, i)
  {
    OtherThread(w, t, d, w', u);
    if u == t { AnnouncerStep(w, t, d, w', i); }
  }

  lemma AnnouncedStep(w: World, t: Tid, d: Deed, w': World, i: nat)
    requires RefInv(w.s) && Protocol(w) && Acts(w, t, d, w') && i < |w.peers|
    requires i < |w'.peers| == |w'.s.slots| && SlotChange(w.s.slots[i], w'.s.slots[i], w.peers[i], w'.peers[i])
    ensures CountsOk(w'.peers[i]) && (Unannounced(w'.peers[i]) ==> BeingAnnounced(w', i))
  {
    assert PeerOk(w, i);
    if Unannounced(w.peers[i]) { CoreAnnounces(w, i); }
    CountsStep(w, t, d, i);
    if Unannounced(w'.peers[i]) {
      if Unannounced(w.peers[i]) {
        StillAnnounced(w, t, d, w', i, w.core.value);
      } else {
        NewlyAnnounced(w, t, d, w', i);
      }
    }
  }

  /** Whoever has the TCP/IP thread while a message is unannounced is announcing it. */
  lemma CoreAnnounces(w: World, i: nat)
    requires Protocol(w) && i < |w.peers| && Unannounced(w.peers[i])
    ensures w.core.Some? && w.core.value < |w.calls| && AnnouncesTo(w, w.core.value, i)
  {
    assert PeerOk(w, i);
    var t :| 0 <= t < |w.calls| && t < |w.s.threads| && AnnouncesTo(w, t, i);
    assert CallOk(w.s.threads[t], t, w.calls[t], w.peers, w.core);
  }

  lemma NewlyAnnounced(w: World, t: Tid, d: Deed, w': World, i: nat)
    requires Acts(w, t, d, w') && i < |w.s.slots| && i < |w'.s.slots| && i < |w'.peers|
    requires Announces(w'.calls[t], i, w.s.slots[i].conn)
    requires Decision(w, t, d).value.action.None?
    ensures BeingAnnounced(w', i)
  {
    assert AnnouncesTo(w', t, i);
  }

  lemma AnnouncerStep(w: World, t: Tid, d: Deed, w': World, i: nat)
    requires RefInv(w.s) && Protocol(w) && Acts(w, t, d, w') && i < |w.peers|
    requires Announcing(w.s.threads[t], w.calls[t], i) && i < |w'.peers| && Unannounced(w'.peers[i])
    ensures Announcing(w'.s.threads[t], w'.calls[t], i) && w'.calls[t].conn == w.calls[t].conn
  {
    var th, turn := w.s.threads[t], Decision(w, t, d).value;
    assert PeerOk(w, i) && ThreadOk(th) && CallOk(th, t, w.calls[t], w.peers, w.core);
    if turn.action.Some? {
      ThreadsAfterAt(w.s, t, Decide(w.s, th, turn.action.value).value, t);
    }
    if th.deleting.None? && th.pc.Running? {
      if turn.action.Some? { StartAfter(w.s, th, turn.action.value); }
      AnnouncerCarries(w, t, d, i, w'.s.threads[t]);
    } else if th.deleting.None? {
      AnnouncerWithin(w, t, d.action, i, ThreadAfter(w.s, th, Decide(w.s, th, d.action).value));
    }
  }

  lemma PeerStep(w: World, t: Tid, d: Deed, w': World, i: nat)
    requires RefInv(w.s) && Protocol(w) && Acts(w, t, d, w') && i < |w.peers|
    ensures i < |w'.peers| == |w'.s.slots| && PeerOk(w', i)
  {
    assert PeerOk(w, i);
    SlotsChange(w, t, d, w', i);
    AnnouncedStep(w, t, d, w', i);
  }

  lemma CoreStep(w: World, t: Tid, d: Deed)
    requires t < |w.calls| && t < |w.s.threads| && Decision(w, t, d).Some? && CoreIsHandling(w.calls, w.core)
    requires CallOk(w.s.threads[t], t, w.calls[t], w.peers, w.core)
    ensures var turn := Decision(w, t, d).value; CoreIsHandling(w.calls[t := turn.call], turn.core)
  {
    var th := w.s.threads[t];
    if th.deleting.None? && th.pc.Running? {
      if w.calls[t].NoCall? {
        if !d.Table? && !d.Arrive? && !d.Notify? && !d.Break? { CallBeginsCore(w, t, d); }
      } else {
        CarryCore(w, t, d);
      }
    }
  }

  lemma CallBeginsCore(w: World, t: Tid, d: Deed)
    requires CallBegins(w, t, d).Some?
    ensures var turn := CallBegins(w, t, d).value; turn.core == w.core || (turn.core == Some(t) && turn.call.Handling?)
  {
  }

  lemma CarryCore(w: World, t: Tid, d: Deed)
    requires t < |w.calls| && Carry(w, t, d).Some? && CoreIsHandling(w.calls, w.core)
    ensures var turn := Carry(w, t, d).value;
      turn.core.None? || (turn.core == w.core && (w.core == Some(t) ==> turn.call.Handling?))
  {
  }

  lemma ProtocolStep(w: World, t: Tid, d: Deed, w': World)
    requires RefInv(w.s) && Protocol(w) && Acts(w, t, d, w')
    ensures Protocol(w')
  {
    if |w.peers| > 0 { PeerStep(w, t, d, w', 0); }
    assert CallOk(w.s.threads[t], t, w.calls[t], w.peers, w.core);
    CoreStep(w, t, d);
    forall i | 0 <= i < |w'.peers| ensures PeerOk(w', i) {
      PeerStep(w, t, d, w', i);
    }
    forall u | 0 <= u < |w'.calls| ensures CallOk(w'.s.threads[u], u, w'.calls[u], w'.peers, w'.core) {
      if u != t {
        OtherCall(w, t, d, w', u);
      } else if w.s.threads[t].deleting.None? && w.s.threads[t].pc.Running? {
        BetweenCall(w, t, d, w');
      } else {
        WithinCall(w, t, d, w');
      }
    }
  }

  // ---- Runs

  lemma InitProtocol(w: World)
    requires Begins(w)
    ensures Protocol(w)
  {
    forall i | 0 <= i < |w.peers| ensures PeerOk(w, i) {
      assert w.s.slots[i] == EMPTY_SLOT && w.peers[i] == Nobody;
    }
    forall t | 0 <= t < |w.calls| ensures CallOk(w.s.threads[t], t, w.calls[t], w.peers, w.core) {
      assert w.s.threads[t].pc == Running && w.calls[t] == NoCall;
    }
  }

  /** A run of calls is a run of the table, with the same table in the end. */
  lemma {:induction false} IsTableRun(ok: (World, Tid, Deed) -> bool, deeds: seq<Doing>, w: World)
    returns (schedule: seq<Scheduled>)
    requires Runs(ok, deeds, w)
    ensures Reaches(schedule, w.s)
    decreases |deeds|
  {
    if deeds == [] {
      schedule := [];
    } else {
      var p :| LastDeed(ok, deeds, p, w);
      var last := deeds[|deeds| - 1];
      schedule := IsTableRun(ok, deeds[..|deeds| - 1], p);
      var turn := Decision(p, last.thread, last.deed).value;
      if turn.action.Some? {
        Extend(schedule, p.s, last.thread, turn.action.value, w.s);
        schedule := schedule + [Scheduled(last.thread, turn.action.value)];
      }
    }
  }

  lemma {:induction false} ReachableProtocol(ok: (World, Tid, Deed) -> bool, deeds: seq<Doing>, w: World)
    requires Runs(ok, deeds, w)
    ensures Protocol(w) && RefInv(w.s) && WaitInv(w.s) && ListInv(w.s)
    decreases |deeds|
  {
    var schedule := IsTableRun(ok, deeds, w);
    ReachableSelect(schedule, w.s);
    if deeds == [] {
      InitProtocol(w);
    } else {
      var p :| LastDeed(ok, deeds, p, w);
      var last := deeds[|deeds| - 1];
      ReachableProtocol(ok, deeds[..|deeds| - 1], p);
      ProtocolStep(p, last.thread, last.deed, w);
    }
  }

  // ---- The event fields, their makers and their owners

  /** rcvevent and sendevent of slot `i` after the next step of a thread. */
  function NextRcv(th: Thread, slot: Slot, i: nat): int {
    if th.deleting.Some? then slot.rcvevent
    else if th.pc == EvApply(i, RcvPlus) then S16(slot.rcvevent + 1)
    else if th.pc == EvApply(i, RcvMinus) then S16(slot.rcvevent - 1)
    else if StoresTo(th.pc, i) && th.pc.k == 1 then 0
    else slot.rcvevent
  }

  function NextSend(th: Thread, slot: Slot, i: nat): bool {
    if th.deleting.Some? then slot.sendevent
    else if th.pc == EvApply(i, SendPlus) then true
    else if th.pc == EvApply(i, SendMinus) then false
    else if StoresTo(th.pc, i) && th.pc.k == 2 then th.pc.writable
    else slot.sendevent
  }

  lemma EventFields(s: State, t: Tid, a: Action, s': State, i: nat)
    requires Next(s, t, a, s') && i < |s.slots|
    ensures s'.slots[i].rcvevent == NextRcv(s.threads[t], s.slots[i], i)
    ensures s'.slots[i].sendevent == NextSend(s.threads[t], s.slots[i], i)
  {
    var th := s.threads[t];
    var e := Decide(s, th, a).value.effect;
    EventEffects(s, th, a);
    if Touches(e) == Some(i) { FieldsAfter(th, s.slots[i], e, i); }
  }

  /** And errevent. */
  function NextErr(th: Thread, slot: Slot, i: nat): bool {
    if th.deleting.Some? then slot.errevent
    else if th.pc == EvApply(i, ErrorEvent) then true
    else if StoresTo(th.pc, i) && th.pc.k >= 3 then false
    else slot.errevent
  }

  /** A connection's error is remembered in its slot until alloc_socket gives the slot away, and
      nothing else sets it; the data left over from a receive are put there by a call that
      holds the descriptor, and gone when the slot is. */
  lemma ErrorAndLeftover(s: State, t: Tid, a: Action, s': State, i: nat)
    requires Next(s, t, a, s') && i < |s.slots|
    ensures s'.slots[i].errevent == NextErr(s.threads[t], s.slots[i], i)
    ensures s'.slots[i].lastdata && !s.slots[i].lastdata ==> a == Stash(i, true) && i in s.threads[t].holds
    ensures s.slots[i].conn.Some? && s'.slots[i].conn.None? ==> !s'.slots[i].lastdata
    ensures StoresTo(s.threads[t].pc, i) && s.threads[t].pc.k == 0 && s.threads[t].deleting.None? ==>
      !s'.slots[i].lastdata
  {
    var th := s.threads[t];
    var e := Decide(s, th, a).value.effect;
    EventEffects(s, th, a);
    if Touches(e) == Some(i) { LeftoverAfter(th, s.slots[i], e, i); }
    if e.Lastdata? { StashIsHeld(s, th, a); }
  }

  lemma LeftoverAfter(th: Thread, slot: Slot, e: Effect, i: nat)
    requires IsWhere(th, e) && Touches(e) == Some(i)
    ensures OnSlot(slot, e).0.errevent == NextErr(th, slot, i)
    ensures OnSlot(slot, e).0.lastdata && !slot.lastdata ==> e.Lastdata?
    ensures slot.conn.Some? && OnSlot(slot, e).0.conn.None? ==> !OnSlot(slot, e).0.lastdata
    ensures e.Store? && e.k == 0 ==> !OnSlot(slot, e).0.lastdata
  {
  }

  lemma StashIsHeld(s: State, th: Thread, a: Action)
    requires Decide(s, th, a).Some? && Decide(s, th, a).value.effect.Lastdata?
    ensures var e := Decide(s, th, a).value.effect; a == Stash(e.fd, e.present) && e.fd in th.holds
  {
    assert th.pc.Running? by {
      if EventStep(s, th.pc).None? && SelectStep(s, th, a).Some? { NoStash(s, th, a); }
    }
  }

  lemma NoStash(s: State, th: Thread, a: Action)
    requires SelectStep(s, th, a).Some?
    ensures !SelectStep(s, th, a).value.effect.Lastdata?
  {
  }

  /** Where a thread is that applies an event or makes a store of alloc_socket. */
  predicate IsWhere(th: Thread, e: Effect) {
    && (e.Deliver? <==> th.deleting.None? && th.pc.EvApply?)
    && (e.Deliver? ==> th.pc == EvApply(e.fd, e.event))
    && (e.Store? <==> th.deleting.None? && th.pc.Storing?)
    && (e.Store? ==> th.pc == Storing(e.fd, e.writable, e.k))
  }

  lemma EventEffects(s: State, th: Thread, a: Action)
    requires Decide(s, th, a).Some?
    ensures IsWhere(th, Decide(s, th, a).value.effect)
  {
    var e := Decide(s, th, a).value.effect;
    if e.Deliver? { DeliverIsEvApply(s, th, a); }
    if e.Store? { StoreIsStoring(s, th, a); }
  }

  lemma FieldsAfter(th: Thread, slot: Slot, e: Effect, i: nat)
    requires IsWhere(th, e) && Touches(e) == Some(i)
    ensures OnSlot(slot, e).0.rcvevent == NextRcv(th, slot, i)
    ensures OnSlot(slot, e).0.sendevent == NextSend(th, slot, i)
  {
    if !e.Deliver? && !e.Store? { OtherFields(slot, e); }
  }

  lemma OtherFields(slot: Slot, e: Effect)
    requires !e.Deliver? && !e.Store?
    ensures OnSlot(slot, e).0.rcvevent == slot.rcvevent && OnSlot(slot, e).0.sendevent == slot.sendevent
  {
  }

  /** As long as a descriptor is not known, only its maker touches the event fields. */
  lemma OnlyTheMaker(th: Thread, t: Tid, call: Call, peers: seq<Peer>, core: Option<Tid>, slot: Slot, i: nat)
    requires CallOk(th, t, call, peers, core) && i < |peers| && peers[i].Peer? && peers[i].stage != Known
    requires peers[i].stage != Opened(t)
    ensures NextRcv(th, slot, i) == slot.rcvevent && NextSend(th, slot, i) == slot.sendevent
  {
  }

  /** A thread stays the maker of a descriptor only inside alloc_socket. */
  lemma StaysMaker(w: World, t: Tid, d: Deed)
    requires t < |w.calls| && t < |w.s.threads| && Decision(w, t, d).Some?
    ensures var turn := Decision(w, t, d).value;
      turn.call.Opening? ==>
        && turn == Within(w, t, w.s.threads[t], d.action)
        && (turn.call == w.calls[t] || (w.s.threads[t].pc.Allocating? && w.s.threads[t].deleting.None?))
  {
    var th := w.s.threads[t];
    if th.deleting.None? && th.pc.Running? {
      if w.calls[t].NoCall? {
        if !d.Table? && !d.Arrive? && !d.Notify? && !d.Break? { NeverMakes(w, t, d); }
      } else {
        CarryNeverMakes(w, t, d);
      }
    }
  }

  lemma NeverMakes(w: World, t: Tid, d: Deed)
    requires CallBegins(w, t, d).Some?
    ensures !CallBegins(w, t, d).value.call.Opening?
  {
  }

  lemma CarryNeverMakes(w: World, t: Tid, d: Deed)
    requires t < |w.calls| && Carry(w, t, d).Some?
    ensures !Carry(w, t, d).value.call.Opening?
  {
  }

  /** The socket of a thread that owns a hold on it stays where it is. */
  lemma OwnedStays(w: World, t: Tid, d: Deed, w': World, u: Tid, i: nat)
    requires RefInv(w.s) && Acts(w, t, d, w') && i < |w.s.slots| && u < |w.s.threads| && u < |w'.s.threads|
    requires Owns(w.s.threads[u], i) && w'.s.threads[u].holds[i] > 0
    ensures i < |w'.s.slots| && w'.s.slots[i].conn == w.s.slots[i].conn && w.s.slots[i].conn.Some?
  {
    var a := Decision(w, t, d).value.action;
    assert Vouched(w.s.threads[u], i, w.s.slots[i]) && ThreadOk(w.s.threads[u]);
    if a.Some? {
      RefStepAt(w.s, t, a.value, w'.s, i);
      HoldersUpdate(w.s.threads, u, w.s.threads[u], i);
      HoldersUpdate(w'.s.threads, u, w'.s.threads[u], i);
    }
  }

  lemma OtherThread(w: World, t: Tid, d: Deed, w': World, u: Tid)
    requires Acts(w, t, d, w') && u < |w.s.threads|
    ensures |w'.s.threads| == |w.s.threads|
    ensures u != t ==> w'.s.threads[u].pc == w.s.threads[u].pc && w'.s.threads[u].holds == w.s.threads[u].holds
  {
    var a := Decision(w, t, d).value.action;
    if a.Some? { ThreadsAfterAt(w.s, t, Decide(w.s, w.s.threads[t], a.value).value, u); }
  }

  // ---- Whom an event reaches

  lemma UnappliedIsMeant(w: World, u: Tid)
    requires RefInv(w.s) && Protocol(w) && u < |w.s.threads| && Unapplied(w.s.threads[u].pc)
    ensures var i := w.s.threads[u].pc.fd;
      && i < |w.s.slots| && w.s.slots[i].conn.Some? && IsKnown(w.peers, i)
      && (Owns(w.s.threads[u], i) || (w.core == Some(u) && !Ended(w.peers[i])))
  {
    var th := w.s.threads[u];
    assert CallOk(th, u, w.calls[u], w.peers, w.core) && ThreadOk(th) && PeerOk(w, th.pc.fd);
    assert Vouched(th, th.pc.fd, w.s.slots[th.pc.fd]);
  }

  /** As long as an event is on its way through event_callback, the socket it was raised for
      is open and known, and no other thread gives its slot to another netconn. */
  lemma EventsHitTheirSocket(ok: (World, Tid, Deed) -> bool, deeds: seq<Doing>, w: World, t: Tid, d: Deed, w': World,
      u: Tid)
    requires Runs(ok, deeds, w) && Acts(w, t, d, w') && u < |w.s.threads| && Unapplied(w.s.threads[u].pc)
    ensures var i := w.s.threads[u].pc.fd;
      && i < |w.s.slots| && w.s.slots[i].conn.Some? && IsKnown(w.peers, i)
      && (u != t ==> i < |w'.s.slots| && w'.s.slots[i].conn == w.s.slots[i].conn)
  {
    ReachableProtocol(ok, deeds, w);
    UnappliedIsMeant(w, u);
    var i := w.s.threads[u].pc.fd;
    if u != t {
      OtherThread(w, t, d, w', u);
      if Owns(w.s.threads[u], i) {
        OwnedStays(w, t, d, w', u, i);
      } else {
        SlotsChange(w, t, d, w', i);
        assert CallOk(w.s.threads[t], t, w.calls[t], w.peers, w.core);
        PeersChange(w, t, d, i);
      }
    }
  }
}
