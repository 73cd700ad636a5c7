/** No lost wake-up, over every run of SocketCalls: when a select call that sleeps although a
    descriptor it asks for is ready is sure to be woken. */
module SocketWakeups {
  import opened Common
  import opened SocketTable
  import opened SocketThreads
  import opened SelectCall
  import opened SocketRefcount
  import opened SocketSelect
  import opened SocketCalls
  import opened SocketProtocol
  import opened SocketReadable
  import opened SocketWritable

  // ---- Runs

  /** RCVPLUS that slot `i` has counted for no message since its descriptor became known. */
  function Bare(w: World, i: nat): nat {
    if i < |w.peers| && w.peers[i].Peer? then w.peers[i].bare else 0
  }

  /** The descriptor has not had more of them than its receive count can bear. */
  function Modestly(i: nat): (World, Tid, Deed) -> bool {
    (w, t, d) => Bare(w, i) <= BARE_MAX
  }

  /** The deeds that are not a close of a socket whose descriptor is not known, before it is
      writable, and do not make a select call wait for a slot that is being set up. */
  function Sightedly(i: nat): (World, Tid, Deed) -> bool {
    (w: World, t: Tid, d: Deed) => !ClosesBlindly(w, d, i) && !CountsInEarly(w, t, i)
  }

  lemma {:induction false} ReachableRead(deeds: seq<Doing>, w: World, i: nat)
    requires Runs(Modestly(i), deeds, w) && i < |w.peers|
    ensures i < |w.s.slots| && ReadInv(w, i)
    decreases |deeds|
  {
    if deeds == [] {
      assert w.peers[i] == Nobody;
    } else {
      var p :| LastDeed(Modestly(i), deeds, p, w);
      var init, last := deeds[..|deeds| - 1], deeds[|deeds| - 1];
      ReachableProtocol(Modestly(i), init, p);
      ReachableProtocol(Modestly(i), deeds, w);
      PeersStay(p, last.thread, last.deed, w);
      ReachableRead(init, p, i);
      ReadStep(p, last.thread, last.deed, w, i);
    }
  }

  lemma PeersStay(w: World, t: Tid, d: Deed, w': World)
    requires Protocol(w) && Acts(w, t, d, w')
    ensures |w'.peers| == |w.peers|
  {
    assert CallOk(w.s.threads[t], t, w.calls[t], w.peers, w.core);
    if |w.peers| > 0 { PeersChange(w, t, d, 0); } else { NoPeers(w, t, d); }
  }

  lemma NoPeers(w: World, t: Tid, d: Deed)
    requires t < |w.calls| && t < |w.s.threads| && Decision(w, t, d).Some? && w.peers == []
    ensures Decision(w, t, d).value.peers == []
  {
  }

  lemma {:induction false} ReachableWrite(deeds: seq<Doing>, w: World, i: nat)
    requires Runs(Sightedly(i), deeds, w) && i < |w.peers|
    ensures i < |w.s.slots| && WriteInv(w, i) && WaitedInv(w, i)
    decreases |deeds|
  {
    if deeds == [] {
      InitWrite(w, i);
    } else {
      var p :| LastDeed(Sightedly(i), deeds, p, w);
      var init, last := deeds[..|deeds| - 1], deeds[|deeds| - 1];
      ReachableProtocol(Sightedly(i), init, p);
      ReachableProtocol(Sightedly(i), deeds, w);
      PeersStay(p, last.thread, last.deed, w);
      ReachableWrite(init, p, i);
      WriteStep(p, last.thread, last.deed, w, i);
      WaitedStep(p, last.thread, last.deed, w, i);
    }
  }

  lemma InitWrite(w: World, i: nat)
    requires Begins(w) && i < |w.peers|
    ensures i < |w.s.slots| && WriteInv(w, i) && WaitedInv(w, i)
  {
    assert w.peers[i] == Nobody && w.s.slots[i] == EMPTY_SLOT;
    forall t | 0 <= t < |w.s.threads| ensures w.s.threads[t].pc == Running && w.calls[t] == NoCall {
    }
  }

  /** A RCVMINUS does not find the receive count at its least value. */
  lemma NoWrap(w: World, t: Tid, i: nat)
    requires RefInv(w.s) && Protocol(w) && i < |w.peers| && ReadInv(w, i) && t < |w.s.threads|
    ensures !Silently(w.s, w.s.threads[t], i, Read)
  {
    var th := w.s.threads[t];
    assert CallOk(th, t, w.calls[t], w.peers, w.core) && PeerOk(w, i);
    if th.pc == EvApply(i, RcvMinus) {
      assert Vouched(th, i, w.s.slots[i]) && ThreadOk(th);
    }
  }

  lemma {:induction false} ReadsAloud(deeds: seq<Doing>, w: World, i: nat) returns (schedule: seq<Scheduled>)
    requires Runs(Modestly(i), deeds, w) && i < |w.s.slots|
    ensures ReachesBy(Aloud(i, Read), schedule, w.s)
    decreases |deeds|
  {
    if deeds == [] {
      schedule := [];
    } else {
      var p :| LastDeed(Modestly(i), deeds, p, w);
      var init, last := deeds[..|deeds| - 1], deeds[|deeds| - 1];
      ReachableProtocol(Modestly(i), init, p);
      ReachableProtocol(Modestly(i), deeds, w);
      PeersStay(p, last.thread, last.deed, w);
      ReachableRead(init, p, i);
      schedule := ReadsAloud(init, p, i);
      NoWrap(p, last.thread, i);
      schedule := OneMore(schedule, p, last.thread, last.deed, w, i, Read);
    }
  }

  lemma OneMore(schedule: seq<Scheduled>, p: World, t: Tid, d: Deed, w: World, i: nat, kind: Kind)
    returns (longer: seq<Scheduled>)
    requires ReachesBy(Aloud(i, kind), schedule, p.s) && Acts(p, t, d, w)
    requires !Silently(p.s, p.s.threads[t], i, kind)
    ensures ReachesBy(Aloud(i, kind), longer, w.s)
  {
    var a := Decision(p, t, d).value.action;
    longer := schedule;
    if a.Some? {
      longer := schedule + [Scheduled(t, a.value)];
      assert longer[..|longer| - 1] == schedule;
      assert LastStepBy(Aloud(i, kind), longer, p.s, w.s);
    }
  }

  lemma {:induction false} WritesAloud(deeds: seq<Doing>, w: World, i: nat) returns (schedule: seq<Scheduled>)
    requires Runs(Sightedly(i), deeds, w) && i < |w.s.slots|
    ensures ReachesBy(Aloud(i, Write), schedule, w.s)
    decreases |deeds|
  {
    if deeds == [] {
      schedule := [];
    } else {
      var p :| LastDeed(Sightedly(i), deeds, p, w);
      var init, last := deeds[..|deeds| - 1], deeds[|deeds| - 1];
      ReachableProtocol(Sightedly(i), init, p);
      ReachableProtocol(Sightedly(i), deeds, w);
      PeersStay(p, last.thread, last.deed, w);
      ReachableWrite(init, p, i);
      schedule := WritesAloud(init, p, i);
      assert StoresEarly(p.s.threads[last.thread].pc, i) ==> NobodyToTell(p.s.slots[i]);
      schedule := OneMore(schedule, p, last.thread, last.deed, w, i, Write);
    }
  }

  // ---- The promises, for every run of calls

  /** The receive count of an open socket whose descriptor is known does not wrap around: at
      least as many messages were posted and not taken as it says, but for the RCVPLUS that
      announced none, and it falls short of them by no more than a mailbox and two. */
  lemma ReceiveCountIsBounded(deeds: seq<Doing>, w: World, i: nat)
    requires Runs(Modestly(i), deeds, w) && IsKnown(w.peers, i) && i < |w.s.slots| && w.s.slots[i].conn.Some?
    ensures var p, r := w.peers[i], w.s.slots[i].rcvevent;
      p.posted - p.taken - MBOX_ROOM - 2 <= r <= MBOX_ROOM + U8_MAX + 1 + p.bare
  {
    ReachableRead(deeds, w, i);
    ReachableProtocol(Modestly(i), deeds, w);
    MinusesBound(w, i);
    assert PeerOk(w, i);
  }

  /** A select call that sleeps although a descriptor is readable will be woken, in every run
      in which the descriptor has not had too many RCVPLUS that announce nothing. */
  lemma ReaderIsWoken(deeds: seq<Doing>, w: World, u: Tid, i: nat)
    requires Runs(Modestly(i), deeds, w) && Oversleeps(w.s, u, i, Read)
    ensures WillBeWoken(w.s, u, i, Read)
  {
    var schedule := ReadsAloud(deeds, w, i);
    NoLostWakeup(schedule, w.s, u, i, Read);
  }

  /** And one that sleeps although a descriptor is writable, in every run in which nobody
      closes it or starts to wait for it before alloc_socket and its caller are done. */
  lemma WriterIsWoken(deeds: seq<Doing>, w: World, u: Tid, i: nat)
    requires Runs(Sightedly(i), deeds, w) && Oversleeps(w.s, u, i, Write)
    ensures WillBeWoken(w.s, u, i, Write)
  {
    var schedule := WritesAloud(deeds, w, i);
    NoLostWakeup(schedule, w.s, u, i, Write);
  }

  /** And one that sleeps although a descriptor has an error, in every run. */
  lemma ErrorIsTold(ok: (World, Tid, Deed) -> bool, deeds: seq<Doing>, w: World, u: Tid, i: nat)
    requires Runs(ok, deeds, w) && Oversleeps(w.s, u, i, Except)
    ensures WillBeWoken(w.s, u, i, Except)
  {
    var schedule := IsTableRun(ok, deeds, w);
    ErrorsAreAloud(schedule, w.s, i);
    NoLostWakeup(schedule, w.s, u, i, Except);
  }
}
