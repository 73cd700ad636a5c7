/** Runs of calls in which a select call sleeps although a descriptor it asks for is ready, and
    nobody is on the way to wake it: what SocketWakeups asks of a run is needed.

    In the first, thread 1 enters select with the number of a descriptor that thread 0 is about
    to get from alloc_socket, and sleeps before alloc_socket makes the socket writable. In the
    second, thread 2 has taken a message and not yet raised its RCVMINUS; thread 0 shuts the
    receiving side down 32767 times, each time with a RCVPLUS, so that the receive count wraps
    around; thread 1 sleeps for it; and the RCVMINUS wraps it back. */
module LostWakeups {
  import opened Common
  import opened SocketTable
  import opened SocketThreads
  import opened SocketRefcount
  import opened SocketSelect
  import opened SocketCalls
  import opened SocketWakeups
  import opened SelectRun
  import opened AllocAssertion

  predicate InEventCallback(pc: Pc) {
    pc.EvGet? || pc.EvCheck? || pc.EvApply? || pc.EvWalkStart? || pc.EvWalk? || pc.EvDone?
  }

  /** Thread `u` sleeps in select without a token although a descriptor in one of its sets is
      ready, and no thread is in event_callback. */
  predicate Lost(s: State, u: Tid, i: nat, kind: Kind) {
    && Oversleeps(s, u, i, kind) && !s.threads[u].token
    && forall t :: 0 <= t < |s.threads| ==> !InEventCallback(s.threads[t].pc)
  }

  // ---- A select call waits for a slot that alloc_socket is setting up

  /** The world in which thread 1 sleeps and alloc_socket has made `k` of its stores. */
  function Waited(sendevent: bool, k: nat): World {
    World(State([TAKEN.(fdUsed := 2, selectWaiting := 1, sendevent := sendevent)],
                [USER.(pc := Storing(0, true, k)), USER.(pc := SelWait(Query(Write, {0}), NOTHING_FOUND))],
                [1], 1, [], {7}),
          [NEWBORN.(stage := Opened(0))], [Opening(0, true), NoCall], None)
  }

  lemma IsWaited()
    ensures Sleeping1(Made(TAKEN, 2), Write) == Waited(false, 2)
  {
    assert multiset{}[0 := 1] == multiset{0};
  }

  lemma BecomesWritable()
    ensures Acts(Waited(false, 2), 0, Table(Go), Waited(true, 3))
  {
  }

  lemma UpToWaited() returns (run: seq<Doing>)
    ensures Runs(Anyhow(), run, Waited(false, 2))
  {
    run := UpToStore(2);
    run := FallsAsleep(run, Made(TAKEN, 2), Write);
    IsWaited();
  }

  /** No assertion has failed, and the new socket is writable. */
  lemma WriterIsLost()
    ensures exists run, w: World :: Runs(Anyhow(), run, w) && Lost(w.s, 1, 0, Write)
  {
    var run := UpToWaited();
    BecomesWritable();
    run := Do(run, Waited(false, 2), 0, Table(Go), Waited(true, 3));
    assert Lost(Waited(true, 3).s, 1, 0, Write);
  }

  // ---- A receive count wraps around upwards, and back

  function Open(uses: nat, rcvevent: int): Slot {
    Slot(Some(7), false, uses, NotPending, rcvevent, false, false, 0)
  }

  function Holding(n: nat, pc: Pc): Thread {
    Thread(multiset{}[0 := n], None, pc, false, false)
  }

  /** Thread 0 is in `call`, thread 2 at `reader`, and thread 1 has not come yet. */
  function Trio(slot: Slot, p: Peer, owner: Thread, call: Call, reader: Thread, core: Option<Tid>): World {
    World(State([slot], [owner, IDLE, reader], [], 0, [], {7}), [p], [call, NoCall, NoCall], core)
  }

  function Posted1(announced: nat, taken: nat, bare: nat): Peer {
    Peer(Known, false, false, 1, announced, taken, bare)
  }

  /** The TCP/IP thread works for thread 0 and raises a RCVPLUS. */
  function Raising(uses: nat, r: int, p: Peer, n: nat, pc: Pc, todo: seq<Event>, reader: Thread): World {
    Trio(Open(uses, r), p, Holding(n, pc), Handling(0, Some(7), todo, Ack), reader, Some(0))
  }

  lemma RaiseStarts(uses: nat, r: int, p: Peer, n: nat, reader: Thread)
    requires p.Peer? && p.stage == Known && uses < 100
    ensures Acts(Raising(uses, r, p, n, Running, [RcvPlus], reader), 0, Continue,
                 Raising(uses, r, p, n, EvGet(0, RcvPlus), [], reader))
  {
    assert [RcvPlus][1..] == [];
  }

  lemma RaiseHolds(uses: nat, r: int, p: Peer, n: nat, reader: Thread)
    requires p.Peer? && uses < 100
    ensures Acts(Raising(uses, r, p, n, EvGet(0, RcvPlus), [], reader), 0, Table(Go),
                 Raising(uses + 1, r, p, n + 1, EvCheck(0, RcvPlus), [], reader))
  {
    assert multiset{}[0 := n] + multiset{0} == multiset{}[0 := n + 1];
  }

  lemma RaiseApplies(uses: nat, r: int, p: Peer, n: nat, reader: Thread)
    requires p.Peer? && p.stage == Known
    ensures Acts(Raising(uses, r, p, n, EvCheck(0, RcvPlus), [], reader), 0, Table(Go),
                 Raising(uses, r, p, n, EvApply(0, RcvPlus), [], reader))
    ensures Acts(Raising(uses, r, p, n, EvApply(0, RcvPlus), [], reader), 0, Table(Go),
                 Raising(uses, S16(r + 1), Announced(p, true, true), n, EvDone(0), [], reader))
  {
  }

  lemma RaiseEnds(uses: nat, r: int, p: Peer, n: nat, reader: Thread)
    requires p.Peer? && 1 < uses
    ensures Acts(Raising(uses, r, p, n + 1, EvDone(0), [], reader), 0, Table(Go),
                 Raising(uses - 1, r, p, n, Running, [], reader))
  {
    assert multiset{}[0 := n + 1] - multiset{0} == multiset{}[0 := n];
  }

  lemma RaiseReturns(uses: nat, r: int, p: Peer, n: nat, reader: Thread)
    requires p.Peer?
    ensures Acts(Raising(uses, r, p, n, Running, [], reader), 0, Continue,
                 Trio(Open(uses, r), p, Holding(n, Running), NoCall, reader, None))
  {
  }

  lemma UpToApply(sofar: seq<Doing>, uses: nat, r: int, p: Peer, n: nat, reader: Thread) returns (run: seq<Doing>)
    requires Runs(Anyhow(), sofar, Raising(uses, r, p, n, Running, [RcvPlus], reader))
    requires p.Peer? && p.stage == Known && uses < 100
    ensures Runs(Anyhow(), run, Raising(uses + 1, r, p, n + 1, EvApply(0, RcvPlus), [], reader))
  {
    RaiseStarts(uses, r, p, n, reader);
    RaiseHolds(uses, r, p, n, reader);
    RaiseApplies(uses + 1, r, p, n + 1, reader);
    var begun := Raising(uses, r, p, n, EvGet(0, RcvPlus), [], reader);
    var got := Raising(uses + 1, r, p, n + 1, EvCheck(0, RcvPlus), [], reader);
    run := Do(sofar, Raising(uses, r, p, n, Running, [RcvPlus], reader), 0, Continue, begun);
    run := Do(run, begun, 0, Table(Go), got);
    run := Do(run, got, 0, Table(Go), Raising(uses + 1, r, p, n + 1, EvApply(0, RcvPlus), [], reader));
  }

  lemma FromApplied(sofar: seq<Doing>, uses: nat, r: int, p: Peer, n: nat, reader: Thread) returns (run: seq<Doing>)
    requires Runs(Anyhow(), sofar, Raising(uses + 1, r, p, n + 1, EvDone(0), [], reader)) && p.Peer? && 0 < uses
    ensures Runs(Anyhow(), run, Trio(Open(uses, r), p, Holding(n, Running), NoCall, reader, None))
  {
    RaiseEnds(uses + 1, r, p, n, reader);
    RaiseReturns(uses, r, p, n, reader);
    run := Do(sofar, Raising(uses + 1, r, p, n + 1, EvDone(0), [], reader), 0, Table(Go),
              Raising(uses, r, p, n, Running, [], reader));
    run := Do(run, Raising(uses, r, p, n, Running, [], reader), 0, Continue,
              Trio(Open(uses, r), p, Holding(n, Running), NoCall, reader, None));
  }

  lemma Raises(sofar: seq<Doing>, uses: nat, r: int, p: Peer, n: nat, reader: Thread) returns (run: seq<Doing>)
    requires Runs(Anyhow(), sofar, Raising(uses, r, p, n, Running, [RcvPlus], reader))
    requires p.Peer? && p.stage == Known && 0 < uses < 100
    ensures Runs(Anyhow(), run,
                 Trio(Open(uses, S16(r + 1)), Announced(p, true, true), Holding(n, Running), NoCall, reader, None))
  {
    run := UpToApply(sofar, uses, r, p, n, reader);
    RaiseApplies(uses + 1, r, p, n + 1, reader);
    var applied := Raising(uses + 1, S16(r + 1), Announced(p, true, true), n + 1, EvDone(0), [], reader);
    run := Do(run, Raising(uses + 1, r, p, n + 1, EvApply(0, RcvPlus), [], reader), 0, Table(Go), applied);
    run := FromApplied(run, uses, S16(r + 1), Announced(p, true, true), n, reader);
  }

  const UNBORN3 := World(State([EMPTY_SLOT], [IDLE, IDLE, IDLE], [], 0, [], {}), [Nobody], [NoCall, NoCall, NoCall],
                         None)
  const LOOKING3 := World(State([EMPTY_SLOT], [IDLE.(pc := Allocating(0, 7, false)), IDLE, IDLE], [], 0, [], {7}),
                          [Nobody], [NoCall, NoCall, NoCall], None)

  /** Thread 0 opens the socket. */
  function Opens(pc: Pc): World {
    Trio(Open(1, 0), NEWBORN.(stage := Opened(0)), Holding(1, pc), Opening(0, false), IDLE, None)
  }

  lemma OpensSlot()
    ensures Acts(UNBORN3, 0, Table(Alloc(7, false)), LOOKING3)
    ensures Acts(LOOKING3, 0, Table(Go), Opens(Storing(0, false, 0)))
  {
    assert {} + {7} == {7};
    assert multiset{} + multiset{0} == multiset{}[0 := 1];
  }

  function OpensAt(k: nat): World {
    Opens(if k < 4 then Storing(0, false, k) else Running)
  }

  lemma OpensOn(k: nat)
    requires k < 4
    ensures Acts(OpensAt(k), 0, Table(Go), OpensAt(k + 1))
  {
  }

  lemma {:induction false} UpToOpen(k: nat) returns (run: seq<Doing>)
    requires k <= 4
    ensures Runs(Anyhow(), run, OpensAt(k))
  {
    if k == 0 {
      OpensSlot();
      assert Runs(Anyhow(), [], UNBORN3);
      run := Do([], UNBORN3, 0, Table(Alloc(7, false)), LOOKING3);
      run := Do(run, LOOKING3, 0, Table(Go), OpensAt(0));
    } else {
      run := UpToOpen(k - 1);
      OpensOn(k - 1);
      run := Do(run, OpensAt(k - 1), 0, Table(Go), OpensAt(k));
    }
  }

  /** The socket is open, and thread 2 comes and gets it. */
  function Opened3(uses: nat, n: nat, reader: Thread): World {
    Trio(Open(uses, 0), NEWBORN, Holding(n, Running), NoCall, reader, None)
  }

  lemma Opens3()
    ensures Acts(OpensAt(4), 0, Publish, Opened3(1, 1, IDLE))
    ensures Acts(Opened3(1, 1, IDLE), 0, Table(Done(0)), Opened3(0, 0, IDLE))
  {
    assert multiset{}[0 := 1] - multiset{0} == multiset{}[0 := 0];
  }

  lemma Gets3()
    ensures Acts(Opened3(0, 0, IDLE), 2, Table(Get(0)), Opened3(1, 0, Holding(1, Checking(0))))
    ensures Acts(Opened3(1, 0, Holding(1, Checking(0))), 2, Table(Go), Opened3(1, 0, Holding(1, Running)))
  {
    assert multiset{} + multiset{0} == multiset{}[0 := 1];
  }

  lemma UpToGot() returns (run: seq<Doing>)
    ensures Runs(Anyhow(), run, Opened3(1, 0, Holding(1, Running)))
  {
    run := UpToOpen(4);
    Opens3();
    Gets3();
    run := Do(run, OpensAt(4), 0, Publish, Opened3(1, 1, IDLE));
    run := Do(run, Opened3(1, 1, IDLE), 0, Table(Done(0)), Opened3(0, 0, IDLE));
    run := Do(run, Opened3(0, 0, IDLE), 2, Table(Get(0)), Opened3(1, 0, Holding(1, Checking(0))));
    run := Do(run, Opened3(1, 0, Holding(1, Checking(0))), 2, Table(Go), Opened3(1, 0, Holding(1, Running)));
  }

  /** Thread 2 has taken the message and not gone on; thread 0 has shut down `n` times. */
  function Shut(n: nat): World {
    Trio(Open(1, S16(1 + n)), Posted1(1, 1, n), Holding(0, Running), NoCall, Holding(1, EvGet(0, RcvMinus)), None)
  }

  lemma Arrives()
    ensures Acts(Opened3(1, 0, Holding(1, Running)), 0, Arrive(0),
                 Raising(1, 0, Posted1(0, 0, 0), 0, Running, [RcvPlus], Holding(1, Running)))
  {
  }

  lemma Takes3()
    ensures Acts(Trio(Open(1, 1), Posted1(1, 0, 0), Holding(0, Running), NoCall, Holding(1, Running), None), 2,
                 Receive(0, true), Shut(0))
  {
  }

  lemma UpToArrived() returns (run: seq<Doing>)
    ensures Runs(Anyhow(), run, Raising(1, 0, Posted1(0, 0, 0), 0, Running, [RcvPlus], Holding(1, Running)))
  {
    run := UpToGot();
    Arrives();
    run := Do(run, Opened3(1, 0, Holding(1, Running)), 0, Arrive(0),
              Raising(1, 0, Posted1(0, 0, 0), 0, Running, [RcvPlus], Holding(1, Running)));
  }

  lemma UpToAnnounced(p: Peer) returns (run: seq<Doing>)
    requires p == Posted1(0, 0, 0)
    ensures Runs(Anyhow(), run,
                 Trio(Open(1, 1), Posted1(1, 0, 0), Holding(0, Running), NoCall, Holding(1, Running), None))
  {
    run := UpToArrived();
    run := Raises(run, 1, 0, p, 0, Holding(1, Running));
    assert Announced(p, true, true) == Posted1(1, 0, 0) && S16(1) == 1;
  }

  lemma UpToTaken3() returns (run: seq<Doing>)
    ensures Runs(Anyhow(), run, Shut(0))
  {
    run := UpToAnnounced(Posted1(0, 0, 0));
    Takes3();
    run := Do(run, Trio(Open(1, 1), Posted1(1, 0, 0), Holding(0, Running), NoCall, Holding(1, Running), None), 2,
              Receive(0, true), Shut(0));
  }

  const STALLED := Holding(1, EvGet(0, RcvMinus))

  /** lwip_shutdown of the receiving side, once more. */
  function Shutting(r: int, n: nat, holds: nat, pc: Pc): World {
    Trio(Open(1 + holds, r), Posted1(1, 1, n), Holding(holds, pc), NoCall, STALLED, None)
  }

  lemma GetsIt(r: int, n: nat)
    ensures Acts(Shutting(r, n, 0, Running), 0, Table(Get(0)), Shutting(r, n, 1, Checking(0)))
    ensures Acts(Shutting(r, n, 1, Checking(0)), 0, Table(Go), Shutting(r, n, 1, Running))
  {
    assert multiset{}[0 := 0] + multiset{0} == multiset{}[0 := 1];
  }

  lemma ShutsIt(r: int, n: nat)
    ensures Acts(Shutting(r, n, 1, Running), 0, Shutdown(0, false, true, false),
                 Raising(2, r, Posted1(1, 1, n), 1, Running, [RcvPlus], STALLED))
  {
    assert Raised(false, true, false) == [RcvPlus];
  }

  lemma LetsGo(r: int, n: nat)
    ensures Acts(Shutting(r, n, 1, Running), 0, Table(Done(0)), Shutting(r, n, 0, Running))
  {
    assert multiset{}[0 := 1] - multiset{0} == multiset{}[0 := 0];
  }

  lemma UpToRaise(sofar: seq<Doing>, r: int, n: nat) returns (run: seq<Doing>)
    requires Runs(Anyhow(), sofar, Shutting(r, n, 0, Running))
    ensures Runs(Anyhow(), run, Raising(2, r, Posted1(1, 1, n), 1, Running, [RcvPlus], STALLED))
  {
    GetsIt(r, n);
    ShutsIt(r, n);
    run := Do(sofar, Shutting(r, n, 0, Running), 0, Table(Get(0)), Shutting(r, n, 1, Checking(0)));
    run := Do(run, Shutting(r, n, 1, Checking(0)), 0, Table(Go), Shutting(r, n, 1, Running));
    run := Do(run, Shutting(r, n, 1, Running), 0, Shutdown(0, false, true, false),
              Raising(2, r, Posted1(1, 1, n), 1, Running, [RcvPlus], STALLED));
  }

  lemma ShutsOnce(sofar: seq<Doing>, r: int, n: nat) returns (run: seq<Doing>)
    requires Runs(Anyhow(), sofar, Shutting(r, n, 0, Running))
    ensures Runs(Anyhow(), run, Shutting(S16(r + 1), n + 1, 0, Running))
  {
    run := UpToRaise(sofar, r, n);
    run := Raises(run, 2, r, Posted1(1, 1, n), 1, STALLED);
    run := Returns(run, S16(r + 1), n + 1);
  }

  lemma Returns(sofar: seq<Doing>, r: int, n: nat) returns (run: seq<Doing>)
    requires Runs(Anyhow(), sofar, Shutting(r, n, 1, Running))
    ensures Runs(Anyhow(), run, Shutting(r, n, 0, Running))
  {
    LetsGo(r, n);
    run := Do(sofar, Shutting(r, n, 1, Running), 0, Table(Done(0)), Shutting(r, n, 0, Running));
  }

  lemma {:induction false} UpToShut(n: nat) returns (run: seq<Doing>)
    requires n <= 0x7fff
    ensures Runs(Anyhow(), run, Shut(n))
  {
    if n == 0 {
      run := UpToTaken3();
    } else {
      run := UpToShut(n - 1);
      assert Shut(n - 1) == Shutting(n, n - 1, 0, Running);
      run := ShutsOnce(run, n, n - 1);
      assert Shut(n) == Shutting(S16(n + 1), n, 0, Running);
    }
  }

  /** Thread 1 sleeps, and thread 2 goes on with its RCVMINUS. */
  function Dozing(n: nat, uses: nat, r: int, reader: Thread): World {
    World(State([Open(uses, r).(selectWaiting := 1)],
                [Holding(0, Running), Holding(1, SelWait(Query(Read, {0}), NOTHING_FOUND)), reader], [1], 1, [], {7}),
          [Posted1(1, 1, n)], [NoCall, NoCall, NoCall], None)
  }

  lemma MinusStarts(n: nat, r: int)
    ensures Acts(Dozing(n, 2, r, STALLED), 2, Table(Go), Dozing(n, 3, r, Holding(2, EvCheck(0, RcvMinus))))
    ensures Acts(Dozing(n, 3, r, Holding(2, EvCheck(0, RcvMinus))), 2, Table(Go),
                 Dozing(n, 3, r, Holding(2, EvApply(0, RcvMinus))))
  {
    assert multiset{}[0 := 1] + multiset{0} == multiset{}[0 := 2];
  }

  lemma MinusEnds(n: nat, r: int)
    ensures Acts(Dozing(n, 3, r, Holding(2, EvApply(0, RcvMinus))), 2, Table(Go),
                 Dozing(n, 3, S16(r - 1), Holding(2, EvDone(0))))
  {
  }

  lemma MinusReturns(n: nat, r: int)
    ensures Acts(Dozing(n, 3, r, Holding(2, EvDone(0))), 2, Table(Go), Dozing(n, 2, r, Holding(1, Running)))
  {
    assert multiset{}[0 := 2] - multiset{0} == multiset{}[0 := 1];
  }

  lemma OneMinus(sofar: seq<Doing>, n: nat, r: int) returns (run: seq<Doing>)
    requires Runs(Anyhow(), sofar, Dozing(n, 2, r, STALLED))
    ensures Runs(Anyhow(), run, Dozing(n, 2, S16(r - 1), Holding(1, Running)))
  {
    MinusStarts(n, r);
    MinusEnds(n, r);
    MinusReturns(n, S16(r - 1));
    var checking, applying := Holding(2, EvCheck(0, RcvMinus)), Holding(2, EvApply(0, RcvMinus));
    run := Do(sofar, Dozing(n, 2, r, STALLED), 2, Table(Go), Dozing(n, 3, r, checking));
    run := Do(run, Dozing(n, 3, r, checking), 2, Table(Go), Dozing(n, 3, r, applying));
    run := Do(run, Dozing(n, 3, r, applying), 2, Table(Go), Dozing(n, 3, S16(r - 1), Holding(2, EvDone(0))));
    run := Do(run, Dozing(n, 3, S16(r - 1), Holding(2, EvDone(0))), 2, Table(Go),
              Dozing(n, 2, S16(r - 1), Holding(1, Running)));
  }

  lemma IsDozing(n: nat)
    requires n == 0x7fff
    ensures Calm(Shut(n)) && NotReady(Shut(n), Read) && Sleeping1(Shut(n), Read) == Dozing(n, 2, -0x8000, STALLED)
  {
  }

  lemma UpToDozing(n: nat) returns (run: seq<Doing>)
    requires n == 0x7fff
    ensures Runs(Anyhow(), run, Dozing(n, 2, -0x8000, STALLED))
  {
    run := UpToShut(n);
    IsDozing(n);
    run := FallsAsleep(run, Shut(n), Read);
  }

  lemma IsLost(n: nat, r: int)
    requires r > 0
    ensures Lost(Dozing(n, 2, r, Holding(1, Running)).s, 1, 0, Read)
  {
  }

  lemma Wraps(n: nat) returns (run: seq<Doing>, w: World)
    requires n == 0x7fff
    ensures Runs(Anyhow(), run, w) && Lost(w.s, 1, 0, Read) && Bare(w, 0) == n
  {
    run := UpToDozing(n);
    run := OneMinus(run, n, -0x8000);
    assert S16(-0x8000 - 1) == 0x7fff;
    w := Dozing(n, 2, 0x7fff, Holding(1, Running));
    IsLost(n, 0x7fff);
  }

  /** After 32767 shutdowns the receive count is -32768, and the one RCVMINUS makes it 32767:
      the socket is readable, and the waiter has not been told. */
  lemma ReaderIsLost()
    ensures exists run, w: World :: Runs(Anyhow(), run, w) && Lost(w.s, 1, 0, Read) && Bare(w, 0) == 0x7fff
  {
    var run, w := Wraps(0x7fff);
    assert Runs(Anyhow(), run, w) && Lost(w.s, 1, 0, Read) && Bare(w, 0) == 0x7fff;
  }
}
