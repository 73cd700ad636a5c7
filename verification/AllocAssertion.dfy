/** A run of calls in which alloc_socket's assertion that nobody waits in select on the slot
    it has taken (lwip_client/ta/sockets.c:565) does not hold. SocketSelect.AllocAssertion
    says exactly when it does.

    Thread 0 opens a socket and has left alloc_socket's protected section; thread 1 enters
    select with the number that will be the new descriptor, finds it not writable, and counts
    itself in on it, before thread 0 comes to the assertion. */
module AllocAssertion {
  import opened Common
  import opened SocketTable
  import opened SocketThreads
  import opened SocketRefcount
  import opened SocketCalls
  import opened SelectRun

  const UNBORN := World(FRESH, [Nobody], [NoCall, NoCall], None)
  const TAKEN := Slot(Some(7), false, 1, NotPending, 0, false, false, 0)

  /** Thread 0 is on its way through alloc_socket, for a socket that is writable at once. */
  function Making(slot: Slot, pc: Pc, peer: Peer, call: Call): World {
    World(State([slot], [USER.(pc := pc), IDLE], [], 0, [], {7}), [peer], [call, NoCall], None)
  }

  function Made(slot: Slot, k: nat): World {
    Making(slot, Storing(0, true, k), NEWBORN.(stage := Opened(0)), Opening(0, true))
  }

  const LOOKING_UP := World(State([EMPTY_SLOT], [IDLE.(pc := Allocating(0, 7, true)), IDLE], [], 0, [], {7}),
                            [Nobody], [NoCall, NoCall], None)

  lemma LooksUp()
    ensures Acts(UNBORN, 0, Table(Alloc(7, true)), LOOKING_UP)
  {
    assert {} + {7} == {7};
  }

  lemma TakesIt()
    ensures Acts(LOOKING_UP, 0, Table(Go), Made(TAKEN, 0))
  {
    assert multiset{} + multiset{0} == multiset{0};
  }

  lemma StoresOne(k: nat)
    requires k < 2
    ensures Acts(Made(TAKEN, k), 0, Table(Go), Made(TAKEN, k + 1))
  {
  }

  lemma UpToTaken() returns (run: seq<Doing>)
    ensures Runs(Anyhow(), run, Made(TAKEN, 0))
  {
    LooksUp();
    TakesIt();
    assert Runs(Anyhow(), [], UNBORN);
    run := Do([], UNBORN, 0, Table(Alloc(7, true)), LOOKING_UP);
    run := Do(run, LOOKING_UP, 0, Table(Go), Made(TAKEN, 0));
  }

  /** alloc_socket has the slot and has made `k` of its stores. */
  lemma {:induction false} UpToStore(k: nat) returns (run: seq<Doing>)
    requires k <= 2
    ensures Runs(Anyhow(), run, Made(TAKEN, k))
  {
    if k == 0 {
      run := UpToTaken();
    } else {
      run := UpToStore(k - 1);
      StoresOne(k - 1);
      run := Do(run, Made(TAKEN, k - 1), 0, Table(Go), Made(TAKEN, k));
    }
  }

  /** alloc_socket stands before its assertion, and a select call waits for its slot. */
  lemma AllocAssertionFails()
    ensures exists run, w: World :: Runs(Anyhow(), run, w) && |w.s.threads| == 2 && |w.s.slots| == 1
              && w.s.threads[0].pc == Storing(0, true, 1) && w.s.slots[0].selectWaiting == 1
  {
    var run := UpToStore(1);
    run := CountsItselfIn(run, Made(TAKEN, 1), Write);
    assert Runs(Anyhow(), run, Counting1(Made(TAKEN, 1), Write, 1));
  }
}
