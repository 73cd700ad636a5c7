/** One select call that finds nothing and goes to sleep, step by step, whatever the other
    threads are in the middle of: a part of the runs in AllocAssertion and LostWakeups.

    Thread 1 asks for one kind of readiness of descriptor 0, the only one of the table. It marks
    the descriptor in the pass for that kind, scans it and finds nothing, links its select_cb
    into the empty list, counts itself in, scans once more, and waits. Each step is written
    down as a world in terms of the one the call was made in, of which it changes nothing but
    the use count and select_waiting of the slot, the list of waiters and thread 1 itself. */
module SelectRun {
  import opened Common
  import opened SocketTable
  import opened SocketThreads
  import opened SocketRefcount
  import opened SocketCalls

  /** A run goes on. */
  lemma Do(run: seq<Doing>, w: World, t: Tid, d: Deed, w': World) returns (longer: seq<Doing>)
    requires Runs(Anyhow(), run, w) && Acts(w, t, d, w')
    ensures Runs(Anyhow(), longer, w')
  {
    longer := run + [Doing(t, d)];
    assert longer[..|longer| - 1] == run;
    assert LastDeed(Anyhow(), longer, w, w');
  }

  /** The world in which thread 1 enters select: one slot, open, and thread 1 in no call. */
  predicate Calm(w: World) {
    && |w.s.slots| == 1 && |w.s.threads| > 1 && |w.calls| == |w.s.threads| && w.s.waiters == []
    && w.s.slots[0].pending.NotPending? && w.s.slots[0].fdUsed < 100 && w.s.slots[0].selectWaiting == 0
    && w.s.threads[1] == IDLE && w.calls[1] == NoCall
  }

  /** It asks for one kind of readiness of descriptor 0, for as long as it takes. */
  function Query(kind: Kind, used: set<nat>): Sel {
    Sel(if kind == Read then {0} else {}, if kind == Write then {0} else {}, if kind == Except then {0} else {},
        1, Forever, used, multiset{})
  }

  /** And there it is at `pc`, with so many holds on the slot. */
  function At(w: World, holds: nat, pc: Pc): World
    requires Calm(w)
  {
    Linked1(w, holds, pc, 0, [])
  }

  function Linked1(w: World, holds: nat, pc: Pc, waiting: nat, waiters: seq<Tid>): World
    requires Calm(w)
  {
    var slot := w.s.slots[0].(fdUsed := w.s.slots[0].fdUsed + holds, selectWaiting := waiting);
    var th := Thread(multiset{}[0 := holds], None, pc, false, false);
    World(State([slot], w.s.threads[1 := th], waiters, w.s.ctr + |waiters|, w.s.deleted, w.s.born),
          w.peers, w.calls, w.core)
  }

  function Marking1(w: World, kind: Kind, marked: bool, pass: Kind, k: nat): World
    requires Calm(w)
  {
    At(w, Is1(marked), SelMark(Query(kind, if marked then {0} else {}), pass, k))
  }

  lemma Enters(w: World, kind: Kind)
    requires Calm(w)
    ensures var q := Query(kind, {});
      Acts(w, 1, Table(Select(q.readset, q.writeset, q.exceptset, 1, Forever)), Marking1(w, kind, false, Read, 0))
  {
    var w' := Marking1(w, kind, false, Read, 0);
    assert w.s.slots == [w.s.slots[0]];
    assert multiset{}[0 := 0] == multiset{};
  }

  /** One pass over the descriptors marks 0, and the others pass it by. */
  lemma PassMarks(w: World, kind: Kind)
    requires Calm(w)
    ensures Acts(Marking1(w, kind, false, kind, 0), 1, Table(Go), Marking1(w, kind, true, kind, 1))
  {
    assert multiset{}[0 := 0] + multiset{0} == multiset{}[0 := 1];
    MarkMoves(Marking1(w, kind, false, kind, 0).s, kind);
  }

  lemma MarkMoves(s: State, kind: Kind)
    requires |s.slots| == 1 && s.slots[0].pending.NotPending? && s.slots[0].fdUsed < 100
    ensures MarkStep(s, Query(kind, {}), kind, 0) == Some(Move(Hold(0), SelMark(Query(kind, {0}), kind, 1)))
  {
    assert {} + {0} == {0};
  }

  lemma PassSkips(w: World, kind: Kind, marked: bool, pass: Kind)
    requires Calm(w) && kind != pass
    ensures Acts(Marking1(w, kind, marked, pass, 0), 1, Table(Go), Marking1(w, kind, marked, pass, 1))
  {
  }

  lemma Passes(w: World, kind: Kind, marked: bool, pass: Kind)
    requires Calm(w) && (marked ==> kind != pass)
    ensures Acts(Marking1(w, kind, marked, pass, 0), 1, Table(Go), Marking1(w, kind, marked || kind == pass, pass, 1))
  {
    if kind == pass { PassMarks(w, kind); } else { PassSkips(w, kind, marked, pass); }
  }

  function NextMark(w: World, kind: Kind, pass: Kind): World
    requires Calm(w)
  {
    match pass
    case Read => Marking1(w, kind, kind == Read, Write, 0)
    case Write => Marking1(w, kind, kind != Except, Except, 0)
    case Except => At(w, 1, SelScan(Query(kind, {0}), Before, 0, NOTHING_FOUND))
  }

  lemma PassEnds(w: World, kind: Kind, pass: Kind, marked: bool)
    requires Calm(w) && marked == (kind == Read || (kind == Write && pass != Read) || pass == Except)
    ensures Acts(Marking1(w, kind, marked, pass, 1), 1, Table(Go), NextMark(w, kind, pass))
  {
  }

  predicate NotReady(w: World, kind: Kind)
    requires Calm(w)
  {
    !Ready(w.s.slots[0], kind) && (kind == Read ==> !w.s.slots[0].lastdata)
  }

  /** Scanning the only descriptor, before the call is linked or after. */
  function Scanning1(w: World, kind: Kind, phase: Phase, k: nat): World
    requires Calm(w)
  {
    Linked1(w, 1, SelScan(Query(kind, {0}), phase, k, NOTHING_FOUND), Is1(phase == Rescan),
            if phase == Rescan then [1] else [])
  }

  function Looking1(w: World, kind: Kind, phase: Phase): World
    requires Calm(w)
  {
    Linked1(w, 2, SelScanDone(Query(kind, {0}), phase, 0, NOTHING_FOUND), Is1(phase == Rescan),
            if phase == Rescan then [1] else [])
  }

  lemma Looks1(w: World, kind: Kind, phase: Phase, waiting: nat, waiters: seq<Tid>)
    requires Calm(w) && NotReady(w, kind)
    ensures Acts(Linked1(w, 1, SelScan(Query(kind, {0}), phase, 0, NOTHING_FOUND), waiting, waiters), 1, Table(Go),
                 Linked1(w, 2, SelScanDone(Query(kind, {0}), phase, 0, NOTHING_FOUND), waiting, waiters))
  {
    assert multiset{}[0 := 1] + multiset{0} == multiset{}[0 := 2];
  }

  lemma Scans(w: World, kind: Kind, phase: Phase)
    requires Calm(w) && NotReady(w, kind)
    ensures Acts(Scanning1(w, kind, phase, 0), 1, Table(Go), Looking1(w, kind, phase))
  {
    Looks1(w, kind, phase, Is1(phase == Rescan), if phase == Rescan then [1] else []);
  }

  lemma LooksOn(w: World, kind: Kind, phase: Phase)
    requires Calm(w)
    ensures Acts(Looking1(w, kind, phase), 1, Table(Go), Scanning1(w, kind, phase, 1))
  {
    assert multiset{}[0 := 2] - multiset{0} == multiset{}[0 := 1];
  }

  function Counting1(w: World, kind: Kind, k: nat): World
    requires Calm(w)
  {
    Linked1(w, 1, SelCount(Query(kind, {0}), k), k, [1])
  }

  function Counted1(w: World, kind: Kind): World
    requires Calm(w)
  {
    Linked1(w, 2, SelCountDone(Query(kind, {0}), 0, false), 1, [1])
  }

  lemma Links(w: World, kind: Kind)
    requires Calm(w)
    ensures Acts(Scanning1(w, kind, Before, 1), 1, Table(Go), At(w, 1, SelLink(Query(kind, {0}))))
  {
  }

  lemma Linking(w: World, kind: Kind)
    requires Calm(w)
    ensures Acts(At(w, 1, SelLink(Query(kind, {0}))), 1, Table(Go), Counting1(w, kind, 0))
  {
    assert [1] + [] == [1];
  }

  lemma Counts1(w: World, kind: Kind)
    requires Calm(w)
    ensures Acts(Counting1(w, kind, 0), 1, Table(Go), Counted1(w, kind))
  {
    assert multiset{}[0 := 1] + multiset{0} == multiset{}[0 := 2];
    CountMoves(Counting1(w, kind, 0).s, kind);
  }

  lemma CountMoves(s: State, kind: Kind)
    requires |s.slots| == 1 && s.slots[0].pending.NotPending? && s.slots[0].fdUsed < 200
    requires s.slots[0].selectWaiting == 0
    ensures CountStep(s, Query(kind, {0}), 0) == Some(Move(CountUp(0), SelCountDone(Query(kind, {0}), 0, false)))
  {
  }

  lemma CountsOn(w: World, kind: Kind)
    requires Calm(w)
    ensures Acts(Counted1(w, kind), 1, Table(Go), Counting1(w, kind, 1))
  {
    assert multiset{}[0 := 2] - multiset{0} == multiset{}[0 := 1];
  }

  /** Linked, counted in and asleep. */
  function Sleeping1(w: World, kind: Kind): World
    requires Calm(w)
  {
    Linked1(w, 1, SelWait(Query(kind, {0}), NOTHING_FOUND), 1, [1])
  }

  lemma Rescans(w: World, kind: Kind)
    requires Calm(w)
    ensures Acts(Counting1(w, kind, 1), 1, Table(Go), Scanning1(w, kind, Rescan, 0))
    ensures Acts(Scanning1(w, kind, Rescan, 1), 1, Table(Go), Sleeping1(w, kind))
  {
  }

  /** One pass of a run. */
  lemma Passed1(run: seq<Doing>, w: World, kind: Kind, pass: Kind, marked: bool) returns (longer: seq<Doing>)
    requires Calm(w) && marked == (pass != Read && (kind == Read || (kind == Write && pass == Except)))
    requires Runs(Anyhow(), run, Marking1(w, kind, marked, pass, 0))
    ensures Runs(Anyhow(), longer, NextMark(w, kind, pass))
  {
    var now := marked || kind == pass;
    Passes(w, kind, marked, pass);
    PassEnds(w, kind, pass, now);
    longer := Do(run, Marking1(w, kind, marked, pass, 0), 1, Table(Go), Marking1(w, kind, now, pass, 1));
    longer := Do(longer, Marking1(w, kind, now, pass, 1), 1, Table(Go), NextMark(w, kind, pass));
  }

  lemma Entered1(run: seq<Doing>, w: World, kind: Kind) returns (longer: seq<Doing>)
    requires Runs(Anyhow(), run, w) && Calm(w)
    ensures Runs(Anyhow(), longer, Marking1(w, kind, false, Read, 0))
  {
    Enters(w, kind);
    var q := Query(kind, {});
    longer := Do(run, w, 1, Table(Select(q.readset, q.writeset, q.exceptset, 1, Forever)),
                 Marking1(w, kind, false, Read, 0));
  }

  /** From the call of lwip_select to the scan. */
  lemma MarksIt(run: seq<Doing>, w: World, kind: Kind) returns (longer: seq<Doing>)
    requires Runs(Anyhow(), run, w) && Calm(w)
    ensures Runs(Anyhow(), longer, Scanning1(w, kind, Before, 0))
  {
    longer := Entered1(run, w, kind);
    longer := Passed1(longer, w, kind, Read, false);
    longer := Passed1(longer, w, kind, Write, kind == Read);
    longer := Passed1(longer, w, kind, Except, kind != Except);
  }

  /** From there to being counted in. */
  lemma CountsItselfIn(run: seq<Doing>, w: World, kind: Kind) returns (longer: seq<Doing>)
    requires Runs(Anyhow(), run, w) && Calm(w) && NotReady(w, kind)
    ensures Runs(Anyhow(), longer, Counting1(w, kind, 1))
  {
    longer := MarksIt(run, w, kind);
    Scans(w, kind, Before);
    LooksOn(w, kind, Before);
    Links(w, kind);
    Linking(w, kind);
    Counts1(w, kind);
    CountsOn(w, kind);
    longer := Do(longer, Scanning1(w, kind, Before, 0), 1, Table(Go), Looking1(w, kind, Before));
    longer := Do(longer, Looking1(w, kind, Before), 1, Table(Go), Scanning1(w, kind, Before, 1));
    longer := Do(longer, Scanning1(w, kind, Before, 1), 1, Table(Go), At(w, 1, SelLink(Query(kind, {0}))));
    longer := Do(longer, At(w, 1, SelLink(Query(kind, {0}))), 1, Table(Go), Counting1(w, kind, 0));
    longer := Do(longer, Counting1(w, kind, 0), 1, Table(Go), Counted1(w, kind));
    longer := Do(longer, Counted1(w, kind), 1, Table(Go), Counting1(w, kind, 1));
  }

  /** And to sleep. */
  lemma FallsAsleep(run: seq<Doing>, w: World, kind: Kind) returns (longer: seq<Doing>)
    requires Runs(Anyhow(), run, w) && Calm(w) && NotReady(w, kind)
    ensures Runs(Anyhow(), longer, Sleeping1(w, kind))
  {
    longer := CountsItselfIn(run, w, kind);
    Rescans(w, kind);
    Scans(w, kind, Rescan);
    LooksOn(w, kind, Rescan);
    longer := Do(longer, Counting1(w, kind, 1), 1, Table(Go), Scanning1(w, kind, Rescan, 0));
    longer := Do(longer, Scanning1(w, kind, Rescan, 0), 1, Table(Go), Looking1(w, kind, Rescan));
    longer := Do(longer, Looking1(w, kind, Rescan), 1, Table(Go), Scanning1(w, kind, Rescan, 1));
    longer := Do(longer, Scanning1(w, kind, Rescan, 1), 1, Table(Go), Sleeping1(w, kind));
  }
}
