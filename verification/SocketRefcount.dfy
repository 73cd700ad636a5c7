/** Reference counting of descriptors, over every interleaving of SocketThreads: the use
    count is the number of outstanding holds, a netconn leaves the table only when nobody
    holds its slot, and it reaches netconn_delete exactly once. */
module SocketRefcount {
  import opened Common
  import opened SocketTable
  import opened SocketThreads
  import opened SelectCall

  // ---- Counting over threads and slots

  function Holders(ts: seq<Thread>, i: nat): nat {
    if ts == [] then 0 else ts[0].holds[i] + Holders(ts[1..], i)
  }

  lemma {:induction false} HoldersUpdate(ts: seq<Thread>, t: Tid, th: Thread, i: nat)
    requires t < |ts|
    ensures Holders(ts[t := th], i) == Holders(ts, i) - ts[t].holds[i] + th.holds[i]
    ensures ts[t].holds[i] <= Holders(ts, i)
  {
    if t > 0 {
      assert ts[t := th][1..] == ts[1..][t - 1 := th];
      HoldersUpdate(ts[1..], t - 1, th, i);
    }
  }

  function One(o: Option<ConnId>, c: ConnId): nat {
    if o == Some(c) then 1 else 0
  }

  function InSlots(slots: seq<Slot>, c: ConnId): nat {
    if slots == [] then 0 else One(slots[0].conn, c) + InSlots(slots[1..], c)
  }

  lemma {:induction false} InSlotsUpdate(slots: seq<Slot>, i: nat, slot: Slot, c: ConnId)
    requires i < |slots|
    ensures InSlots(slots[i := slot], c) == InSlots(slots, c) - One(slots[i].conn, c) + One(slot.conn, c)
    ensures One(slots[i].conn, c) <= InSlots(slots, c)
  {
    if i > 0 {
      assert slots[i := slot][1..] == slots[1..][i - 1 := slot];
      InSlotsUpdate(slots[1..], i - 1, slot, c);
    }
  }

  /** The netconn a thread is carrying: about to be deleted, or looking for a slot. */
  function Carried(th: Thread): Option<ConnId> {
    if th.deleting.Some? then th.deleting
    else if th.pc.Allocating? then Some(th.pc.conn)
    else None
  }

  function InFlight(ts: seq<Thread>, c: ConnId): nat {
    if ts == [] then 0 else One(Carried(ts[0]), c) + InFlight(ts[1..], c)
  }

  lemma {:induction false} InFlightUpdate(ts: seq<Thread>, t: Tid, th: Thread, c: ConnId)
    requires t < |ts|
    ensures InFlight(ts[t := th], c) == InFlight(ts, c) - One(Carried(ts[t]), c) + One(Carried(th), c)
    ensures One(Carried(ts[t]), c) <= InFlight(ts, c)
  {
    if t > 0 {
      assert ts[t := th][1..] == ts[1..][t - 1 := th];
      InFlightUpdate(ts[1..], t - 1, th, c);
    }
  }

  /** A signal changes nothing but the two flags of the thread it wakes. */
  lemma StepCounts(s: State, t: Tid, m: Move, i: nat, c: ConnId)
    requires t < |s.threads|
    ensures var th := ThreadAfter(s, s.threads[t], m);
      && Holders(ThreadsAfter(s, t, m), i) == Holders(s.threads, i) - s.threads[t].holds[i] + th.holds[i]
      && InFlight(ThreadsAfter(s, t, m), c)
         == InFlight(s.threads, c) - One(Carried(s.threads[t]), c) + One(Carried(th), c)
    ensures s.threads[t].holds[i] <= Holders(s.threads, i)
    ensures One(Carried(s.threads[t]), c) <= InFlight(s.threads, c)
  {
    var th := ThreadAfter(s, s.threads[t], m);
    var ts := s.threads[t := th];
    HoldersUpdate(s.threads, t, th, i);
    InFlightUpdate(s.threads, t, th, c);
    if m.effect.Signal? && m.effect.waiter < |ts| {
      var woken := ts[m.effect.waiter].(signalled := true, token := true);
      HoldersUpdate(ts, m.effect.waiter, woken, i);
      InFlightUpdate(ts, m.effect.waiter, woken, c);
    }
  }

  // ---- Invariants

  /** The hold event_callback keeps while it works, and alloc_socket from its section on. */
  function Checked(pc: Pc, i: nat): nat {
    match pc
    case EvApply(k, _) => Is(i, k)
    case EvWalkStart(k, _) => Is(i, k)
    case EvWalk(k, _, _, _) => Is(i, k)
    case EvDone(k) => Is(i, k)
    case Storing(k, _, _) => Is(i, k)
    case _ => 0
  }

  /** What a thread's position says about its holds. */
  ghost predicate Pinned(th: Thread) {
    && (forall i: nat :: Unchecked(th.pc, i) + Checked(th.pc, i) <= th.holds[i])
    && (th.deleting.Some? ==> !th.pc.Allocating?)
  }

  predicate SlotOk(s: Slot, holders: int) {
    && s.fdUsed == holders <= U8_MAX
    && (s.pending.Pending? ==> (s.conn.Some? <==> s.fdUsed > 0))
  }

  ghost predicate ThreadOk(th: Thread) {
    && Pinned(th)
    && Sound(th.pc)
    && forall i: nat :: Balanced(th.pc, th.holds[i], i)
  }

  ghost predicate RefInv(s: State) {
    && (forall t :: 0 <= t < |s.threads| ==> ThreadOk(s.threads[t]))
    && (forall i :: 0 <= i < |s.slots| ==> SlotOk(s.slots[i], Holders(s.threads, i)))
    && (forall i: nat :: i >= |s.slots| ==> Holders(s.threads, i) == 0)
    && (forall t, i: nat :: 0 <= t < |s.threads| && i < |s.slots| ==> Vouched(s.threads[t], i, s.slots[i]))
  }

  /** A hold that was checked, or came with the allocation, is on an open slot. */
  predicate Vouched(th: Thread, i: nat, slot: Slot) {
    th.holds[i] > Unchecked(th.pc, i) ==> slot.conn.Some?
  }

  /** Every netconn given to alloc_socket is in exactly one place: one slot, one thread's
      hands, or the log of deletions. */
  ghost predicate ConnInv(s: State) {
    forall c: ConnId {:trigger c in s.born} ::
      InSlots(s.slots, c) + InFlight(s.threads, c) + multiset(s.deleted)[c] == if c in s.born then 1 else 0
  }

  // ---- Preservation

  /** What a step may assume about the descriptor it works on. */
  predicate Legal(s: State, th: Thread, e: Effect) {
    match e
    case Hold(i) => Holdable(s, i)
    case CountUp(i) => Holdable(s, i)
    case Drop(i) => i in th.holds
    case Free(i, _) => i in th.holds && Unchecked(th.pc, i) == 0
    case Take(i, conn) => i < |s.slots| && Available(s.slots[i]) && th.deleting.None? && Carried(th) == Some(conn)
    case Discard(conn) => th.deleting.None? && Carried(th) == Some(conn)
    case Birth(conn) => conn !in s.born && Carried(th) == None
    case Delete => th.deleting.Some?
    case _ => true
  }

  lemma EventStepLegal(s: State, th: Thread)
    requires Pinned(th) && EventStep(s, th.pc).Some?
    ensures Legal(s, th, EventStep(s, th.pc).value.effect)
  {
    match th.pc
    case EvCheck(k, _) => assert Checked(th.pc, k) + Unchecked(th.pc, k) == 1;
    case EvDone(k) => assert Checked(th.pc, k) + Unchecked(th.pc, k) == 1;
    case _ =>
  }

  lemma SelectStepLegal(s: State, th: Thread, a: Action)
    requires Pinned(th) && SelectStep(s, th, a).Some?
    ensures Legal(s, th, SelectStep(s, th, a).value.effect)
  {
    match th.pc
    case SelScanDone(_, _, k, _) => assert Unchecked(th.pc, k) >= 1;
    case SelCountDone(_, k, _) => assert Unchecked(th.pc, k) >= 1;
    case SelRelease(c, k, _, _) => assert k in c.used ==> Unchecked(th.pc, k) == 1;
    case SelMark(_, _, _) =>
    case SelScan(_, _, _, _) =>
    case SelCount(_, _) =>
    case _ =>
  }

  lemma StepIsLegal(s: State, th: Thread, a: Action)
    requires Pinned(th) && Decide(s, th, a).Some?
    ensures Legal(s, th, Decide(s, th, a).value.effect)
  {
    if th.deleting.None? {
      match th.pc
      case Running =>
      case Checking(k) => assert Unchecked(th.pc, k) == 1;
      case Allocating(_, _, _) =>
      case Storing(_, _, _) =>
      case _ =>
        if EventStep(s, th.pc).Some? { EventStepLegal(s, th); } else { SelectStepLegal(s, th, a); }
    }
  }

  /** A move keeps hold of what its thread still needs at descriptor `i`. */
  ghost predicate KeepsPins(held: nat, m: Move, i: nat) {
    Unchecked(m.pc, i) + Checked(m.pc, i) <= HeldAfter(held, m.effect, i)
  }

  lemma EventStepPins(s: State, pc: Pc, held: nat, i: nat)
    requires Unchecked(pc, i) + Checked(pc, i) <= held && EventStep(s, pc).Some?
    ensures KeepsPins(held, EventStep(s, pc).value, i)
  {
  }

  lemma SelectStepPins(s: State, th: Thread, a: Action, held: nat, i: nat)
    requires Unchecked(th.pc, i) + Checked(th.pc, i) <= held
    requires SelectStep(s, th, a).Some?
    ensures KeepsPins(held, SelectStep(s, th, a).value, i)
  {
    match th.pc
    case SelMark(c, pass, k) =>
    case SelScan(c, phase, k, found) =>
    case SelCount(c, k) =>
    case SelRelease(c, k, ret, found) =>
    case _ =>
  }

  lemma StepPins(s: State, th: Thread, a: Action, i: nat)
    requires Pinned(th) && Decide(s, th, a).Some?
    ensures KeepsPins(th.holds[i], Decide(s, th, a).value, i)
  {
    assert Unchecked(th.pc, i) + Checked(th.pc, i) <= th.holds[i];
    if th.deleting.None? {
      match th.pc
      case Running =>
      case Checking(_) =>
      case Allocating(_, _, _) =>
      case Storing(_, _, _) =>
      case _ =>
        if EventStep(s, th.pc).Some? { EventStepPins(s, th.pc, th.holds[i], i); }
        else { SelectStepPins(s, th, a, th.holds[i], i); }
    }
  }

  lemma SelectKeepsEntry(s: State, th: Thread, a: Action)
    requires InSelect(th.pc) && SelectStep(s, th, a).Some? && InSelect(SelectStep(s, th, a).value.pc)
    ensures SelectStep(s, th, a).value.pc.sel.entry == th.pc.sel.entry
  {
    match th.pc
    case SelMark(_, _, _) =>
    case SelScan(_, _, _, _) =>
    case SelCount(_, _) =>
    case _ =>
  }

  /** Holds become vouched for only by looking at an open slot, or by allocating it. */
  lemma StepVouches(s: State, th: Thread, a: Action, i: nat)
    requires ThreadOk(th) && Decide(s, th, a).Some? && i < |s.slots| && Vouched(th, i, s.slots[i])
    ensures var m := Decide(s, th, a).value;
      HeldAfter(th.holds[i], m.effect, i) > Unchecked(m.pc, i) ==> s.slots[i].conn.Some? || m.effect.Take?
  {
    var m := Decide(s, th, a).value;
    assert Balanced(th.pc, th.holds[i], i);
    if th.deleting.None? {
      if InSelect(th.pc) {
        StepBalanced(s, th, a, i);
        if InSelect(m.pc) {
          SelectKeepsEntry(s, th, a);
        } else {
          SelectReturns(s, th, a);
        }
      } else if !EventStep(s, th.pc).Some? {
        match th.pc
        case Running =>
        case Checking(_) =>
        case Allocating(_, _, _) =>
      case Storing(_, _, _) =>
        case _ =>
      }
    }
  }

  lemma ThreadsAfterAt(s: State, t: Tid, m: Move, u: Tid)
    requires t < |s.threads| && u < |s.threads|
    ensures var before := if u == t then ThreadAfter(s, s.threads[t], m) else s.threads[u];
      var after := ThreadsAfter(s, t, m)[u];
      after.pc == before.pc && after.holds == before.holds && after.deleting == before.deleting
  {
  }

  /** A legal effect on a slot that its thread may rely on. */
  lemma LegalSlotStep(s: State, th: Thread, e: Effect, i: nat, holders: nat)
    requires i < |s.slots| && Legal(s, th, e) && Touches(e) == Some(i)
    requires SlotOk(s.slots[i], holders) && th.holds[i] <= holders && Vouched(th, i, s.slots[i])
    ensures var slot, after := s.slots[i], OnSlot(s.slots[i], e);
      && SlotOk(after.0, holders - th.holds[i] + HeldAfter(th.holds[i], e, i))
      && (slot.conn.Some? && after.0.conn.None? ==> after.0.fdUsed == 0 && after.1 == slot.conn)
      && (after.1.Some? ==> after.1 == slot.conn && after.0.conn.None?)
      && (e.Take? || after.0.conn.None? || after.0.conn == slot.conn)
  {
  }

  /** What `Perform` does at descriptor `i`, whether or not the step touches it. */
  lemma RefStepAt(s: State, t: Tid, a: Action, s': State, i: nat)
    requires RefInv(s) && Next(s, t, a, s') && i < |s.slots|
    ensures SlotOk(s'.slots[i], Holders(s'.threads, i))
    ensures s.slots[i].conn.Some? && s'.slots[i].conn.None? ==> Holders(s'.threads, i) == 0
    ensures s'.slots[i].conn.Some? && s'.slots[i].conn != s.slots[i].conn ==> Holders(s.threads, i) == 0
    ensures Holders(s'.threads, i) == Holders(s.threads, i) - s.threads[t].holds[i] + s'.threads[t].holds[i]
  {
    var th := s.threads[t];
    var m := Decide(s, th, a).value;
    StepIsLegal(s, th, a);
    StepCounts(s, t, m, i, 0);
    ThreadsAfterAt(s, t, m, t);
    assert Vouched(th, i, s.slots[i]);
    if Touches(m.effect) == Some(i) {
      LegalSlotStep(s, th, m.effect, i, Holders(s.threads, i));
    }
  }

  lemma StepKeepsThreadOk(s: State, t: Tid, a: Action)
    requires t < |s.threads| && ThreadOk(s.threads[t]) && Decide(s, s.threads[t], a).Some?
    ensures ThreadOk(ThreadAfter(s, s.threads[t], Decide(s, s.threads[t], a).value))
  {
    var th := s.threads[t];
    var m := Decide(s, th, a).value;
    StepIsLegal(s, th, a);
    StepSound(s, th, a);
    forall i: nat
      ensures Unchecked(m.pc, i) + Checked(m.pc, i) <= HoldsAfter(th.holds, m.effect)[i]
      ensures Balanced(m.pc, HoldsAfter(th.holds, m.effect)[i], i)
    {
      assert Balanced(th.pc, th.holds[i], i);
      StepPins(s, th, a, i);
      StepBalanced(s, th, a, i);
    }
    DeletingIsLast(s, th, a);
  }

  /** A thread that has a netconn to delete is not looking for a slot for another one. */
  lemma DeletingIsLast(s: State, th: Thread, a: Action)
    requires Pinned(th) && Decide(s, th, a).Some?
    ensures var after := ThreadAfter(s, th, Decide(s, th, a).value); after.deleting.Some? ==> !after.pc.Allocating?
  {
    if th.deleting.None? {
      CarriesOn(s, th, a);
    }
  }

  lemma OnlyAllocAllocates(s: State, th: Thread, a: Action)
    requires !th.pc.Running? && !th.pc.Allocating? && !th.pc.Checking?
    ensures EventStep(s, th.pc).Some? ==> !EventStep(s, th.pc).value.pc.Allocating?
    ensures SelectStep(s, th, a).Some? ==> !SelectStep(s, th, a).value.pc.Allocating?
  {
    match th.pc
    case SelMark(_, _, _) =>
    case SelScan(_, _, _, _) =>
    case SelCount(_, _) =>
    case SelRelease(_, _, _, _) =>
    case _ =>
  }

  lemma RefStep(s: State, t: Tid, a: Action, s': State)
    requires RefInv(s) && Next(s, t, a, s')
    ensures RefInv(s')
  {
    var th := s.threads[t];
    var m := Decide(s, th, a).value;
    StepIsLegal(s, th, a);
    forall u | 0 <= u < |s'.threads| ensures ThreadOk(s'.threads[u]) {
      StepKeepsThreadOk(s, t, a);
      ThreadsAfterAt(s, t, m, u);
      SameThread(if u == t then ThreadAfter(s, th, m) else s.threads[u], s'.threads[u]);
    }
    forall i | 0 <= i < |s'.slots| ensures SlotOk(s'.slots[i], Holders(s'.threads, i)) {
      RefStepAt(s, t, a, s', i);
    }
    forall i: nat | i >= |s'.slots| ensures Holders(s'.threads, i) == 0 {
      StepCounts(s, t, m, i, 0);
    }
    forall u, i: nat | 0 <= u < |s'.threads| && i < |s'.slots| ensures Vouched(s'.threads[u], i, s'.slots[i]) {
      VouchedAfter(s, t, a, s', u, i);
    }
  }

  lemma SameThread(before: Thread, after: Thread)
    requires ThreadOk(before)
    requires after.pc == before.pc && after.holds == before.holds && after.deleting == before.deleting
    ensures ThreadOk(after)
  {
    forall i: nat ensures Balanced(after.pc, after.holds[i], i) {
      assert Balanced(before.pc, before.holds[i], i);
    }
  }

  lemma VouchedAfter(s: State, t: Tid, a: Action, s': State, u: Tid, i: nat)
    requires RefInv(s) && Next(s, t, a, s') && u < |s.threads| && i < |s.slots|
    ensures Vouched(s'.threads[u], i, s'.slots[i])
  {
    var th := s.threads[t];
    var m := Decide(s, th, a).value;
    StepIsLegal(s, th, a);
    ThreadsAfterAt(s, t, m, u);
    RefStepAt(s, t, a, s', i);
    HoldersUpdate(s'.threads, u, s'.threads[u], i);
    assert Vouched(s.threads[u], i, s.slots[i]);
    if u == t {
      StepVouches(s, th, a, i);
    }
  }

  // ---- Netconns: one place at a time

  /** Moving on does not change what a thread carries. */
  lemma CarriesOn(s: State, th: Thread, a: Action)
    requires Pinned(th) && th.deleting.None? && Decide(s, th, a).Some?
    ensures var m := Decide(s, th, a).value;
      && (m.effect.Take? || m.effect.Discard? || m.effect.Birth? || Carried(th.(pc := m.pc)) == Carried(th))
      && (m.effect.Drop? || m.effect.Free? ==> Carried(th) == None)
      && (m.effect.Birth? ==> Carried(th.(pc := m.pc)) == Some(m.effect.conn))
      && (m.effect.Take? || m.effect.Discard? ==> Carried(th.(pc := m.pc)) == None)
      && !m.effect.Delete?
  {
    match th.pc
    case Running =>
    case Checking(_) =>
    case Allocating(_, _, _) =>
    case Storing(_, _, _) =>
    case _ => OnlyAllocAllocates(s, th, a); OnlyAllocMovesConns(s, th, a);
  }

  lemma OnlyAllocMovesConns(s: State, th: Thread, a: Action)
    ensures EventStep(s, th.pc).Some? ==> !MovesConn(EventStep(s, th.pc).value.effect)
    ensures SelectStep(s, th, a).Some? ==> !MovesConn(SelectStep(s, th, a).value.effect)
  {
    match th.pc
    case SelMark(_, _, _) =>
    case SelScan(_, _, _, _) =>
    case SelCount(_, _) =>
    case SelRelease(_, _, _, _) =>
    case _ =>
  }

  predicate MovesConn(e: Effect) {
    e.Take? || e.Discard? || e.Birth? || e.Delete? || e.Free?
  }

  lemma SlotsDelta(s: State, t: Tid, a: Action, s': State, c: ConnId)
    requires RefInv(s) && Next(s, t, a, s')
    ensures var e := Decide(s, s.threads[t], a).value.effect;
      InSlots(s'.slots, c) == InSlots(s.slots, c) - One(Released(s, e), c) + Is1(e.Take? && e.conn == c)
  {
    var th := s.threads[t];
    var e := Decide(s, th, a).value.effect;
    StepIsLegal(s, th, a);
    var touched := Touches(e);
    if touched.Some? && touched.value < |s.slots| {
      var i := touched.value;
      InSlotsUpdate(s.slots, i, OnSlot(s.slots[i], e).0, c);
      HoldersUpdate(s.threads, t, th, i);
      assert Vouched(th, i, s.slots[i]);
      LegalSlotStep(s, th, e, i, Holders(s.threads, i));
    }
  }

  lemma CarriedDelta(s: State, th: Thread, a: Action, c: ConnId)
    requires ThreadOk(th) && Decide(s, th, a).Some?
    ensures var m := Decide(s, th, a).value;
      One(Carried(ThreadAfter(s, th, m)), c)
      == One(Carried(th), c) + One(Released(s, m.effect), c) + Is1(m.effect.Birth? && m.effect.conn == c)
       - Is1(m.effect.Take? && m.effect.conn == c) - Is1(m.effect.Delete? && th.deleting == Some(c))
  {
    var m := Decide(s, th, a).value;
    StepIsLegal(s, th, a);
    if th.deleting.None? {
      CarriesOn(s, th, a);
    }
  }

  lemma {:induction false} ConnStepAt(s: State, t: Tid, a: Action, s': State, c: ConnId)
    requires RefInv(s) && ConnInv(s) && Next(s, t, a, s')
    ensures InSlots(s'.slots, c) + InFlight(s'.threads, c) + multiset(s'.deleted)[c] == if c in s'.born then 1 else 0
  {
    var th := s.threads[t];
    StepIsLegal(s, th, a);
    StepCounts(s, t, Decide(s, th, a).value, 0, c);
    SlotsDelta(s, t, a, s', c);
    CarriedDelta(s, th, a, c);
    assert InSlots(s.slots, c) + InFlight(s.threads, c) + multiset(s.deleted)[c] == if c in s.born then 1 else 0;
  }

  lemma ConnStep(s: State, t: Tid, a: Action, s': State)
    requires RefInv(s) && ConnInv(s) && Next(s, t, a, s')
    ensures ConnInv(s')
  {
    forall c: ConnId
      ensures InSlots(s'.slots, c) + InFlight(s'.threads, c) + multiset(s'.deleted)[c] == if c in s'.born then 1 else 0
    {
      ConnStepAt(s, t, a, s', c);
    }
  }

  lemma {:induction false} NoHolders(ts: seq<Thread>, i: nat)
    requires forall t :: 0 <= t < |ts| ==> ts[t].holds == multiset{}
    ensures Holders(ts, i) == 0
  {
    if ts != [] {
      NoHolders(ts[1..], i);
    }
  }

  lemma {:induction false} NothingAnywhere(slots: seq<Slot>, ts: seq<Thread>, c: ConnId)
    requires forall i :: 0 <= i < |slots| ==> slots[i].conn.None?
    requires forall t :: 0 <= t < |ts| ==> Carried(ts[t]).None?
    ensures InSlots(slots, c) == 0 && InFlight(ts, c) == 0
    decreases |slots| + |ts|
  {
    if slots != [] {
      NothingAnywhere(slots[1..], ts, c);
    } else if ts != [] {
      NothingAnywhere(slots, ts[1..], c);
    }
  }

  lemma InitHolds(s: State)
    requires Init(s)
    ensures RefInv(s) && ConnInv(s)
  {
    forall i: nat ensures Holders(s.threads, i) == 0 { NoHolders(s.threads, i); }
    forall c: ConnId ensures InSlots(s.slots, c) + InFlight(s.threads, c) + multiset(s.deleted)[c] == 0 {
      NothingAnywhere(s.slots, s.threads, c);
    }
  }

  lemma {:induction false} ReachableInv(schedule: seq<Scheduled>, s: State)
    requires Reaches(schedule, s)
    ensures RefInv(s) && ConnInv(s)
    decreases |schedule|
  {
    if schedule == [] {
      InitHolds(s);
    } else {
      var init, last := schedule[..|schedule| - 1], schedule[|schedule| - 1];
      var p :| LastStep(schedule, p, s);
      ReachableInv(init, p);
      RefStep(p, last.thread, last.action, s);
      ConnStep(p, last.thread, last.action, s);
    }
  }

  // ---- The promises, for every interleaving

  /** The use count of a descriptor is the number of holds outstanding on it, and a
      descriptor whose release is pending is closed as soon as nobody holds it. */
  lemma UseCountIsHolders(schedule: seq<Scheduled>, s: State, i: nat)
    requires Reaches(schedule, s) && i < |s.slots|
    ensures s.slots[i].fdUsed == Holders(s.threads, i)
    ensures s.slots[i].pending.Pending? ==> (s.slots[i].conn.None? <==> Holders(s.threads, i) == 0)
  {
    ReachableInv(schedule, s);
  }

  /** A netconn is deleted at most once, and until then it is in one slot or in one
      thread's hands: never lost, never duplicated. */
  lemma DeletedExactlyOnce(schedule: seq<Scheduled>, s: State, c: ConnId)
    requires Reaches(schedule, s) && c in s.born
    ensures multiset(s.deleted)[c] <= 1
    ensures multiset(s.deleted)[c] == 1 <==> InSlots(s.slots, c) == 0 && InFlight(s.threads, c) == 0
    ensures InSlots(s.slots, c) + InFlight(s.threads, c) + multiset(s.deleted)[c] == 1
  {
    ReachableInv(schedule, s);
  }

  /** One more step of any reachable system. A netconn leaves its slot only when no thread
      holds the slot any more, and goes straight to the thread that will delete it; no hold
      is granted on an open slot whose release is pending; and a slot is reallocated only
      when nobody holds it. */
  lemma StepIsSafe(schedule: seq<Scheduled>, s: State, t: Tid, a: Action, s': State, i: nat)
    requires Reaches(schedule, s) && Next(s, t, a, s') && i < |s.slots|
    ensures s.slots[i].conn.Some? && s'.slots[i].conn != s.slots[i].conn ==>
              Holders(s'.threads, i) == 0 && s'.threads[t].deleting == s.slots[i].conn
    ensures s.slots[i].pending.Pending? && s.slots[i].conn.Some? ==> Holders(s'.threads, i) <= Holders(s.threads, i)
    ensures s.slots[i].conn.None? && s'.slots[i].conn.Some? ==> Holders(s.threads, i) == 0
  {
    ReachableInv(schedule, s);
    var th := s.threads[t];
    var m := Decide(s, th, a).value;
    StepIsLegal(s, th, a);
    RefStepAt(s, t, a, s', i);
    ThreadsAfterAt(s, t, m, t);
    assert Vouched(th, i, s.slots[i]);
    HoldersUpdate(s.threads, t, th, i);
    if Touches(m.effect) == Some(i) {
      LegalSlotStep(s, th, m.effect, i, Holders(s.threads, i));
    }
  }

  /** What a call of get_socket, done_socket or lwip_close leaves its thread holding: a get holds
      the descriptor exactly if no release is pending, and keeps it exactly if the socket is
      open; done and free give one hold back. */
  lemma GetsAndReleases(s: State, t: Tid, a: Action, s': State, i: nat)
    requires Next(s, t, a, s') && s.threads[t].deleting.None?
    ensures var th, th' := s.threads[t], s'.threads[t];
      && (th.pc.Running? && a == Get(i) ==>
            if i < |s.slots| && s.slots[i].pending.NotPending?
            then th'.holds == th.holds + multiset{i} && th'.pc == Checking(i)
            else th'.holds == th.holds && th'.pc == Running)
      && (th.pc == Checking(i) ==>
            th'.pc == Running
            && th'.holds == th.holds - if i < |s.slots| && s.slots[i].conn.Some? then multiset{} else multiset{i})
      && (th.pc.Running? && (a == Done(i) || (a.FreeSocket? && a.fd == i)) ==>
            i in th.holds && th'.holds == th.holds - multiset{i} && th'.pc == Running)
  {
    var th := s.threads[t];
    var m := Decide(s, th, a).value;
    ThreadsAfterAt(s, t, m, t);
    if th.pc.Running? && a == Get(i) { GetMoves(s, th, i); }
    if th.pc == Checking(i) { CheckMoves(s, th, a, i); }
    if th.pc.Running? && (a == Done(i) || (a.FreeSocket? && a.fd == i)) { ReleaseMoves(s, th, a, i); }
  }

  lemma GetMoves(s: State, th: Thread, i: nat)
    requires th.deleting.None? && th.pc.Running? && Decide(s, th, Get(i)).Some?
    ensures Decide(s, th, Get(i)).value ==
      if i < |s.slots| && s.slots[i].pending.NotPending? then Move(Hold(i), Checking(i)) else Move(Quiet, Running)
  {
  }

  lemma CheckMoves(s: State, th: Thread, a: Action, i: nat)
    requires th.deleting.None? && th.pc == Checking(i)
    ensures Decide(s, th, a) ==
      Some(Move(if i < |s.slots| && s.slots[i].conn.Some? then Quiet else Drop(i), Running))
  {
  }

  lemma ReleaseMoves(s: State, th: Thread, a: Action, i: nat)
    requires th.deleting.None? && th.pc.Running? && Decide(s, th, a).Some?
    requires a == Done(i) || (a.FreeSocket? && a.fd == i)
    ensures i in th.holds
    ensures Decide(s, th, a).value == Move(if a.Done? then Drop(i) else Free(i, a.isTcp), Running)
  {
  }

  /** The assertion `sock->fd_used != 0` that a get under the lock makes about a pending
      slot holds in every reachable state if and only if the slot still has its netconn. */
  lemma PendingAssertion(schedule: seq<Scheduled>, s: State, i: nat)
    requires Reaches(schedule, s) && i < |s.slots| && s.slots[i].pending.Pending?
    ensures s.slots[i].fdUsed != 0 <==> s.slots[i].conn.Some?
  {
    ReachableInv(schedule, s);
  }

  lemma Extend(schedule: seq<Scheduled>, p: State, t: Tid, a: Action, s: State)
    requires Reaches(schedule, p) && Next(p, t, a, s)
    ensures Reaches(schedule + [Scheduled(t, a)], s)
  {
    var longer := schedule + [Scheduled(t, a)];
    assert longer[..|longer| - 1] == schedule;
    var last := longer[|longer| - 1];
    assert LastStep(longer, p, s);
  }

  function Pair(slot: Slot, a: Thread, b: Thread): State {
    State([slot], [a, b], [], 0, [], {7})
  }

  const IDLE := Thread(multiset{}, None, Running, false, false)
  const USER := Thread(multiset{0}, None, Running, false, false)
  const OPEN_SLOT := Slot(Some(7), false, 1, NotPending, 0, false, false, 0)
  const SHARED_SLOT := Slot(Some(7), false, 2, NotPending, 0, false, false, 0)
  const CLOSING_SLOT := Slot(Some(7), false, 1, Pending(true), 0, false, false, 0)
  const STALE_SLOT := Slot(None, false, 0, Pending(true), 0, false, false, 0)
  const FRESH := State([EMPTY_SLOT], [IDLE, IDLE], [], 0, [], {})
  const OPENING := Pair(EMPTY_SLOT, IDLE.(pc := Allocating(0, 7, false)), IDLE)
  const FINAL := Pair(STALE_SLOT, IDLE, IDLE.(deleting := Some(7)))

  /** Thread 0 is about to make store `k` of alloc_socket. */
  function Setting(k: nat): State {
    Pair(OPEN_SLOT, USER.(pc := Storing(0, false, k)), IDLE)
  }

  lemma FirstSteps()
    ensures Next(FRESH, 0, Alloc(7, false), OPENING)
  {
    assert Decide(FRESH, IDLE, Alloc(7, false)) == Some(Move(Birth(7), Allocating(0, 7, false)));
    assert {} + {7} == {7};
  }

  lemma TakesSlot()
    ensures Next(OPENING, 0, Go, Setting(0))
    ensures Next(Setting(3), 0, Go, Pair(OPEN_SLOT, USER, IDLE))
  {
    assert multiset{} + multiset{0} == multiset{0};
  }

  lemma StoresOn(k: nat)
    requires k < 3
    ensures Next(Setting(k), 0, Go, Setting(k + 1))
  {
  }

  lemma MiddleSteps()
    ensures Next(Pair(OPEN_SLOT, USER, IDLE), 1, Get(0), Pair(SHARED_SLOT, USER, USER.(pc := Checking(0))))
    ensures Next(Pair(SHARED_SLOT, USER, USER.(pc := Checking(0))), 1, Go, Pair(SHARED_SLOT, USER, USER))
  {
    assert multiset{} + multiset{0} == multiset{0};
  }

  lemma LastSteps()
    ensures Next(Pair(SHARED_SLOT, USER, USER), 0, FreeSocket(0, true), Pair(CLOSING_SLOT, IDLE, USER))
    ensures Next(Pair(CLOSING_SLOT, IDLE, USER), 1, Done(0), FINAL)
  {
  }

  lemma {:induction false} UpToSetting(k: nat) returns (run: seq<Scheduled>)
    requires k <= 3
    ensures Reaches(run, Setting(k))
  {
    if k == 0 {
      assert Reaches([], FRESH);
      FirstSteps();
      TakesSlot();
      run := Grow([], FRESH, 0, Alloc(7, false), OPENING);
      run := Grow(run, OPENING, 0, Go, Setting(0));
    } else {
      run := UpToSetting(k - 1);
      StoresOn(k - 1);
      run := Grow(run, Setting(k - 1), 0, Go, Setting(k));
    }
  }

  /** It does fail: thread 0 opens a descriptor, thread 1 gets it, thread 0 closes it while
      thread 1 is using it, and when thread 1 lets go the slot is free and still marked. (The
      events of the close, which change no use count, are not part of this run.) */
  lemma PendingAssertionFails()
    ensures exists schedule, s: State :: Reaches(schedule, s) && |s.slots| == 1
              && s.slots[0].pending.Pending? && s.slots[0].fdUsed == 0
  {
    var run := UpToSetting(3);
    TakesSlot();
    MiddleSteps();
    LastSteps();
    run := Grow(run, Setting(3), 0, Go, Pair(OPEN_SLOT, USER, IDLE));
    run := Grow(run, Pair(OPEN_SLOT, USER, IDLE), 1, Get(0), Pair(SHARED_SLOT, USER, USER.(pc := Checking(0))));
    run := Grow(run, Pair(SHARED_SLOT, USER, USER.(pc := Checking(0))), 1, Go, Pair(SHARED_SLOT, USER, USER));
    run := Grow(run, Pair(SHARED_SLOT, USER, USER), 0, FreeSocket(0, true), Pair(CLOSING_SLOT, IDLE, USER));
    run := Grow(run, Pair(CLOSING_SLOT, IDLE, USER), 1, Done(0), FINAL);
    assert Reaches(run, FINAL);
  }

  lemma Grow(schedule: seq<Scheduled>, p: State, t: Tid, a: Action, s: State) returns (longer: seq<Scheduled>)
    requires Reaches(schedule, p) && Next(p, t, a, s)
    ensures Reaches(longer, s)
  {
    Extend(schedule, p, t, a, s);
    longer := schedule + [Scheduled(t, a)];
  }
}
