/** The select wake-up protocol, over every interleaving of SocketThreads: no wake-up is
    lost unless a step makes a descriptor ready silently, a signal always finds its token
    waiting, and select_waiting is the number of select calls that are counted in. */
module SocketSelect {
  import opened Common
  import opened SocketTable
  import opened SocketThreads
  import opened SelectCall
  import opened SocketRefcount

  // ---- select_waiting

  /** The select call at `pc` is counted in select_waiting of descriptor `i`. */
  predicate Counts(pc: Pc, i: nat) {
    match pc
    case SelCount(c, k) => Interest(c, i) && i < k
    case SelCountDone(c, k, overflow) => Interest(c, i) && (i < k || (i == k && !overflow))
    case SelScan(c, phase, _, _) => phase == Rescan && Interest(c, i) && i < c.max
    case SelScanDone(c, phase, _, _) => phase == Rescan && Interest(c, i) && i < c.max
    case SelWait(c, _) => Interest(c, i) && i < c.max
    case SelUncount(c, k, max2, _) => Interest(c, i) && k <= i < max2
    case _ => false
  }

  function Waiting(ts: seq<Thread>, i: nat): nat {
    if ts == [] then 0 else Is1(Counts(ts[0].pc, i)) + Waiting(ts[1..], i)
  }

  lemma {:induction false} WaitingUpdate(ts: seq<Thread>, t: Tid, th: Thread, i: nat)
    requires t < |ts|
    ensures Waiting(ts[t := th], i) == Waiting(ts, i) - Is1(Counts(ts[t].pc, i)) + Is1(Counts(th.pc, i))
    ensures Is1(Counts(ts[t].pc, i)) <= Waiting(ts, i)
  {
    if t > 0 {
      assert ts[t := th][1..] == ts[1..][t - 1 := th];
      WaitingUpdate(ts[1..], t - 1, th, i);
    }
  }

  lemma StepWaiting(s: State, t: Tid, m: Move, i: nat)
    requires t < |s.threads|
    ensures Waiting(ThreadsAfter(s, t, m), i)
         == Waiting(s.threads, i) - Is1(Counts(s.threads[t].pc, i)) + Is1(Counts(m.pc, i))
    ensures Is1(Counts(s.threads[t].pc, i)) <= Waiting(s.threads, i)
  {
    var th := ThreadAfter(s, s.threads[t], m);
    var ts := s.threads[t := th];
    WaitingUpdate(s.threads, t, th, i);
    if m.effect.Signal? && m.effect.waiter < |ts| {
      WaitingUpdate(ts, m.effect.waiter, ts[m.effect.waiter].(signalled := true, token := true), i);
    }
  }

  /** A call is counted in and out by exactly the sections that change select_waiting. */
  ghost predicate CountsFollow(pc: Pc, m: Move, i: nat) {
    Is1(Counts(m.pc, i)) - Is1(Counts(pc, i)) == Is1(m.effect == CountUp(i)) - Is1(m.effect == CountDown(i))
  }

  lemma ScanCounts(s: State, c: Sel, phase: Phase, k: nat, found: Found, a: Action, i: nat)
    requires ScanStep(s, c, phase, k, found, a).Some?
    ensures CountsFollow(SelScan(c, phase, k, found), ScanStep(s, c, phase, k, found, a).value, i)
  {
  }

  lemma CountCounts(s: State, c: Sel, k: nat, i: nat)
    requires CountStep(s, c, k).Some? && k <= c.max
    ensures CountsFollow(SelCount(c, k), CountStep(s, c, k).value, i)
  {
  }

  lemma SelectStepCounts(s: State, th: Thread, a: Action, i: nat)
    requires Sound(th.pc) && SelectStep(s, th, a).Some?
    ensures CountsFollow(th.pc, SelectStep(s, th, a).value, i)
  {
    match th.pc
    case SelMark(c, pass, k) =>
    case SelScan(c, phase, k, found) => ScanCounts(s, c, phase, k, found, a, i);
    case SelCount(c, k) => CountCounts(s, c, k, i);
    case SelUncount(c, k, max2, outcome) =>
    case _ =>
  }

  lemma StepCountsFollow(s: State, th: Thread, a: Action, i: nat)
    requires Sound(th.pc) && Decide(s, th, a).Some?
    ensures CountsFollow(th.pc, Decide(s, th, a).value, i)
  {
    if th.deleting.None? && !th.pc.Running? && !th.pc.Checking? && !th.pc.Allocating? && !th.pc.Storing? {
      if EventStep(s, th.pc).None? { SelectStepCounts(s, th, a, i); }
    }
  }

  ghost predicate WaitInv(s: State) {
    forall i :: 0 <= i < |s.slots| ==>
      s.slots[i].selectWaiting == Waiting(s.threads, i) <= U8_MAX && -0x8000 <= s.slots[i].rcvevent < 0x8000
  }

  lemma WaitInvStep(s: State, t: Tid, a: Action, s': State)
    requires RefInv(s) && WaitInv(s) && Next(s, t, a, s')
    ensures WaitInv(s')
  {
    var th := s.threads[t];
    var m := Decide(s, th, a).value;
    forall i | 0 <= i < |s'.slots|
      ensures s'.slots[i].selectWaiting == Waiting(s'.threads, i) <= U8_MAX && -0x8000 <= s'.slots[i].rcvevent < 0x8000
    {
      StepWaiting(s, t, m, i);
      StepCountsFollow(s, th, a, i);
      if m.effect.CountUp? { CountUpHasRoom(s, th, a); }
      if Touches(m.effect) == Some(i) { SlotEvents(s.slots[i], m.effect, i); }
    }
  }

  /** What one effect does to the fields select looks at. */
  lemma SlotEvents(slot: Slot, e: Effect, i: nat)
    requires Touches(e) == Some(i)
    ensures var after := OnSlot(slot, e).0;
      && (slot.selectWaiting > 0 || e != CountDown(i) ==>
            after.selectWaiting == slot.selectWaiting + Is1(e == CountUp(i)) - Is1(e == CountDown(i)))
      && (-0x8000 <= slot.rcvevent < 0x8000 ==> -0x8000 <= after.rcvevent < 0x8000)
      && (!e.Deliver? && !e.Store? ==> forall kind :: Ready(after, kind) == Ready(slot, kind))
  {
  }

  lemma CountUpHasRoom(s: State, th: Thread, a: Action)
    requires Decide(s, th, a).Some? && Decide(s, th, a).value.effect.CountUp?
    ensures var i := Decide(s, th, a).value.effect.fd; i < |s.slots| && s.slots[i].selectWaiting < U8_MAX
  {
  }

  // ---- The list of waiters

  ghost predicate ListInv(s: State) {
    && Distinct(s.waiters)
    && (forall t: Tid :: t in s.waiters <==> t < |s.threads| && Linked(s.threads[t].pc))
    && (forall t :: 0 <= t < |s.threads| ==> WalkOk(s, s.threads[t].pc) && TokenOk(s.threads[t]))
  }

  /** A walk that has not noticed a change of the list stands on a node of it. */
  predicate WalkOk(s: State, pc: Pc) {
    pc.EvWalk? ==> pc.last <= s.ctr && (pc.last == s.ctr ==> pc.at in s.waiters)
  }

  /** A linked select_cb is signalled exactly when its semaphore has a token, until the
      waiter has taken the token or given up. */
  predicate TokenOk(th: Thread) {
    Linked(th.pc) && !th.pc.SelUncount? && !th.pc.SelUnlink? ==> th.signalled == th.token
  }

  /** How a step moves its thread in and out of the list. */
  lemma LinkFollows(s: State, th: Thread, a: Action)
    requires Decide(s, th, a).Some?
    ensures var m := Decide(s, th, a).value;
      && (m.effect.Link? ==> !Linked(th.pc) && Linked(m.pc))
      && (m.effect.Unlink? ==> Linked(th.pc) && !Linked(m.pc))
      && (!m.effect.Link? && !m.effect.Unlink? ==> Linked(m.pc) == Linked(th.pc))
      && (m.effect.Consume? ==> m.pc.SelUncount?)
      && (m.effect.Signal? ==> m.pc.EvWalk? && m.effect.waiter < |s.threads| && Linked(s.threads[m.effect.waiter].pc))
  {
    if th.deleting.None? && !th.pc.Running? && !th.pc.Checking? && !th.pc.Allocating? && !th.pc.Storing? {
      if EventStep(s, th.pc).None? { SelectLinkFollows(s, th, a); }
    }
  }

  lemma SelectLinkFollows(s: State, th: Thread, a: Action)
    requires SelectStep(s, th, a).Some?
    ensures var m := SelectStep(s, th, a).value;
      && (m.effect.Link? ==> !Linked(th.pc) && Linked(m.pc))
      && (m.effect.Unlink? ==> Linked(th.pc) && !Linked(m.pc))
      && (!m.effect.Link? && !m.effect.Unlink? ==> Linked(m.pc) == Linked(th.pc))
      && (m.effect.Consume? ==> m.pc.SelUncount?)
      && !m.effect.Signal? && !m.pc.EvWalk?
      && (th.pc.SelUncount? || th.pc.SelUnlink? ==> m.pc.SelUncount? || !Linked(m.pc) || m.pc.SelUnlink?)
  {
    match th.pc
    case SelMark(_, _, _) =>
    case SelScan(_, _, _, _) =>
    case SelCount(_, _) =>
    case SelUncount(_, _, _, _) =>
    case SelRelease(_, _, _, _) =>
    case _ =>
  }

  lemma WithoutOne(list: seq<Tid>, t: Tid)
    requires Distinct(list) && t in list
    ensures Distinct(Without(list, t))
    ensures forall u :: u in Without(list, t) <==> u in list && u != t
  {
    var k := IndexOf(list, t);
    var rest := Without(list, t);
    forall u | u in list && u != t ensures u in rest {
      var j :| 0 <= j < |list| && list[j] == u;
      assert rest[if j < k then j else j - 1] == u;
    }
  }

  lemma WaitersStep(s: State, t: Tid, a: Action, s': State)
    requires ListInv(s) && Next(s, t, a, s')
    ensures Distinct(s'.waiters)
    ensures forall u: Tid :: u in s'.waiters <==> u < |s'.threads| && Linked(s'.threads[u].pc)
  {
    var m := Decide(s, s.threads[t], a).value;
    LinkFollows(s, s.threads[t], a);
    if m.effect.Unlink? {
      WithoutOne(s.waiters, t);
    }
    forall u: Tid ensures u in s'.waiters <==> u < |s'.threads| && Linked(s'.threads[u].pc) {
      if u < |s.threads| {
        ThreadsAfterAt(s, t, m, u);
      }
    }
  }

  lemma StepWalks(s: State, th: Thread, a: Action)
    requires Decide(s, th, a).Some? && WalkOk(s, th.pc)
    ensures var m := Decide(s, th, a).value; m.pc.EvWalk? && !th.deleting.Some? ==>
              m.pc.last == s.ctr && m.pc.at in s.waiters && !m.effect.Link? && !m.effect.Unlink?
  {
    if th.deleting.None? && !th.pc.Running? && !th.pc.Checking? && !th.pc.Allocating? && !th.pc.Storing? {
      if EventStep(s, th.pc).None? { SelectLinkFollows(s, th, a); }
    }
  }

  lemma StepTokens(s: State, th: Thread, a: Action)
    requires Decide(s, th, a).Some? && TokenOk(th)
    ensures TokenOk(ThreadAfter(s, th, Decide(s, th, a).value))
  {
    LinkFollows(s, th, a);
    if th.deleting.None? && !th.pc.Running? && !th.pc.Checking? && !th.pc.Allocating? && !th.pc.Storing? {
      if EventStep(s, th.pc).None? { SelectLinkFollows(s, th, a); }
    }
  }

  lemma ListStep(s: State, t: Tid, a: Action, s': State)
    requires ListInv(s) && Next(s, t, a, s')
    ensures ListInv(s')
  {
    var th := s.threads[t];
    var m := Decide(s, th, a).value;
    WaitersStep(s, t, a, s');
    LinkFollows(s, th, a);
    StepWalks(s, th, a);
    StepTokens(s, th, a);
    forall u | 0 <= u < |s'.threads| ensures WalkOk(s', s'.threads[u].pc) && TokenOk(s'.threads[u]) {
      ThreadsAfterAt(s, t, m, u);
      assert WalkOk(s, s.threads[u].pc) && TokenOk(s.threads[u]);
    }
  }

  // ---- No lost wake-up

  /** The waiter has seen descriptor `i` not ready after counting itself in, has not been
      signalled, and so relies on being woken. */
  predicate Relies(th: Thread, i: nat, kind: Kind) {
    !th.signalled && match th.pc
      case SelScan(c, phase, k, found) => phase == Rescan && found.nready == 0 && i < k && InSet(c, kind, i)
      case SelScanDone(c, phase, k, found) => phase == Rescan && found.nready == 0 && i <= k && InSet(c, kind, i)
      case SelWait(c, _) => i < c.max && InSet(c, kind, i)
      case _ => false
  }

  /** A thread in event_callback is bound to visit waiter `w` with this event of `i`: it has
      not started its walk, or will restart it, or has `w` still ahead of it in the list. */
  predicate WillVisit(s: State, pc: Pc, w: Tid, i: nat, kind: Kind) {
    match pc
    case EvWalkStart(j, f) => j == i && Has(f, kind)
    case EvWalk(j, f, last, at) =>
      j == i && Has(f, kind) && (last != s.ctr || IndexOf(s.waiters, at) < IndexOf(s.waiters, w))
    case _ => false
  }

  ghost predicate Covered(s: State, w: Tid, i: nat, kind: Kind) {
    exists e :: 0 <= e < |s.threads| && WillVisit(s, s.threads[e].pc, w, i, kind)
  }

  ghost predicate WokenAt(s: State, w: Tid, i: nat, kind: Kind)
    requires w < |s.threads| && i < |s.slots|
  {
    Relies(s.threads[w], i, kind) && Ready(s.slots[i], kind) ==> Covered(s, w, i, kind)
  }

  ghost predicate WakeInv(s: State, i: nat, kind: Kind)
    requires i < |s.slots|
  {
    forall w :: 0 <= w < |s.threads| ==> WokenAt(s, w, i, kind)
  }

  /** The next visit of a walk either reaches `w` now, which signals it, or leaves it ahead. */
  lemma VisitsInOrder(s: State, pc: Pc, w: Tid, i: nat, kind: Kind)
    requires ListInv(s) && WalkOk(s, pc) && WillVisit(s, pc, w, i, kind)
    requires w < |s.threads| && !s.threads[w].signalled && Linked(s.threads[w].pc)
    requires InSet(s.threads[w].pc.sel, kind, i)
    ensures EventStep(s, pc).Some?
    ensures var m := EventStep(s, pc).value;
      m.effect == Signal(w) || (m.pc.EvWalk? && WillVisit(s, m.pc, w, i, kind) && m.pc.last == s.ctr)
  {
    assert w in s.waiters;
    var restart := pc.EvWalkStart? || pc.last != s.ctr;
    var k := if restart then 0 else IndexOf(s.waiters, pc.at) + 1;
    assert k <= IndexOf(s.waiters, w);
  }

  /** A walk stays bound to `w` while other threads step. */
  lemma StaysBound(s: State, t: Tid, a: Action, s': State, e: Tid, w: Tid, i: nat, kind: Kind)
    requires ListInv(s) && Next(s, t, a, s') && e < |s.threads| && e != t
    requires WillVisit(s, s.threads[e].pc, w, i, kind)
    ensures WillVisit(s', s'.threads[e].pc, w, i, kind)
  {
    ThreadsAfterAt(s, t, Decide(s, s.threads[t], a).value, e);
    assert WalkOk(s, s.threads[e].pc);
  }

  /** What a step by the waiter itself can have added to what it relies on. */
  lemma OwnStep(s: State, th: Thread, a: Action, i: nat, kind: Kind)
    requires Sound(th.pc) && Decide(s, th, a).Some? && i < |s.slots|
    requires Relies(ThreadAfter(s, th, Decide(s, th, a).value), i, kind)
    ensures Relies(th, i, kind) || !Ready(s.slots[i], kind)
    ensures var e := Decide(s, th, a).value.effect; e.Quiet? || e.Hold? || e.Drop? || e.Delete?
  {
    if th.deleting.None? {
      OwnSelectStep(s, th, a, i, kind);
    }
  }

  lemma OwnSelectStep(s: State, th: Thread, a: Action, i: nat, kind: Kind)
    requires Sound(th.pc) && SelectStep(s, th, a).Some? && i < |s.slots|
    requires Relies(th.(pc := SelectStep(s, th, a).value.pc), i, kind) || SelectStep(s, th, a).value.effect.Link?
    ensures SelectStep(s, th, a).value.effect.Link? ==> !Relies(th.(pc := SelectStep(s, th, a).value.pc), i, kind)
    ensures Relies(th.(pc := SelectStep(s, th, a).value.pc), i, kind)
        ==> Relies(th, i, kind) || !Ready(s.slots[i], kind)
    ensures var e := SelectStep(s, th, a).value.effect; e.Quiet? || e.Hold? || e.Drop? || e.Link?
  {
    match th.pc
    case SelMark(_, _, _) =>
    case SelScan(c, phase, k, found) => OwnScan(s, c, phase, k, found, a);
    case SelCount(_, _) =>
    case SelUncount(_, _, _, _) =>
    case SelRelease(_, _, _, _) =>
    case _ =>
  }

  /** A scan that found nothing saw every descriptor it passed not ready. */
  lemma OwnScan(s: State, c: Sel, phase: Phase, k: nat, found: Found, a: Action)
    requires Sound(SelScan(c, phase, k, found)) && ScanStep(s, c, phase, k, found, a).Some?
    ensures var m := ScanStep(s, c, phase, k, found, a).value;
      && (m.pc.SelScan? ==>
            m.pc.phase == phase && m.pc.k == k + 1 && m.pc.found == found && m.pc.sel == c && !Interest(c, k))
      && (m.pc.SelScanDone? ==> m.pc.phase == phase && m.pc.k == k && m.pc.sel == c && k < |s.slots|)
      && (m.pc.SelScanDone? && m.pc.found.nready == 0 ==> found.nready == 0)
      && (m.pc.SelScanDone? && m.pc.found.nready == 0 ==> forall kind :: InSet(c, kind, k) ==> !Ready(s.slots[k], kind))
      && (m.pc.SelWait? ==> phase == Rescan && found.nready == 0 && m.pc.sel == c && k >= c.max)
      && (m.pc.SelScan? || m.pc.SelScanDone? || m.pc.SelWait? || m.pc.SelRelease? || m.pc.SelUncount? || m.pc.SelLink?)
      && (m.effect.Quiet? || m.effect.Hold?)
  {
  }

  /** The step makes descriptor `i` ready while select calls are counted in on it, and tells
      nobody: a RCVMINUS wraps its receive count, an s16_t, around to the largest value; or
      alloc_socket makes it writable although its select_waiting is not 0. */
  predicate Silently(s: State, th: Thread, i: nat, kind: Kind) {
    && i < |s.slots| && s.slots[i].selectWaiting > 0 && !Ready(s.slots[i], kind)
    && match kind
       case Read => th.pc == EvApply(i, RcvMinus) && s.slots[i].rcvevent == -0x8000
       case Write => th.pc == Storing(i, true, 2)
       case Except => false
  }

  /** An event that makes a descriptor ready makes event_callback look for waiters, if and
      only if it is not a RCVMINUS that wraps the receive count around. */
  lemma BecomesReady(slot: Slot, e: Event, kind: Kind)
    requires -0x8000 <= slot.rcvevent < 0x8000
    requires !Ready(slot, kind) && Ready(Posted(slot, e), kind)
    ensures ChecksWaiters(slot, e) <==> !(e.RcvMinus? && slot.rcvevent == -0x8000)
  {
    if e.RcvMinus? {
      assert Posted(slot, e).rcvevent == S16(slot.rcvevent - 1);
    } else {
      assert Posted(slot, e).rcvevent == slot.rcvevent || Posted(slot, e).rcvevent == S16(slot.rcvevent + 1);
    }
  }

  /** Events are delivered by event_callback only. */
  lemma DeliverIsEvApply(s: State, th: Thread, a: Action)
    requires Decide(s, th, a).Some? && Decide(s, th, a).value.effect.Deliver?
    ensures th.deleting.None? && th.pc.EvApply? && Decide(s, th, a) == EventStep(s, th.pc)
  {
    if th.deleting.None? {
      match th.pc
      case Running =>
      case Checking(_) =>
      case Allocating(_, _, _) =>
      case Storing(_, _, _) =>
      case _ =>
        if EventStep(s, th.pc).None? { SelectTouchesNoEvent(s, th, a); }
    }
  }

  /** An event that makes a counted descriptor ready starts a walk with that event's flag,
      unless it does so silently. */
  lemma EventStartsWalk(s: State, th: Thread, a: Action, i: nat, kind: Kind)
    requires Decide(s, th, a).Some? && i < |s.slots|
    requires var e := Decide(s, th, a).value.effect; e.Deliver? && e.fd == i
    requires -0x8000 <= s.slots[i].rcvevent < 0x8000 && s.slots[i].selectWaiting > 0
    requires !Ready(s.slots[i], kind)
    requires Ready(Posted(s.slots[i], Decide(s, th, a).value.effect.event), kind)
    ensures var pc := Decide(s, th, a).value.pc;
      if Silently(s, th, i, kind) then pc.EvDone? else pc.EvWalkStart? && pc.fd == i && Has(pc.flags, kind)
  {
    DeliverIsEvApply(s, th, a);
    BecomesReady(s.slots[i], th.pc.event, kind);
  }

  /** The stores of alloc_socket are made by alloc_socket only. */
  lemma StoreIsStoring(s: State, th: Thread, a: Action)
    requires Decide(s, th, a).Some? && Decide(s, th, a).value.effect.Store?
    ensures var e := Decide(s, th, a).value.effect;
      th.deleting.None? && th.pc == Storing(e.fd, e.writable, e.k) && !Decide(s, th, a).value.pc.EvWalkStart?
  {
    if th.deleting.None? {
      match th.pc
      case Running =>
      case Checking(_) =>
      case Allocating(_, _, _) =>
      case Storing(_, _, _) =>
      case _ =>
        if EventStep(s, th.pc).None? { SelectTouchesNoEvent(s, th, a); }
    }
  }

  lemma SelectTouchesNoEvent(s: State, th: Thread, a: Action)
    requires SelectStep(s, th, a).Some?
    ensures var e := SelectStep(s, th, a).value.effect; !e.Deliver? && !e.Take? && !e.Store?
  {
    match th.pc
    case SelMark(_, _, _) =>
    case SelScan(_, _, _, _) =>
    case SelCount(_, _) =>
    case SelUncount(_, _, _, _) =>
    case SelRelease(_, _, _, _) =>
    case _ =>
  }

  lemma ReliesMeansCounted(s: State, w: Tid, i: nat, kind: Kind)
    requires RefInv(s) && w < |s.threads| && i < |s.slots| && Relies(s.threads[w], i, kind)
    ensures Linked(s.threads[w].pc) && InSet(s.threads[w].pc.sel, kind, i) && Waiting(s.threads, i) > 0
  {
    var th := s.threads[w];
    WaitingUpdate(s.threads, w, th, i);
    assert ThreadOk(th) && Sound(th.pc);
  }

  /** The waiter `w` is not the thread that steps. */
  lemma OthersStep(s: State, t: Tid, a: Action, s': State, w: Tid, i: nat, kind: Kind)
    requires i < |s.slots| && RefInv(s) && WaitInv(s) && ListInv(s) && WakeInv(s, i, kind) && Next(s, t, a, s')
    requires !Silently(s, s.threads[t], i, kind)
    requires w < |s.threads| && w != t
    requires Relies(s'.threads[w], i, kind) && Ready(s'.slots[i], kind)
    ensures Covered(s', w, i, kind)
  {
    assert Decide(s, s.threads[t], a).value.effect != Signal(w) && Relies(s.threads[w], i, kind);
    ReliesMeansCounted(s, w, i, kind);
    if Ready(s.slots[i], kind) {
      assert WokenAt(s, w, i, kind);
      StillCovered(s, t, a, s', w, i, kind);
    } else {
      NewlyReady(s, t, a, s', i, kind);
      assert WillVisit(s', s'.threads[t].pc, w, i, kind);
    }
  }

  /** It was ready before: the walk bound for the waiter goes on. */
  lemma StillCovered(s: State, t: Tid, a: Action, s': State, w: Tid, i: nat, kind: Kind)
    requires ListInv(s) && Next(s, t, a, s') && w < |s.threads| && w != t
    requires Covered(s, w, i, kind) && Decide(s, s.threads[t], a).value.effect != Signal(w)
    requires !s.threads[w].signalled && Linked(s.threads[w].pc) && InSet(s.threads[w].pc.sel, kind, i)
    ensures Covered(s', w, i, kind)
  {
    var th := s.threads[t];
    var e :| 0 <= e < |s.threads| && WillVisit(s, s.threads[e].pc, w, i, kind);
    if e == t {
      ThreadsAfterAt(s, t, Decide(s, th, a).value, t);
      assert WalkOk(s, th.pc);
      if th.deleting.None? {
        VisitsInOrder(s, th.pc, w, i, kind);
      }
    } else {
      StaysBound(s, t, a, s', e, w, i, kind);
    }
    assert WillVisit(s', s'.threads[e].pc, w, i, kind);
  }

  /** A descriptor that select calls are counted in on has just become ready: the step starts
      a walk that carries this readiness, if and only if it is not a silent one. */
  lemma NewlyReady(s: State, t: Tid, a: Action, s': State, i: nat, kind: Kind)
    requires RefInv(s) && WaitInv(s) && Next(s, t, a, s')
    requires i < |s.slots| && s.slots[i].selectWaiting > 0
    requires !Ready(s.slots[i], kind) && Ready(s'.slots[i], kind)
    ensures var pc := s'.threads[t].pc;
      !Silently(s, s.threads[t], i, kind) <==> pc.EvWalkStart? && pc.fd == i && Has(pc.flags, kind)
  {
    var th := s.threads[t];
    var m := Decide(s, th, a).value;
    ThreadsAfterAt(s, t, m, t);
    if Touches(m.effect) == Some(i) { SlotEvents(s.slots[i], m.effect, i); }
    if m.effect.Store? {
      StoreIsStoring(s, th, a);
    } else {
      EventStartsWalk(s, th, a, i, kind);
    }
  }

  /** The waiter steps itself: it can only have seen one more descriptor not ready. */
  lemma WaiterSteps(s: State, t: Tid, a: Action, s': State, i: nat, kind: Kind)
    requires i < |s.slots| && RefInv(s) && ListInv(s) && WakeInv(s, i, kind) && Next(s, t, a, s')
    requires Relies(s'.threads[t], i, kind) && Ready(s'.slots[i], kind)
    ensures Covered(s', t, i, kind)
  {
    var th := s.threads[t];
    var m := Decide(s, th, a).value;
    ThreadsAfterAt(s, t, m, t);
    assert Sound(th.pc) by { assert ThreadOk(th); }
    OwnStep(s, th, a, i, kind);
    if Touches(m.effect) == Some(i) { SlotEvents(s.slots[i], m.effect, i); }
    assert WokenAt(s, t, i, kind);
    var e :| 0 <= e < |s.threads| && WillVisit(s, s.threads[e].pc, t, i, kind);
    StaysBound(s, t, a, s', e, t, i, kind);
  }

  lemma WakeStep(s: State, t: Tid, a: Action, s': State, i: nat, kind: Kind)
    requires i < |s.slots| && RefInv(s) && WaitInv(s) && ListInv(s) && WakeInv(s, i, kind) && Next(s, t, a, s')
    requires !Silently(s, s.threads[t], i, kind)
    ensures WakeInv(s', i, kind)
  {
    forall w | 0 <= w < |s'.threads| ensures WokenAt(s', w, i, kind) {
      if Relies(s'.threads[w], i, kind) && Ready(s'.slots[i], kind) {
        if w == t { WaiterSteps(s, t, a, s', i, kind); } else { OthersStep(s, t, a, s', w, i, kind); }
      }
    }
  }

  // ---- Runs

  lemma {:induction false} NobodyWaits(ts: seq<Thread>, i: nat)
    requires forall t :: 0 <= t < |ts| ==> ts[t].pc == Running
    ensures Waiting(ts, i) == 0
  {
    if ts != [] {
      NobodyWaits(ts[1..], i);
    }
  }

  lemma InitSelect(s: State)
    requires Init(s)
    ensures WaitInv(s) && ListInv(s) && forall i: nat, kind :: i < |s.slots| ==> WakeInv(s, i, kind)
  {
    forall i: nat ensures Waiting(s.threads, i) == 0 { NobodyWaits(s.threads, i); }
  }

  lemma {:induction false} ReachableSelect(schedule: seq<Scheduled>, s: State)
    requires Reaches(schedule, s)
    ensures RefInv(s) && WaitInv(s) && ListInv(s)
    decreases |schedule|
  {
    ReachableInv(schedule, s);
    if schedule == [] {
      InitSelect(s);
    } else {
      var init, last := schedule[..|schedule| - 1], schedule[|schedule| - 1];
      var p :| LastStep(schedule, p, s);
      ReachableSelect(init, p);
      WaitInvStep(p, last.thread, last.action, s);
      ListStep(p, last.thread, last.action, s);
    }
  }

  /** The steps that do not make descriptor `i` ready silently. */
  function Aloud(i: nat, kind: Kind): (State, Thread) -> bool {
    (s, th) => !Silently(s, th, i, kind)
  }

  lemma {:induction false} ReachableWake(schedule: seq<Scheduled>, s: State, i: nat, kind: Kind)
    requires ReachesBy(Aloud(i, kind), schedule, s) && i < |s.slots|
    ensures WakeInv(s, i, kind)
    decreases |schedule|
  {
    if schedule == [] {
      InitSelect(s);
    } else {
      var init, last := schedule[..|schedule| - 1], schedule[|schedule| - 1];
      var p :| LastStepBy(Aloud(i, kind), schedule, p, s);
      ReachableWake(init, p, i, kind);
      ReachableSelect(init, p);
      WakeStep(p, last.thread, last.action, s, i, kind);
    }
  }

  // ---- The promises, for every interleaving

  /** A thread is blocked in select, not signalled, and a descriptor in one of its sets is
      ready. */
  predicate Oversleeps(s: State, w: Tid, i: nat, kind: Kind) {
    && w < |s.threads| && i < |s.slots| && Ready(s.slots[i], kind)
    && s.threads[w].pc.SelWait? && !s.threads[w].signalled
    && InSet(s.threads[w].pc.sel, kind, i) && i < s.threads[w].pc.sel.max
  }

  /** Some other thread is still inside event_callback for that descriptor, with that event
      in its flags, and its walk of the waiter list has not yet passed the waiter. */
  ghost predicate WillBeWoken(s: State, w: Tid, i: nat, kind: Kind) {
    exists e :: 0 <= e < |s.threads| && e != w && WillVisit(s, s.threads[e].pc, w, i, kind)
  }

  /** No lost wake-up, provided the descriptor has not become ready silently. When it can, if
      the calls that the steps make up are known, is the subject of SocketWakeups. */
  lemma NoLostWakeup(schedule: seq<Scheduled>, s: State, w: Tid, i: nat, kind: Kind)
    requires ReachesBy(Aloud(i, kind), schedule, s) && Oversleeps(s, w, i, kind)
    ensures WillBeWoken(s, w, i, kind)
  {
    ReachableWake(schedule, s, i, kind);
    assert WokenAt(s, w, i, kind) && Relies(s.threads[w], i, kind);
    var e :| 0 <= e < |s.threads| && WillVisit(s, s.threads[e].pc, w, i, kind);
  }

  /** Nothing becomes ready for errors silently, so there the guarantee is unconditional. */
  lemma {:induction false} ErrorsAreAloud(schedule: seq<Scheduled>, s: State, i: nat)
    requires Reaches(schedule, s)
    ensures ReachesBy(Aloud(i, Except), schedule, s)
    decreases |schedule|
  {
    if schedule != [] {
      var p :| LastStep(schedule, p, s);
      ErrorsAreAloud(schedule[..|schedule| - 1], p, i);
      assert LastStepBy(Aloud(i, Except), schedule, p, s);
    }
  }

  /** Such a walk does reach the waiter: each of its steps either signals the waiter or
      keeps it ahead, and once under way without a change to the list it gets closer. */
  lemma WalkApproaches(schedule: seq<Scheduled>, s: State, e: Tid, w: Tid, i: nat, kind: Kind, a: Action, s': State)
    requires Reaches(schedule, s) && w < |s.threads| && e < |s.threads|
    requires !s.threads[w].signalled && Linked(s.threads[w].pc) && InSet(s.threads[w].pc.sel, kind, i)
    requires WillVisit(s, s.threads[e].pc, w, i, kind) && s.threads[e].deleting.None? && Next(s, e, a, s')
    ensures s'.threads[w].signalled || (WillVisit(s', s'.threads[e].pc, w, i, kind) && s'.waiters == s.waiters)
    ensures var pc, pc' := s.threads[e].pc, s'.threads[e].pc;
      !s'.threads[w].signalled && pc.EvWalk? && pc.last == s.ctr ==>
        IndexOf(s.waiters, pc'.at) == IndexOf(s.waiters, pc.at) + 1
  {
    ReachableSelect(schedule, s);
    var pc := s.threads[e].pc;
    assert WalkOk(s, pc);
    VisitsInOrder(s, pc, w, i, kind);
    var m := EventStep(s, pc).value;
    assert Decide(s, s.threads[e], a) == Some(m);
    ThreadsAfterAt(s, e, m, e);
    if m.effect != Signal(w) && pc.EvWalk? && pc.last == s.ctr {
      StepsToNext(s, pc);
    }
  }

  /** An undisturbed walk steps to the next node of the list. */
  lemma StepsToNext(s: State, pc: Pc)
    requires ListInv(s) && pc.EvWalk? && pc.last == s.ctr && WalkOk(s, pc)
    requires EventStep(s, pc).Some? && EventStep(s, pc).value.pc.EvWalk?
    ensures IndexOf(s.waiters, EventStep(s, pc).value.pc.at) == IndexOf(s.waiters, pc.at) + 1
  {
  }

  /** A signalled waiter that has not consumed its wake-up finds its token, and goes on. */
  lemma SignalledHasToken(schedule: seq<Scheduled>, s: State, w: Tid)
    requires Reaches(schedule, s) && w < |s.threads| && s.threads[w].pc.SelWait?
    ensures s.threads[w].signalled == s.threads[w].token
    ensures s.threads[w].signalled && s.threads[w].deleting.None? ==>
      Decide(s, s.threads[w], Go).Some? && Decide(s, s.threads[w], Go).value.effect == Consume
  {
    ReachableSelect(schedule, s);
    var th := s.threads[w];
    assert TokenOk(th);
    if th.token && th.deleting.None? {
      assert EventStep(s, th.pc).None?;
    }
  }

  /** select_waiting is the number of select calls counted in, and never overflows. */
  lemma SelectWaitingIsExact(schedule: seq<Scheduled>, s: State, i: nat)
    requires Reaches(schedule, s) && i < |s.slots|
    ensures s.slots[i].selectWaiting == Waiting(s.threads, i) <= U8_MAX
  {
    ReachableSelect(schedule, s);
  }

  /** lwip_select is balanced on every exit path: the step that leaves it leaves the thread
      with exactly the holds it came with, counted in nowhere, with out-sets inside its
      in-sets and a non-negative result equal to their total size. */
  lemma SelectIsBalanced(schedule: seq<Scheduled>, s: State, t: Tid, a: Action, s': State)
    requires Reaches(schedule, s) && Next(s, t, a, s')
    requires InSelect(s.threads[t].pc) && !InSelect(s'.threads[t].pc)
    ensures s.threads[t].pc.SelRelease? && s'.threads[t].pc == Running
    ensures s'.threads[t].holds == s.threads[t].pc.sel.entry
    ensures forall i: nat :: !Counts(s.threads[t].pc, i) && t !in s'.waiters
    ensures s.threads[t].pc.ret == -1 || (
      var c, f := s.threads[t].pc.sel, s.threads[t].pc.found;
      && s.threads[t].pc.ret == |f.readset| + |f.writeset| + |f.exceptset|
      && f.readset <= c.readset && f.writeset <= c.writeset && f.exceptset <= c.exceptset)
  {
    ReachableSelect(schedule, s);
    var th := s.threads[t];
    ThreadsAfterAt(s, t, Decide(s, th, a).value, t);
    assert ThreadOk(th);
    SelectReturns(s, th, a);
    assert t !in s.waiters;
  }

  /** Before its second store, alloc_socket asserts that nobody waits in select on the slot
      it has taken. Exactly the calls that count themselves in on it break that. */
  lemma AllocAssertion(schedule: seq<Scheduled>, s: State, t: Tid, i: nat)
    requires Reaches(schedule, s) && t < |s.threads| && i < |s.slots|
    requires s.threads[t].pc.Storing? && s.threads[t].pc.fd == i && s.threads[t].pc.k == 1
    ensures s.slots[i].selectWaiting == 0 <==> forall u :: 0 <= u < |s.threads| ==> !Counts(s.threads[u].pc, i)
  {
    ReachableSelect(schedule, s);
    NoneCounted(s.threads, i);
  }

  /** A call that is counted in on an available slot holds no mark on it. */
  lemma UnmarkedOnAvailable(s: State, t: Tid, i: nat)
    requires RefInv(s) && t < |s.threads| && i < |s.slots| && Available(s.slots[i])
    ensures i !in UsedOf(s.threads[t].pc)
  {
    HoldersUpdate(s.threads, t, s.threads[t], i);
    assert ThreadOk(s.threads[t]) && Unchecked(s.threads[t].pc, i) <= s.threads[t].holds[i];
  }

  lemma {:induction false} NoneCounted(ts: seq<Thread>, i: nat)
    ensures Waiting(ts, i) == 0 <==> forall t :: 0 <= t < |ts| ==> !Counts(ts[t].pc, i)
  {
    if ts != [] {
      NoneCounted(ts[1..], i);
      assert forall t :: 1 <= t < |ts| ==> ts[t] == ts[1..][t - 1];
    }
  }

  // ---- When the assertion of alloc_socket holds

  /** The descriptors a select call has marked. */
  function UsedOf(pc: Pc): set<nat> {
    if InSelect(pc) then pc.sel.used else {}
  }

  /** The step marks descriptor `i`, or tries to. */
  predicate Marking(th: Thread, i: nat) {
    && th.deleting.None? && th.pc.SelMark? && th.pc.k == i && i < th.pc.sel.max
    && InSet(th.pc.sel, th.pc.pass, i) && i !in th.pc.sel.used
  }

  /** The step refuses a select call its mark on descriptor `i`: a release is pending. */
  predicate Refuses(s: State, th: Thread, i: nat) {
    Marking(th, i) && (i >= |s.slots| || s.slots[i].pending.Pending?)
  }

  /** alloc_socket has taken descriptor `i` and has not made all its stores yet. */
  predicate SettingUp(s: State, i: nat) {
    exists u :: 0 <= u < |s.threads| && StoresTo(s.threads[u].pc, i)
  }

  predicate StoresTo(pc: Pc, i: nat) {
    pc.Storing? && pc.fd == i
  }

  /** The steps that are not a select call trying to mark `i` while it is being closed, or
      marking it while alloc_socket is setting it up. */
  function Marks(i: nat): (State, Thread) -> bool {
    (s, th) => !Refuses(s, th, i) && !(Marking(th, i) && SettingUp(s, i))
  }

  /** A select call past its marking pass holds a mark on `i` if it asks for it. */
  predicate MarkedAt(pc: Pc, i: nat) {
    match pc
    case SelMark(c, pass, k) => i < c.max && Passed(c, pass, k, i) ==> i in c.used
    case SelScan(c, phase, _, _) => phase != After && i < c.max && Interest(c, i) ==> i in c.used
    case SelScanDone(c, phase, _, _) => phase != After && i < c.max && Interest(c, i) ==> i in c.used
    case SelLink(c) => i < c.max && Interest(c, i) ==> i in c.used
    case SelCount(c, _) => i < c.max && Interest(c, i) ==> i in c.used
    case SelCountDone(c, _, _) => i < c.max && Interest(c, i) ==> i in c.used
    case SelWait(c, _) => i < c.max && Interest(c, i) ==> i in c.used
    case SelUncount(c, _, _, _) => i < c.max && Interest(c, i) ==> i in c.used
    case _ => true
  }

  /** The marking passes have come to descriptor `i`. */
  predicate Passed(c: Sel, pass: Kind, k: nat, i: nat) {
    match pass
    case Read => i < k && i in c.readset
    case Write => i in c.readset || (i < k && i in c.writeset)
    case Except => i in c.readset || i in c.writeset || (i < k && i in c.exceptset)
  }

  lemma SelectStepMarks(s: State, th: Thread, a: Action, i: nat)
    requires SelectStep(s, th, a).Some? && MarkedAt(th.pc, i) && th.deleting.None? && !Refuses(s, th, i)
    ensures MarkedAt(SelectStep(s, th, a).value.pc, i)
  {
    match th.pc
    case SelMark(c, pass, k) =>
    case SelScan(_, _, _, _) =>
    case SelCount(_, _) =>
    case SelUncount(_, _, _, _) =>
    case SelRelease(_, _, _, _) =>
    case _ =>
  }

  lemma StepMarks(s: State, th: Thread, a: Action, i: nat)
    requires Decide(s, th, a).Some? && MarkedAt(th.pc, i) && !Refuses(s, th, i)
    ensures MarkedAt(Decide(s, th, a).value.pc, i)
  {
    if th.deleting.None? {
      match th.pc
      case Running =>
      case Checking(_) =>
      case Allocating(_, _, _) =>
      case Storing(_, _, _) =>
      case _ =>
        if EventStep(s, th.pc).None? { SelectStepMarks(s, th, a, i); }
    }
  }

  lemma SelectStepUses(s: State, th: Thread, a: Action, i: nat)
    requires SelectStep(s, th, a).Some? && th.deleting.None? && !Marking(th, i) && i !in UsedOf(th.pc)
    ensures i !in UsedOf(SelectStep(s, th, a).value.pc)
  {
    match th.pc
    case SelMark(c, pass, k) =>
    case SelScan(_, _, _, _) =>
    case SelCount(_, _) =>
    case SelUncount(_, _, _, _) =>
    case SelRelease(_, _, _, _) =>
    case _ =>
  }

  /** Marks are made by the marking passes only, and slots set up by alloc_socket. */
  lemma StepUses(s: State, th: Thread, a: Action, i: nat)
    requires Decide(s, th, a).Some?
    ensures var m := Decide(s, th, a).value;
      && (i !in UsedOf(th.pc) && !Marking(th, i) ==> i !in UsedOf(m.pc))
      && (!StoresTo(th.pc, i) && StoresTo(m.pc, i) ==> i < |s.slots| && Available(s.slots[i]) && UsedOf(m.pc) == {})
  {
    if th.deleting.None? {
      match th.pc
      case Running =>
      case Checking(_) =>
      case Allocating(_, _, _) =>
      case Storing(_, _, _) =>
      case _ =>
        if EventStep(s, th.pc).None? {
          if i !in UsedOf(th.pc) && !Marking(th, i) { SelectStepUses(s, th, a, i); }
          NeverStores(s, th, a);
        }
    }
  }

  lemma NeverStores(s: State, th: Thread, a: Action)
    requires SelectStep(s, th, a).Some?
    ensures !SelectStep(s, th, a).value.pc.Storing?
  {
    match th.pc
    case SelMark(_, _, _) =>
    case SelScan(_, _, _, _) =>
    case SelCount(_, _) =>
    case SelUncount(_, _, _, _) =>
    case SelRelease(_, _, _, _) =>
    case _ =>
  }

  /** Nobody has marked a slot that alloc_socket is setting up. */
  ghost predicate Undisturbed(s: State, i: nat) {
    SettingUp(s, i) ==> forall t :: 0 <= t < |s.threads| ==> i !in UsedOf(s.threads[t].pc)
  }

  lemma UndisturbedStep(s: State, t: Tid, a: Action, s': State, i: nat)
    requires RefInv(s) && Undisturbed(s, i) && Next(s, t, a, s') && Marks(i)(s, s.threads[t])
    ensures Undisturbed(s', i)
  {
    var m := Decide(s, s.threads[t], a).value;
    StepUses(s, s.threads[t], a, i);
    if SettingUp(s', i) {
      var u :| 0 <= u < |s'.threads| && StoresTo(s'.threads[u].pc, i);
      ThreadsAfterAt(s, t, m, u);
      ThreadsAfterAt(s, t, m, t);
      assert SettingUp(s, i) || (u == t && Available(s.slots[i])) by {
        assert u != t ==> StoresTo(s.threads[u].pc, i);
        assert u == t && StoresTo(s.threads[t].pc, i) ==> SettingUp(s, i);
      }
      forall v | 0 <= v < |s'.threads| ensures i !in UsedOf(s'.threads[v].pc) {
        ThreadsAfterAt(s, t, m, v);
        if !SettingUp(s, i) { UnmarkedOnAvailable(s, v, i); }
      }
    }
  }

  lemma {:induction false} ReachableMarks(schedule: seq<Scheduled>, s: State, i: nat)
    requires ReachesBy(Marks(i), schedule, s)
    ensures forall t :: 0 <= t < |s.threads| ==> MarkedAt(s.threads[t].pc, i)
    ensures Undisturbed(s, i)
    decreases |schedule|
  {
    if schedule != [] {
      var init, last := schedule[..|schedule| - 1], schedule[|schedule| - 1];
      var p :| LastStepBy(Marks(i), schedule, p, s);
      ReachableMarks(init, p, i);
      ReachableInv(init, p);
      var t, a := last.thread, last.action;
      UndisturbedStep(p, t, a, s, i);
      StepMarks(p, p.threads[t], a, i);
      forall u | 0 <= u < |s.threads| ensures MarkedAt(s.threads[u].pc, i) {
        ThreadsAfterAt(p, t, Decide(p, p.threads[t], a).value, u);
      }
    }
  }

  /** alloc_socket's assertion holds on a slot in every run in which no select call has tried
      to mark it while it was being closed, or has marked it while it was being set up. */
  lemma AllocAssertionHolds(schedule: seq<Scheduled>, s: State, t: Tid, i: nat)
    requires ReachesBy(Marks(i), schedule, s) && t < |s.threads| && i < |s.slots|
    requires s.threads[t].pc.Storing? && s.threads[t].pc.fd == i && s.threads[t].pc.k == 1
    ensures s.slots[i].selectWaiting == 0
  {
    ReachableMarks(schedule, s, i);
    AllocAssertion(schedule, s, t, i);
    ReachableInv(schedule, s);
    assert SettingUp(s, i) by { assert StoresTo(s.threads[t].pc, i); }
    forall u | 0 <= u < |s.threads| ensures !Counts(s.threads[u].pc, i) {
      assert Sound(s.threads[u].pc) by { assert ThreadOk(s.threads[u]); }
      assert MarkedAt(s.threads[u].pc, i) && i !in UsedOf(s.threads[u].pc);
    }
  }
}
