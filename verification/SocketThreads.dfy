/** The threads that share the descriptor table of lwip_client/ta/sockets.c, interleaved
    at the granularity of SYS_ARCH_PROTECT sections (LWIP_NETCONN_FULLDUPLEX = 1,
    LWIP_TCPIP_CORE_LOCKING = 0).

    Any number of threads run any mix of: getting and releasing descriptors, closing them
    (twice, concurrently, if they like), allocating new ones, posting events, and select.
    A step is one section, or one piece of work on thread-local data; where the code reads
    or writes shared data outside a section (sock->conn after a get, the stores at the end of
    alloc_socket), that is a step too. What calls these steps make up, and which events the
    TCP/IP thread raises when, is in SocketCalls. */
module SocketThreads {
  import opened Common
  import opened SocketTable

  datatype Kind = Read | Write | Except

  /** The three booleans event_callback passes to select_check_waiters. */
  datatype Flags = Flags(recv: bool, send: bool, err: bool)

  datatype Timeout = Zero | Timed | Forever

  /** The arguments of one lwip_select call, its used_sockets set, and (for the balance
      theorem only) the holds its thread had on entry. */
  datatype Sel = Sel(readset: set<nat>, writeset: set<nat>, exceptset: set<nat>, max: nat,
                     timeout: Timeout, used: set<nat>, entry: multiset<nat>)

  /** The sets a scan has found ready so far, and the counter it returns. */
  datatype Found = Found(readset: set<nat>, writeset: set<nat>, exceptset: set<nat>, nready: int)

  datatype Phase = Before | Rescan | After

  /** How the waiting part of select ended. */
  datatype Outcome = Failed | TimedOut(found: Found) | Proceed

  datatype Pc =
    | Running
    | Checking(fd: nat)
    // alloc_socket: looking for a slot, and the stores after its protected section
    | Allocating(k: nat, conn: ConnId, writable: bool)
    | Storing(fd: nat, writable: bool, k: nat)
    // event_callback and select_check_waiters
    | EvGet(fd: nat, event: Event)
    | EvCheck(fd: nat, event: Event)
    | EvApply(fd: nat, event: Event)
    | EvWalkStart(fd: nat, flags: Flags)
    | EvWalk(fd: nat, flags: Flags, last: nat, at: Tid)
    | EvDone(fd: nat)
    // lwip_select
    | SelMark(sel: Sel, pass: Kind, k: nat)
    | SelScan(sel: Sel, phase: Phase, k: nat, found: Found)
    | SelScanDone(sel: Sel, phase: Phase, k: nat, found: Found)
    | SelLink(sel: Sel)
    | SelCount(sel: Sel, k: nat)
    | SelCountDone(sel: Sel, k: nat, overflow: bool)
    | SelWait(sel: Sel, found: Found)
    | SelUncount(sel: Sel, k: nat, max2: nat, outcome: Outcome)
    | SelUnlink(sel: Sel, outcome: Outcome)
    | SelRelease(sel: Sel, k: nat, ret: int, found: Found)

  /** `holds` is the multiset of descriptors the thread has yet to release; `deleting` a
      netconn it has taken out of the table and must still pass to netconn_delete;
      `signalled` and `token` belong to its select_cb. */
  datatype Thread = Thread(holds: multiset<nat>, deleting: Option<ConnId>, pc: Pc, signalled: bool, token: bool)

  /** `waiters` is select_cb_list from its head on (a select_cb is named by the thread whose
      stack it is on), `ctr` is select_cb_ctr, `deleted` logs the calls of netconn_delete,
      and `born` the netconns ever handed to alloc_socket. */
  datatype State = State(slots: seq<Slot>, threads: seq<Thread>, waiters: seq<Tid>, ctr: nat,
                         deleted: seq<ConnId>, born: set<ConnId>)

  predicate InSet(c: Sel, kind: Kind, i: nat) {
    match kind
    case Read => i in c.readset
    case Write => i in c.writeset
    case Except => i in c.exceptset
  }

  predicate Interest(c: Sel, i: nat) {
    i in c.readset || i in c.writeset || i in c.exceptset
  }

  /** Ready by an event: what event_callback records for a kind of interest. */
  predicate Ready(s: Slot, kind: Kind) {
    match kind
    case Read => s.rcvevent > 0
    case Write => s.sendevent
    case Except => s.errevent
  }

  predicate Has(f: Flags, kind: Kind) {
    match kind
    case Read => f.recv
    case Write => f.send
    case Except => f.err
  }

  /** What one scan of descriptor `i` adds to the found sets. */
  function Scanned(c: Sel, s: Slot, i: nat, f: Found): Found {
    var r := i in c.readset && (s.lastdata || s.rcvevent > 0);
    var w := i in c.writeset && s.sendevent;
    var e := i in c.exceptset && s.errevent;
    Found(if r then f.readset + {i} else f.readset,
          if w then f.writeset + {i} else f.writeset,
          if e then f.exceptset + {i} else f.exceptset,
          f.nready + (if r then 1 else 0) + (if w then 1 else 0) + (if e then 1 else 0))
  }

  const NOTHING_FOUND := Found({}, {}, {}, 0)

  /** The environment's part of a step: what a running thread does next, and how a call
      whose result is not determined here turns out. */
  datatype Action =
    | Go
    | Get(fd: nat)
    | Done(fd: nat)
    | FreeSocket(fd: nat, isTcp: bool)
    | Alloc(conn: ConnId, writable: bool)
    | Stash(fd: nat, present: bool)
    | Post(fd: nat, event: Event)
    | Select(readset: set<nat>, writeset: set<nat>, exceptset: set<nat>, max: nat, timeout: Timeout)
    | Fail

  /** The effect of a step on shared state. */
  datatype Effect =
    | Quiet
    | Hold(fd: nat)
    | Drop(fd: nat)
    | Free(fd: nat, isTcp: bool)
    | Take(fd: nat, conn: ConnId)
    | Store(fd: nat, writable: bool, k: nat)
    | Deliver(fd: nat, event: Event)
    | Lastdata(fd: nat, present: bool)
    | CountUp(fd: nat)
    | CountDown(fd: nat)
    | Link
    | Unlink
    | Signal(waiter: Tid)
    | Consume
    | Birth(conn: ConnId)
    | Discard(conn: ConnId)
    | Delete

  datatype Move = Move(effect: Effect, pc: Pc)

  predicate Holdable(s: State, i: nat) {
    i < |s.slots| && s.slots[i].pending.NotPending? && s.slots[i].fdUsed < U8_MAX
  }

  /** tryget under the lock succeeds, or is refused because a release is pending. A use
      count that would overflow stops the system at an assertion: no step. */
  function TryHold(s: State, i: nat, granted: Pc, refused: Pc): Option<Move> {
    if i >= |s.slots| || s.slots[i].pending.Pending? then Some(Move(Quiet, refused))
    else if s.slots[i].fdUsed < U8_MAX then Some(Move(Hold(i), granted))
    else None
  }

  /** What a thread at `Running` may start. */
  function Start(s: State, th: Thread, a: Action): Option<Move> {
    match a
    case Get(i) => TryHold(s, i, Checking(i), Running)
    case Done(i) => if i in th.holds then Some(Move(Drop(i), Running)) else None
    case FreeSocket(i, isTcp) => if i in th.holds then Some(Move(Free(i, isTcp), Running)) else None
    case Alloc(conn, writable) =>
      if conn in s.born then None else Some(Move(Birth(conn), Allocating(0, conn, writable)))
    case Stash(i, present) => if i in th.holds then Some(Move(Lastdata(i, present), Running)) else None
    case Post(i, e) => Some(Move(Quiet, EvGet(i, e)))
    case Select(r, w, e, max, timeout) => Some(Move(Quiet, SelMark(Sel(r, w, e, max, timeout, {}, th.holds), Read, 0)))
    case _ => None
  }

  /** select_check_waiters at a node of the list: signal its owner if it waits for this. */
  function Visit(s: State, i: nat, f: Flags, w: Tid): Effect {
    if w >= |s.threads| || s.threads[w].signalled then Quiet
    else if Wanted(s.threads[w].pc, i, f) then Signal(w) else Quiet
  }

  /** The select_cb of a linked thread asks for one of the active events of descriptor `i`. */
  predicate Wanted(pc: Pc, i: nat, f: Flags) {
    Linked(pc) && (
      || (f.recv && i in pc.sel.readset)
      || (f.send && i in pc.sel.writeset)
      || (f.err && i in pc.sel.exceptset))
  }

  /** Between link and unlink of the select_cb. */
  predicate Linked(pc: Pc) {
    match pc
    case SelCount(_, _) => true
    case SelCountDone(_, _, _) => true
    case SelScan(_, phase, _, _) => phase == Rescan
    case SelScanDone(_, phase, _, _) => phase == Rescan
    case SelWait(_, _) => true
    case SelUncount(_, _, _, _) => true
    case SelUnlink(_, _) => true
    case _ => false
  }

  function WalkFromHead(s: State, i: nat, f: Flags): Move {
    if s.waiters == [] then Move(Quiet, EvDone(i))
    else Move(Visit(s, i, f, s.waiters[0]), EvWalk(i, f, s.ctr, s.waiters[0]))
  }

  function IndexOf(list: seq<Tid>, w: Tid): (k: nat)
    ensures k <= |list| && (k < |list| ==> list[k] == w) && (k == |list| ==> w !in list)
    ensures forall j :: 0 <= j < k ==> list[j] != w
  {
    if list == [] || list[0] == w then 0 else 1 + IndexOf(list[1..], w)
  }

  function WalkOn(s: State, i: nat, f: Flags, last: nat, at: Tid): Move {
    if last != s.ctr then WalkFromHead(s, i, f)
    else
      var k := IndexOf(s.waiters, at) + 1;
      if k >= |s.waiters| then Move(Quiet, EvDone(i))
      else Move(Visit(s, i, f, s.waiters[k]), EvWalk(i, f, s.ctr, s.waiters[k]))
  }

  function ScanFinished(c: Sel, phase: Phase, found: Found, a: Action): Pc {
    match phase
    case Before =>
      if found.nready > 0 || c.timeout == Zero then SelRelease(c, 0, found.nready, found)
      else if a == Fail then SelRelease(c, 0, -1, NOTHING_FOUND)   // no semaphore
      else SelLink(c)
    case Rescan =>
      if found.nready > 0 then SelUncount(c, 0, c.max, Proceed) else SelWait(c, found)
    case After =>
      SelRelease(c, 0, found.nready, found)
  }

  function ScanFailed(c: Sel, phase: Phase): Pc {
    if phase == Rescan then SelUncount(c, 0, c.max, Failed) else SelRelease(c, 0, -1, NOTHING_FOUND)
  }

  function NextPass(c: Sel, pass: Kind): Pc {
    match pass
    case Read => SelMark(c, Write, 0)
    case Write => SelMark(c, Except, 0)
    case Except => SelScan(c, Before, 0, NOTHING_FOUND)
  }

  /** The next step of a thread inside event_callback. */
  function EventStep(s: State, pc: Pc): Option<Move> {
    match pc
    case EvGet(i, e) => TryHold(s, i, EvCheck(i, e), Running)
    case EvCheck(i, e) =>
      if i < |s.slots| && s.slots[i].conn.Some? then Some(Move(Quiet, EvApply(i, e)))
      else Some(Move(Drop(i), Running))
    case EvApply(i, e) =>
      if i >= |s.slots| then None
      else
        var after := Posted(s.slots[i], e);
        var walk := after.selectWaiting > 0 && ChecksWaiters(s.slots[i], e);
        Some(Move(Deliver(i, e),
          if walk then EvWalkStart(i, Flags(after.rcvevent > 0, after.sendevent, after.errevent)) else EvDone(i)))
    case EvWalkStart(i, f) => Some(WalkFromHead(s, i, f))
    case EvWalk(i, f, last, at) => Some(WalkOn(s, i, f, last, at))
    case EvDone(i) => Some(Move(Drop(i), Running))
    case _ => None
  }

  /** lwip_select_inc_sockets_used: one descriptor of one of the three passes. */
  function MarkStep(s: State, c: Sel, pass: Kind, k: nat): Option<Move> {
    if k >= c.max then Some(Move(Quiet, NextPass(c, pass)))
    else if !InSet(c, pass, k) || k in c.used then Some(Move(Quiet, SelMark(c, pass, k + 1)))
    else TryHold(s, k, SelMark(c.(used := c.used + {k}), pass, k + 1), SelMark(c, pass, k + 1))
  }

  /** lwip_selscan: one descriptor, under a hold that the next step drops again. */
  function ScanStep(s: State, c: Sel, phase: Phase, k: nat, found: Found, a: Action): Option<Move> {
    if k >= c.max then Some(Move(Quiet, ScanFinished(c, phase, found, a)))
    else if !Interest(c, k) then Some(Move(Quiet, SelScan(c, phase, k + 1, found)))
    else if k >= |s.slots| then Some(Move(Quiet, ScanFailed(c, phase)))
    else TryHold(s, k, SelScanDone(c, phase, k, Scanned(c, s.slots[k], k, found)), ScanFailed(c, phase))
  }

  /** The loop that raises select_waiting; an overflow is undone and gives up. */
  function CountStep(s: State, c: Sel, k: nat): Option<Move> {
    if k >= c.max then Some(Move(Quiet, SelScan(c, Rescan, 0, NOTHING_FOUND)))
    else if !Interest(c, k) then Some(Move(Quiet, SelCount(c, k + 1)))
    else if k >= |s.slots| || s.slots[k].pending.Pending? then Some(Move(Quiet, SelUncount(c, 0, k, Failed)))
    else if s.slots[k].fdUsed >= U8_MAX then None
    else if s.slots[k].selectWaiting >= U8_MAX then Some(Move(Hold(k), SelCountDone(c, k, true)))
    else Some(Move(CountUp(k), SelCountDone(c, k, false)))
  }

  /** sys_arch_sem_wait on the select_cb's semaphore. */
  function WaitStep(th: Thread, c: Sel, found: Found, a: Action): Option<Move> {
    if a == Fail then
      if c.timeout == Timed then Some(Move(Quiet, SelUncount(c, 0, c.max, TimedOut(found)))) else None
    else if th.token then Some(Move(Consume, SelUncount(c, 0, c.max, Proceed)))
    else None
  }

  function UncountStep(c: Sel, k: nat, max2: nat, outcome: Outcome): Move {
    if k >= max2 then Move(Quiet, SelUnlink(c, outcome))
    else Move(if Interest(c, k) then CountDown(k) else Quiet, SelUncount(c, k + 1, max2, outcome))
  }

  function AfterUnlink(c: Sel, outcome: Outcome): Pc {
    match outcome
    case Failed => SelRelease(c, 0, -1, NOTHING_FOUND)
    case TimedOut(found) => SelRelease(c, 0, found.nready, found)
    case Proceed => SelScan(c, After, 0, NOTHING_FOUND)
  }

  /** lwip_select_dec_sockets_used: one descriptor. */
  function ReleaseStep(c: Sel, k: nat, ret: int, found: Found): Move {
    if k >= c.max then Move(Quiet, Running)
    else if k in c.used then Move(Drop(k), SelRelease(c.(used := c.used - {k}), k + 1, ret, found))
    else Move(Quiet, SelRelease(c, k + 1, ret, found))
  }

  /** The next step of a thread inside lwip_select. */
  function SelectStep(s: State, th: Thread, a: Action): Option<Move> {
    match th.pc
    case SelMark(c, pass, k) => MarkStep(s, c, pass, k)
    case SelScan(c, phase, k, found) => ScanStep(s, c, phase, k, found, a)
    case SelScanDone(c, phase, k, found) => Some(Move(Drop(k), SelScan(c, phase, k + 1, found)))
    case SelLink(c) => Some(Move(Link, SelCount(c, 0)))
    case SelCount(c, k) => CountStep(s, c, k)
    case SelCountDone(c, k, overflow) =>
      Some(Move(Drop(k), if overflow then SelUncount(c, 0, k, Failed) else SelCount(c, k + 1)))
    case SelWait(c, found) => WaitStep(th, c, found, a)
    case SelUncount(c, k, max2, outcome) => Some(UncountStep(c, k, max2, outcome))
    case SelUnlink(c, outcome) => Some(Move(Unlink, AfterUnlink(c, outcome)))
    case SelRelease(c, k, ret, found) => Some(ReleaseStep(c, k, ret, found))
    case _ => None
  }

  function Decide(s: State, th: Thread, a: Action): Option<Move> {
    if th.deleting.Some? then Some(Move(Delete, th.pc))
    else match th.pc
      case Running => Start(s, th, a)
      case Checking(i) =>
        if i < |s.slots| && s.slots[i].conn.Some? then Some(Move(Quiet, Running)) else Some(Move(Drop(i), Running))
      case Allocating(k, conn, writable) =>
        if k >= |s.slots| then Some(Move(Discard(conn), Running))
        else if Available(s.slots[k]) then Some(Move(Take(k, conn), Storing(k, writable, 0)))
        else Some(Move(Quiet, Allocating(k + 1, conn, writable)))
      case Storing(i, writable, k) =>
        Some(Move(Store(i, writable, k), if k < 3 then Storing(i, writable, k + 1) else Running))
      case _ =>
        var ev := EventStep(s, th.pc);
        if ev.Some? then ev else SelectStep(s, th, a)
  }

  /** The slot part, and the netconn that comes out of the table. */
  function OnSlot(s: Slot, e: Effect): (r: (Slot, Option<ConnId>)) {
    match e
    case Hold(_) => (s.(fdUsed := s.fdUsed + 1), None)
    case Drop(_) => if s.fdUsed > 0 then DoneLocked(s) else (s, None)
    case Free(_, isTcp) => if s.fdUsed > 0 then FreeLocked(s, isTcp) else (s, None)
    case Take(_, conn) => (TakenBy(s, conn), None)
    case Store(_, writable, k) => (Stored(s, writable, k), None)
    case Deliver(_, event) => (Posted(s, event), None)
    case Lastdata(_, present) => (s.(lastdata := present), None)
    case CountUp(_) => (s.(fdUsed := s.fdUsed + 1, selectWaiting := s.selectWaiting + 1), None)
    case CountDown(_) => (if s.selectWaiting > 0 then s.(selectWaiting := s.selectWaiting - 1) else s, None)
    case _ => (s, None)
  }

  function Touches(e: Effect): Option<nat> {
    match e
    case Hold(i) => Some(i)
    case Drop(i) => Some(i)
    case Free(i, _) => Some(i)
    case Take(i, _) => Some(i)
    case Store(i, _, _) => Some(i)
    case Deliver(i, _) => Some(i)
    case Lastdata(i, _) => Some(i)
    case CountUp(i) => Some(i)
    case CountDown(i) => Some(i)
    case _ => None
  }

  function HoldsAfter(holds: multiset<nat>, e: Effect): multiset<nat> {
    match e
    case Hold(i) => holds + multiset{i}
    case CountUp(i) => holds + multiset{i}
    case Take(i, _) => holds + multiset{i}
    case Drop(i) => holds - multiset{i}
    case Free(i, _) => holds - multiset{i}
    case _ => holds
  }

  function SlotsAfter(s: State, e: Effect): seq<Slot> {
    var t := Touches(e);
    if t.Some? && t.value < |s.slots| then s.slots[t.value := OnSlot(s.slots[t.value], e).0] else s.slots
  }

  function Released(s: State, e: Effect): Option<ConnId> {
    var t := Touches(e);
    if t.Some? && t.value < |s.slots| then OnSlot(s.slots[t.value], e).1 else None
  }

  /** The stepping thread afterwards. */
  function ThreadAfter(s: State, th: Thread, m: Move): Thread {
    Thread(
      HoldsAfter(th.holds, m.effect),
      match m.effect {
        case Delete => None
        case Discard(conn) => Some(conn)
        case _ => if Released(s, m.effect).Some? then Released(s, m.effect) else th.deleting
      },
      m.pc,
      if m.effect == Link then false else th.signalled,
      if m.effect == Link || m.effect == Consume then false else th.token)
  }

  function ThreadsAfter(s: State, t: Tid, m: Move): seq<Thread>
    requires t < |s.threads|
  {
    var ts := s.threads[t := ThreadAfter(s, s.threads[t], m)];
    if m.effect.Signal? && m.effect.waiter < |ts|
    then ts[m.effect.waiter := ts[m.effect.waiter].(signalled := true, token := true)]
    else ts
  }

  function Without(list: seq<Tid>, t: Tid): seq<Tid> {
    var k := IndexOf(list, t);
    if k < |list| then list[..k] + list[k + 1..] else list
  }

  function Perform(s: State, t: Tid, m: Move): State
    requires t < |s.threads|
  {
    State(
      SlotsAfter(s, m.effect),
      ThreadsAfter(s, t, m),
      match m.effect {
        case Link => [t] + s.waiters
        case Unlink => Without(s.waiters, t)
        case _ => s.waiters
      },
      if m.effect.Link? || m.effect.Unlink? then s.ctr + 1 else s.ctr,
      if m.effect.Delete? && s.threads[t].deleting.Some? then s.deleted + [s.threads[t].deleting.value] else s.deleted,
      if m.effect.Birth? then s.born + {m.effect.conn} else s.born)
  }

  predicate Next(s: State, t: Tid, a: Action, s': State) {
    && t < |s.threads|
    && Decide(s, s.threads[t], a).Some?
    && s' == Perform(s, t, Decide(s, s.threads[t], a).value)
  }

  predicate Init(s: State) {
    && (forall i :: 0 <= i < |s.slots| ==> s.slots[i] == EMPTY_SLOT)
    && (forall t :: 0 <= t < |s.threads| ==> s.threads[t] == Thread(multiset{}, None, Running, false, false))
    && s.waiters == [] && s.deleted == [] && s.born == {}
  }

  datatype Scheduled = Scheduled(thread: Tid, action: Action)

  /** `s` is reached from an initial state by the given schedule. */
  ghost predicate Reaches(schedule: seq<Scheduled>, s: State)
    decreases |schedule|, 1
  {
    if schedule == [] then Init(s) else exists p :: LastStep(schedule, p, s)
  }

  /** The last step of `schedule` leads to `s` from `p`, which the others reach. */
  ghost predicate LastStep(schedule: seq<Scheduled>, p: State, s: State)
    requires schedule != []
    decreases |schedule|, 0
  {
    var last := schedule[|schedule| - 1];
    Reaches(schedule[..|schedule| - 1], p) && Next(p, last.thread, last.action, s)
  }

  /** As Reaches, by a run of which every step satisfies `ok`, a condition on the state it is
      taken in and the thread that takes it. */
  ghost predicate ReachesBy(ok: (State, Thread) -> bool, schedule: seq<Scheduled>, s: State)
    ensures ReachesBy(ok, schedule, s) ==> Reaches(schedule, s)
    decreases |schedule|, 1
  {
    if schedule == [] then Init(s) else exists p :: LastStepBy(ok, schedule, p, s)
  }

  ghost predicate LastStepBy(ok: (State, Thread) -> bool, schedule: seq<Scheduled>, p: State, s: State)
    requires schedule != []
    ensures LastStepBy(ok, schedule, p, s) ==> LastStep(schedule, p, s)
    decreases |schedule|, 0
  {
    var last := schedule[|schedule| - 1];
    && ReachesBy(ok, schedule[..|schedule| - 1], p)
    && Next(p, last.thread, last.action, s) && ok(p, p.threads[last.thread])
  }
}
