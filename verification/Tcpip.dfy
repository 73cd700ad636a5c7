/** Calls into the TCP/IP thread (lwip_client/ta/tcpip.c): any number of threads post API
    messages and wait, or hand over packets and callbacks in pool messages, while one
    thread fetches and handles them. */
module Tcpip {
  import opened Common
  import Mailbox

  // The mailbox is used through what MailboxThreads proves of it, a bounded FIFO. An API
  // message is acknowledged by the function it carries or by a later callback, exactly once:
  // ApiCalls proves that of the functions posted here.

  type Id = nat

  datatype Pc =
    | Idle
    | ApiPost(id: Id)                 // tcpip_send_msg_wait_sem, before sys_mbox_post
    | ApiWait(id: Id)                 // posted, waits for its semaphore
    | PoolPost(id: Id, tryOnly: bool) // tcpip_inpkt, tcpip_callback, tcpip_try_callback
    | PoolReject(id: Id)              // the mailbox was full: about to free the message

  datatype Worker =
    | Fetching
    | Handling(id: Id)
    | Freeing(id: Id)

  /** `api[id]` says which kind a message is; `sems[id]` is the semaphore of an API message;
      `owing` holds those whose function has returned without acknowledging them. The rest
      are logs: `accepted` by the mailbox, `started`, `acked`, `returned` and `freed`. */
  datatype State = State(
    mbox: seq<Id>, threads: seq<Pc>, worker: Worker, api: seq<bool>, sems: seq<nat>, owing: multiset<Id>,
    accepted: seq<Id>, started: seq<Id>, acked: seq<Id>, returned: seq<Id>, freed: seq<Id>)

  datatype Action =
    | Go
    | CallApi
    | CallPool(tryOnly: bool)
    | Defer             // the function hands the message to a callback
    | Complete(id: Id)  // a callback acknowledges a message handed to it

  function Signal(s: State, id: Id): State {
    s.(sems := if id < |s.sems| then s.sems[id := 1] else s.sems, acked := s.acked + [id])
  }

  /** One step of a calling thread, before its own position is updated. */
  function ThreadStep(s: State, pc: Pc, a: Action): Option<(State, Pc)> {
    match pc
    case Idle =>
      (match a
       case CallApi => Some((s.(api := s.api + [true], sems := s.sems + [0]), ApiPost(|s.api|)))
       case CallPool(tryOnly) => Some((s.(api := s.api + [false], sems := s.sems + [0]), PoolPost(|s.api|, tryOnly)))
       case _ => None)
    case ApiPost(id) =>
      if Mailbox.Full(s.mbox) then None
      else Some((s.(mbox := s.mbox + [id], accepted := s.accepted + [id]), ApiWait(id)))
    case ApiWait(id) =>
      if id < |s.sems| && s.sems[id] > 0
      then Some((s.(sems := s.sems[id := s.sems[id] - 1], returned := s.returned + [id]), Idle))
      else None
    case PoolPost(id, tryOnly) =>
      if !Mailbox.Full(s.mbox) then Some((s.(mbox := s.mbox + [id], accepted := s.accepted + [id]), Idle))
      else if tryOnly then Some((s, PoolReject(id)))
      else None
    case PoolReject(id) => Some((s.(freed := s.freed + [id]), Idle))
  }

  /** One step of the TCP/IP thread. */
  function WorkerStep(s: State, a: Action): Option<State> {
    if a.Complete? then
      if a.id in s.owing then Some(Signal(s, a.id).(owing := s.owing - multiset{a.id})) else None
    else match s.worker
      case Fetching =>
        if s.mbox == [] then None
        else Some(s.(mbox := s.mbox[1..], worker := Handling(s.mbox[0]), started := s.started + [s.mbox[0]]))
      case Handling(id) =>
        if id < |s.api| && s.api[id] then
          if a == Defer then Some(s.(owing := s.owing + multiset{id}, worker := Fetching))
          else Some(Signal(s, id).(worker := Fetching))
        else Some(s.(worker := Freeing(id)))
      case Freeing(id) => Some(s.(freed := s.freed + [id], worker := Fetching))
  }

  datatype Actor = Caller(thread: Tid) | TcpipThread

  predicate Next(s: State, who: Actor, a: Action, s': State) {
    match who
    case TcpipThread => WorkerStep(s, a) == Some(s')
    case Caller(t) =>
      && t < |s.threads|
      && var r := ThreadStep(s, s.threads[t], a);
      && r.Some? && s' == r.value.0.(threads := s.threads[t := r.value.1])
  }

  predicate Init(s: State) {
    && s.mbox == [] && s.worker == Fetching && s.api == [] && s.sems == [] && s.owing == multiset{}
    && (forall t :: 0 <= t < |s.threads| ==> s.threads[t] == Idle)
    && s.accepted == [] && s.started == [] && s.acked == [] && s.returned == [] && s.freed == []
  }

  ghost predicate Reaches(schedule: seq<(Actor, Action)>, s: State)
    decreases |schedule|, 1
  {
    if schedule == [] then Init(s) else exists p :: LastStep(schedule, p, s)
  }

  /** The last step of `schedule` leads to `s` from `p`, which the others reach. */
  ghost predicate LastStep(schedule: seq<(Actor, Action)>, p: State, s: State)
    requires schedule != []
    decreases |schedule|, 0
  {
    var last := schedule[|schedule| - 1];
    Reaches(schedule[..|schedule| - 1], p) && Next(p, last.0, last.1, s)
  }

  // ---- Counting

  function Times(log: seq<Id>, id: Id): nat {
    multiset(log)[id]
  }

  lemma TimesAppend(log: seq<Id>, x: Id, id: Id)
    ensures Times(log + [x], id) == Times(log, id) + Is1(x == id)
  {
    assert multiset(log + [x]) == multiset(log) + multiset{x};
  }

  lemma TimesHead(log: seq<Id>, id: Id)
    requires log != []
    ensures Times(log, id) == Is1(log[0] == id) + Times(log[1..], id)
  {
    assert log == [log[0]] + log[1..];
    assert multiset(log) == multiset{log[0]} + multiset(log[1..]);
  }

  /** A thread composing the message, or freeing it after a rejection. */
  predicate InHand(pc: Pc, id: Id) {
    match pc
    case ApiPost(x) => x == id
    case PoolPost(x, _) => x == id
    case PoolReject(x) => x == id
    case _ => false
  }

  /** A call of tcpip_send_msg_wait_sem that has not returned: the message is on its stack. */
  predicate InCall(pc: Pc, id: Id) {
    pc == ApiPost(id) || pc == ApiWait(id)
  }

  function Hands(ts: seq<Pc>, id: Id): nat {
    if ts == [] then 0 else Is1(InHand(ts[0], id)) + Hands(ts[1..], id)
  }

  function Calls(ts: seq<Pc>, id: Id): nat {
    if ts == [] then 0 else Is1(InCall(ts[0], id)) + Calls(ts[1..], id)
  }

  lemma {:induction false} CountsUpdate(ts: seq<Pc>, t: Tid, pc: Pc, id: Id)
    requires t < |ts|
    ensures Hands(ts[t := pc], id) == Hands(ts, id) - Is1(InHand(ts[t], id)) + Is1(InHand(pc, id))
    ensures Calls(ts[t := pc], id) == Calls(ts, id) - Is1(InCall(ts[t], id)) + Is1(InCall(pc, id))
    ensures Is1(InHand(ts[t], id)) <= Hands(ts, id) && Is1(InCall(ts[t], id)) <= Calls(ts, id)
  {
    if t > 0 {
      assert ts[t := pc][1..] == ts[1..][t - 1 := pc];
      CountsUpdate(ts[1..], t - 1, pc, id);
    }
  }

  function Held(w: Worker, id: Id): nat {
    if w.Fetching? then 0 else Is1(w.id == id)
  }

  /** Places where a message is waiting to be dealt with. */
  function Pending(s: State, id: Id): nat {
    Hands(s.threads, id) + Times(s.mbox, id) + Held(s.worker, id) + s.owing[id]
  }

  // ---- Invariants

  /** An API message is pending, acknowledged but not returned, or returned; and it is on
      the stack of exactly one caller until that caller returns. */
  predicate ApiOk(s: State, id: Id)
    requires id < |s.sems|
  {
    && Pending(s, id) + s.sems[id] + Times(s.returned, id) == 1
    && Times(s.acked, id) == s.sems[id] + Times(s.returned, id)
    && Calls(s.threads, id) + Times(s.returned, id) == 1
    && Times(s.freed, id) == 0
  }

  /** A pool message is pending or freed. */
  predicate PoolOk(s: State, id: Id)
    requires id < |s.sems|
  {
    && Pending(s, id) + Times(s.freed, id) == 1
    && s.sems[id] == 0 && s.owing[id] == 0
    && Times(s.acked, id) == 0 && Times(s.returned, id) == 0
    && Calls(s.threads, id) == 0
  }

  predicate Absent(s: State, id: Id) {
    && Pending(s, id) == 0 && Calls(s.threads, id) == 0
    && Times(s.freed, id) == 0 && Times(s.acked, id) == 0 && Times(s.returned, id) == 0
  }

  predicate IdOk(s: State, id: Id)
    requires |s.sems| == |s.api|
  {
    if id >= |s.api| then Absent(s, id) else if s.api[id] then ApiOk(s, id) else PoolOk(s, id)
  }

  ghost predicate Inv(s: State) {
    && IdsOk(s)
    && s.started + s.mbox == s.accepted
    && (forall t :: 0 <= t < |s.threads| ==> KindOk(s, s.threads[t]))
    && (s.worker.Freeing? ==> s.worker.id < |s.api| && !s.api[s.worker.id])
  }

  predicate KindOk(s: State, pc: Pc) {
    match pc
    case Idle => true
    case ApiPost(id) => id < |s.api| && s.api[id]
    case ApiWait(id) => id < |s.api| && s.api[id]
    case PoolPost(id, _) => id < |s.api| && !s.api[id]
    case PoolReject(id) => id < |s.api| && !s.api[id]
  }

  ghost predicate IdsOk(s: State) {
    |s.sems| == |s.api| && forall id: Id :: IdOk(s, id)
  }

  lemma CompleteIds(s: State, a: Action, id: Id)
    requires IdsOk(s) && a.Complete? && WorkerStep(s, a).Some?
    ensures IdOk(WorkerStep(s, a).value, id)
  {
    assert IdOk(s, id) && IdOk(s, a.id);
    TimesAppend(s.acked, a.id, id);
  }

  lemma FetchIds(s: State, a: Action, id: Id)
    requires IdsOk(s) && !a.Complete? && s.worker.Fetching? && WorkerStep(s, a).Some?
    ensures IdOk(WorkerStep(s, a).value, id)
  {
    assert IdOk(s, id);
    TimesHead(s.mbox, id);
  }

  lemma HandleIds(s: State, a: Action, id: Id)
    requires IdsOk(s) && !a.Complete? && s.worker.Handling?
    ensures IdOk(WorkerStep(s, a).value, id)
  {
    assert IdOk(s, id) && IdOk(s, s.worker.id);
    TimesAppend(s.acked, s.worker.id, id);
  }

  lemma FreeIds(s: State, a: Action, id: Id)
    requires IdsOk(s) && !a.Complete? && s.worker.Freeing? && s.worker.id < |s.api| && !s.api[s.worker.id]
    ensures IdOk(WorkerStep(s, a).value, id)
  {
    assert IdOk(s, id) && IdOk(s, s.worker.id);
    TimesAppend(s.freed, s.worker.id, id);
  }

  lemma WorkerIds(s: State, a: Action, s': State, id: Id)
    requires IdsOk(s) && (s.worker.Freeing? ==> s.worker.id < |s.api| && !s.api[s.worker.id])
    requires WorkerStep(s, a) == Some(s')
    ensures IdOk(s', id)
  {
    if a.Complete? { CompleteIds(s, a, id); }
    else if s.worker.Fetching? { FetchIds(s, a, id); }
    else if s.worker.Handling? { HandleIds(s, a, id); }
    else { FreeIds(s, a, id); }
  }

  /** The state after a caller's step, with its own position updated. */
  function Moved(s: State, t: Tid, a: Action): Option<State>
    requires t < |s.threads|
  {
    var r := ThreadStep(s, s.threads[t], a);
    if r.None? then None else Some(r.value.0.(threads := s.threads[t := r.value.1]))
  }

  lemma StartIds(s: State, t: Tid, a: Action, id: Id)
    requires IdsOk(s) && t < |s.threads| && s.threads[t].Idle? && Moved(s, t, a).Some?
    ensures |Moved(s, t, a).value.sems| == |Moved(s, t, a).value.api| && IdOk(Moved(s, t, a).value, id)
  {
    assert IdOk(s, id) && IdOk(s, |s.api|);
    CountsUpdate(s.threads, t, Moved(s, t, a).value.threads[t], id);
  }

  lemma PostIds(s: State, t: Tid, a: Action, id: Id)
    requires IdsOk(s) && t < |s.threads| && KindOk(s, s.threads[t]) && Moved(s, t, a).Some?
    requires s.threads[t].ApiPost? || s.threads[t].PoolPost?
    ensures IdOk(Moved(s, t, a).value, id)
  {
    assert IdOk(s, id) && IdOk(s, s.threads[t].id);
    CountsUpdate(s.threads, t, Moved(s, t, a).value.threads[t], id);
    TimesAppend(s.mbox, s.threads[t].id, id);
  }

  lemma ReturnIds(s: State, t: Tid, a: Action, id: Id)
    requires IdsOk(s) && t < |s.threads| && KindOk(s, s.threads[t]) && Moved(s, t, a).Some?
    requires s.threads[t].ApiWait?
    ensures IdOk(Moved(s, t, a).value, id)
  {
    assert IdOk(s, id) && IdOk(s, s.threads[t].id);
    CountsUpdate(s.threads, t, Idle, id);
    TimesAppend(s.returned, s.threads[t].id, id);
  }

  lemma RejectIds(s: State, t: Tid, a: Action, id: Id)
    requires IdsOk(s) && t < |s.threads| && KindOk(s, s.threads[t]) && Moved(s, t, a).Some?
    requires s.threads[t].PoolReject?
    ensures IdOk(Moved(s, t, a).value, id)
  {
    assert IdOk(s, id) && IdOk(s, s.threads[t].id);
    CountsUpdate(s.threads, t, Idle, id);
    TimesAppend(s.freed, s.threads[t].id, id);
  }

  lemma CallerIds(s: State, t: Tid, a: Action, s': State, id: Id)
    requires IdsOk(s) && t < |s.threads| && KindOk(s, s.threads[t]) && Moved(s, t, a) == Some(s')
    ensures |s'.sems| == |s'.api| && IdOk(s', id)
  {
    match s.threads[t]
    case Idle => StartIds(s, t, a, id);
    case ApiWait(_) => ReturnIds(s, t, a, id);
    case PoolReject(_) => RejectIds(s, t, a, id);
    case _ => PostIds(s, t, a, id);
  }

  lemma OrderStep(s: State, who: Actor, a: Action, s': State)
    requires s.started + s.mbox == s.accepted && Next(s, who, a, s')
    ensures s'.started + s'.mbox == s'.accepted
  {
    match who
    case TcpipThread =>
      if s.mbox != [] {
        assert s.mbox == [s.mbox[0]] + s.mbox[1..];
        assert (s.started + [s.mbox[0]]) + s.mbox[1..] == s.started + s.mbox;
      }
    case Caller(t) =>
      var pc := s.threads[t];
      if pc.ApiPost? || pc.PoolPost? {
        assert s.started + (s.mbox + [pc.id]) == (s.started + s.mbox) + [pc.id];
      }
  }

  lemma IdsStep(s: State, who: Actor, a: Action, s': State)
    requires Inv(s) && Next(s, who, a, s')
    ensures IdsOk(s')
  {
    forall id: Id ensures |s'.sems| == |s'.api| && IdOk(s', id) {
      match who
      case TcpipThread => WorkerIds(s, a, s', id);
      case Caller(t) => CallerIds(s, t, a, s', id);
    }
  }

  lemma WorkerKinds(s: State, a: Action, s': State)
    requires Inv(s) && WorkerStep(s, a) == Some(s')
    ensures forall t :: 0 <= t < |s'.threads| ==> KindOk(s', s'.threads[t])
    ensures s'.worker.Freeing? ==> s'.worker.id < |s'.api| && !s'.api[s'.worker.id]
  {
    if s.worker.Handling? { assert IdOk(s, s.worker.id); }
  }

  lemma InvStep(s: State, who: Actor, a: Action, s': State)
    requires Inv(s) && Next(s, who, a, s')
    ensures Inv(s')
  {
    OrderStep(s, who, a, s');
    IdsStep(s, who, a, s');
    match who
    case TcpipThread => WorkerKinds(s, a, s');
    case Caller(t) =>
  }

  lemma {:induction false} NobodyActs(ts: seq<Pc>, id: Id)
    requires forall t :: 0 <= t < |ts| ==> ts[t] == Idle
    ensures Hands(ts, id) == 0 && Calls(ts, id) == 0
  {
    if ts != [] {
      NobodyActs(ts[1..], id);
    }
  }

  lemma {:induction false} ReachableInv(schedule: seq<(Actor, Action)>, s: State)
    requires Reaches(schedule, s)
    ensures Inv(s)
    decreases |schedule|
  {
    if schedule == [] {
      forall id: Id ensures IdOk(s, id) { NobodyActs(s.threads, id); }
    } else {
      var init, last := schedule[..|schedule| - 1], schedule[|schedule| - 1];
      var p :| LastStep(schedule, p, s);
      ReachableInv(init, p);
      InvStep(p, last.0, last.1, s);
    }
  }

  // ---- The promises

  /** Messages are started in the order in which the mailbox accepted them. */
  lemma StartedInPostingOrder(schedule: seq<(Actor, Action)>, s: State)
    requires Reaches(schedule, s)
    ensures s.started <= s.accepted && s.started + s.mbox == s.accepted
  {
    ReachableInv(schedule, s);
  }

  /** A call returns only after its message has been acknowledged, once; until then it is
      in exactly one place. */
  lemma ReturnsOnlyWhenAcknowledged(schedule: seq<(Actor, Action)>, s: State, id: Id)
    requires Reaches(schedule, s) && id < |s.api| && s.api[id]
    ensures Times(s.acked, id) <= 1 && Times(s.returned, id) <= Times(s.acked, id)
    ensures Times(s.acked, id) == 0 <==> Pending(s, id) == 1
  {
    ReachableInv(schedule, s);
    assert IdOk(s, id);
  }

  /** The message a caller keeps on its stack is not looked at any more once it returns. */
  lemma NoDanglingMessage(schedule: seq<(Actor, Action)>, s: State, id: Id)
    requires Reaches(schedule, s) && id < |s.api| && s.api[id]
    requires id in s.mbox || (s.worker.Handling? && s.worker.id == id) || id in s.owing
    ensures Calls(s.threads, id) == 1 && Times(s.returned, id) == 0
  {
    ReachableInv(schedule, s);
    assert IdOk(s, id);
    if id in s.mbox { assert id in multiset(s.mbox); }
  }

  /** A pool message is freed exactly once, processed or rejected, and is not touched after. */
  lemma PoolFreedExactlyOnce(schedule: seq<(Actor, Action)>, s: State, id: Id)
    requires Reaches(schedule, s) && id < |s.api| && !s.api[id]
    ensures Times(s.freed, id) <= 1
    ensures Times(s.freed, id) == 1 <==> Pending(s, id) == 0
  {
    ReachableInv(schedule, s);
    assert IdOk(s, id);
  }

  /** With the mailbox drained, a caller still waits only for a callback to complete it. */
  lemma WaitsOnlyForCallbacks(schedule: seq<(Actor, Action)>, s: State, t: Tid)
    requires Reaches(schedule, s) && t < |s.threads| && s.threads[t].ApiWait?
    requires s.mbox == [] && s.worker == Fetching
    ensures ThreadStep(s, s.threads[t], Go).None? <==> s.threads[t].id in s.owing
  {
    ReachableInv(schedule, s);
    var id := s.threads[t].id;
    assert KindOk(s, s.threads[t]) && IdOk(s, id);
    CountsUpdate(s.threads, t, s.threads[t], id);
    CallsAreHands(s.threads, t, id);
  }

  /** The one call of a message is waiting, so nobody is still composing it. */
  lemma {:induction false} CallsAreHands(ts: seq<Pc>, t: Tid, id: Id)
    requires t < |ts| && ts[t] == ApiWait(id) && Calls(ts, id) == 1
    requires forall u :: 0 <= u < |ts| ==> !ts[u].PoolPost? || ts[u].id != id
    requires forall u :: 0 <= u < |ts| ==> !ts[u].PoolReject? || ts[u].id != id
    ensures Hands(ts, id) == 0
  {
    forall u | 0 <= u < |ts| ensures !InHand(ts[u], id) {
      if ts[u] == ApiPost(id) {
        CountsUpdate(ts, t, Idle, id);
        CountsUpdate(ts[t := Idle], u, Idle, id);
      }
    }
    NobodyComposes(ts, id);
  }

  lemma {:induction false} NobodyComposes(ts: seq<Pc>, id: Id)
    requires forall u :: 0 <= u < |ts| ==> !InHand(ts[u], id)
    ensures Hands(ts, id) == 0
  {
    if ts != [] {
      NobodyComposes(ts[1..], id);
    }
  }

  /** The mailbox takes a message exactly if it has room; if not, the caller waits, or a call
      that only tries goes on to free its message. */
  lemma AcceptedIffRoom(s: State, t: Tid, a: Action)
    requires t < |s.threads| && (s.threads[t].ApiPost? || s.threads[t].PoolPost?)
    ensures var pc, r := s.threads[t], ThreadStep(s, s.threads[t], a);
      if |s.mbox| < Mailbox.SIZE - 1 then
        r.Some? && r.value.0.mbox == s.mbox + [pc.id] && r.value.0.accepted == s.accepted + [pc.id]
        && r.value.1 == (if pc.ApiPost? then ApiWait(pc.id) else Idle)
      else if pc.PoolPost? && pc.tryOnly then
        r.Some? && r.value.1 == PoolReject(pc.id) && r.value.0 == s
      else r.None?
  {
  }

  // ---- The functions of the file, run without interference

  class Stack {
    var mbox: seq<Id>
    var api: seq<bool>
    var sems: seq<nat>
    var accepted: seq<Id>
    var started: seq<Id>
    var freed: seq<Id>

    /** A pool message is in the mailbox or has been freed, an API message is never freed. */
    ghost predicate InPlace(id: Id)
      reads this
    {
      if id >= |api| then Times(mbox, id) == 0 && Times(freed, id) == 0
      else if api[id] then Times(freed, id) == 0
      else Times(mbox, id) + Times(freed, id) == 1
    }

    ghost predicate Valid()
      reads this
    {
      |sems| == |api| && started + mbox == accepted && forall id: Id :: InPlace(id)
    }

    constructor ()
      ensures Valid() && mbox == []
    {
      mbox, api, sems, accepted, started, freed := [], [], [], [], [], [];
    }

    /** sys_mbox_trypost on the mailbox of the TCP/IP thread. */
    method TryPost(id: Id) returns (err: Err)
      modifies this`mbox, this`accepted
      ensures err == if Mailbox.Full(old(mbox)) then MEM else OK
      ensures mbox == if err == OK then old(mbox) + [id] else old(mbox)
      ensures accepted == if err == OK then old(accepted) + [id] else old(accepted)
    {
      if |mbox| >= Mailbox.SIZE - 1 {
        return MEM;
      }
      mbox := mbox + [id];
      accepted := accepted + [id];
      return OK;
    }

    /** tcpip_inpkt and tcpip_try_callback; `pool` is whether memp_malloc finds a message. */
    method TryCallback(pool: bool) returns (err: Err)
      requires Valid()
      modifies this
      ensures Valid() && started == old(started)
      ensures err == OK <==> pool && !Mailbox.Full(old(mbox))
      ensures err == OK ==> mbox == old(mbox) + [|old(api)|] && freed == old(freed)
      ensures err != OK ==> err == MEM && mbox == old(mbox)
      ensures pool && err != OK ==> freed == old(freed) + [|old(api)|]
    {
      if !pool {
        return MEM;
      }
      var id := |api|;
      api, sems := api + [false], sems + [0];
      err := TryPost(id);
      if err != OK {
        freed := freed + [id];
        forall other: Id ensures InPlace(other) { TimesAppend(old(freed), id, other); assert old(InPlace(other)); }
      } else {
        assert old(started) + (old(mbox) + [id]) == (old(started) + old(mbox)) + [id];
        forall other: Id ensures InPlace(other) { TimesAppend(old(mbox), id, other); assert old(InPlace(other)); }
      }
    }

    /** tcpip_thread_handle_msg on the oldest message; `acks` is whether the function of an
        API message acknowledges it before it returns. */
    method HandleMsg(acks: bool) returns (id: Id)
      requires Valid() && mbox != []
      modifies this
      ensures Valid() && old(mbox) == [id] + mbox && started == old(started) + [id]
      ensures id < |api| && api == old(api)
      ensures api[id] ==> freed == old(freed) && sems == if acks then old(sems)[id := 1] else old(sems)
      ensures !api[id] ==> freed == old(freed) + [id] && sems == old(sems)
    {
      id := mbox[0];
      ghost var was := mbox;
      assert was == [id] + was[1..];
      TimesHead(mbox, id);
      assert old(InPlace(id));
      mbox := mbox[1..];
      started := started + [id];
      assert (old(started) + [id]) + was[1..] == old(started) + was;
      if api[id] {
        if acks {
          sems := sems[id := 1];
        }
        forall other: Id ensures InPlace(other) { TimesHead(was, other); assert old(InPlace(other)); }
      } else {
        freed := freed + [id];
        forall other: Id ensures InPlace(other) {
          TimesHead(was, other);
          TimesAppend(old(freed), id, other);
          assert old(InPlace(other));
        }
      }
    }
  }
}
