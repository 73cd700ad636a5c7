/** The calls of tcpip.c and the netconns of api_msg.c put together: the semaphores callers
    wait for are signalled by the acknowledgements of handlers and callbacks, and nothing
    else.

    What Tcpip assumes of the functions it carries, that a message is acknowledged once, by
    its own function or by a later callback, is proved here from what NetconnSpec says of
    them. A TCP/IP thread that does not come out of do_writemore makes no further step. */
module ApiCalls {
  import opened Common
  import N = NetconnSpec
  import T = Tcpip
  import V = VectorWriter

  /** `ids[n][k]` is the message that carries the k-th request to netconn `n`. The field
      `owing` of `tcpip` is not used: who is still to acknowledge what is in the netconns. */
  datatype System = System(tcpip: T.State, conns: seq<N.Conn>, ids: seq<seq<T.Id>>)

  datatype Action =
    | Thread(t: Tid, act: T.Action)
    | Loop                           // tcpip_thread: the next message, or the end of a pool message
    | Immediate                      // a handler that needs no netconn state, such as do_getaddr
    | Handler(n: nat, e: N.Event)
    | Callback(n: nat, e: N.Event)

  predicate HandlesApi(t: T.State) {
    t.worker.Handling? && t.worker.id < |t.api| && t.api[t.worker.id]
  }

  predicate Alive(s: System) {
    forall n :: 0 <= n < |s.conns| ==> !s.conns[n].hung
  }

  /** The semaphores of acknowledged messages. */
  function Signalled(t: T.State, ids: seq<T.Id>, acks: seq<(N.Id, Err)>): T.State
    decreases |acks|
  {
    if acks == [] then t
    else
      var first := if acks[0].0 < |ids| then T.Signal(t, ids[acks[0].0]) else t;
      Signalled(first, ids, acks[1..])
  }

  /** The acknowledgements made on the way from `c` to `d`. */
  function NewAcks(c: N.Conn, d: N.Conn): seq<(N.Id, Err)> {
    if |c.acks| <= |d.acks| then d.acks[|c.acks|..] else []
  }

  /** Netconn `n` goes to `d`, and signals what it acknowledges. */
  function Moved(s: System, t: T.State, n: nat, ids: seq<T.Id>, d: N.Conn): System
    requires n < |s.conns| == |s.ids|
  {
    System(Signalled(t, ids, NewAcks(s.conns[n], d)), s.conns[n := d], s.ids[n := ids])
  }

  function Released(t: T.State): T.State {
    t.(worker := T.Fetching)
  }

  ghost predicate Inv(s: System) {
    && |s.ids| == |s.conns| && s.tcpip.owing == multiset{}
    && forall n :: 0 <= n < |s.conns| ==> N.Inv(s.conns[n]) && |s.ids[n]| == s.conns[n].next
  }

  /** A step of the system, in a state in which the netconns are as they should be. */
  ghost predicate Next(s: System, a: Action, s': System)
    requires Inv(s)
  {
    match a
    case Thread(t, act) => T.Next(s.tcpip, T.Caller(t), act, s'.tcpip) && s' == s.(tcpip := s'.tcpip)
    case Loop =>
      && Alive(s) && !HandlesApi(s.tcpip)
      && T.WorkerStep(s.tcpip, T.Go) == Some(s'.tcpip) && s' == s.(tcpip := s'.tcpip)
    case Immediate =>
      && Alive(s) && HandlesApi(s.tcpip)
      && T.WorkerStep(s.tcpip, T.Go) == Some(s'.tcpip) && s' == s.(tcpip := s'.tcpip)
    case Handler(n, e) =>
      && Alive(s) && HandlesApi(s.tcpip) && n < |s.conns| && N.Submits(e) && N.Allowed(s.conns[n], e)
      && s' == Moved(s, Released(s.tcpip), n, s.ids[n] + [s.tcpip.worker.id], N.Step(s.conns[n], e))
    case Callback(n, e) =>
      && Alive(s) && !HandlesApi(s.tcpip) && n < |s.conns| && !N.Submits(e) && N.Allowed(s.conns[n], e)
      && s' == Moved(s, s.tcpip, n, s.ids[n], N.Step(s.conns[n], e))
  }

  ghost predicate Init(s: System) {
    && T.Init(s.tcpip) && |s.ids| == |s.conns|
    && forall n :: 0 <= n < |s.conns| ==> s.conns[n] == N.FRESH && s.ids[n] == []
  }

  ghost predicate Reaches(schedule: seq<Action>, s: System)
    decreases |schedule|, 1
  {
    if schedule == [] then Init(s) else exists p :: LastStep(schedule, p, s)
  }

  /** The last step of `schedule` leads to `s` from `p`, which the others reach. */
  ghost predicate LastStep(schedule: seq<Action>, p: System, s: System)
    requires schedule != []
    decreases |schedule|, 0
  {
    Reaches(schedule[..|schedule| - 1], p) && Inv(p) && Next(p, schedule[|schedule| - 1], s)
  }

  // ---- What one event acknowledges

  /** Either nothing is acknowledged, or one message is. */
  predicate AcksNone(c: N.Conn, d: N.Conn) {
    d.acks == c.acks
  }

  predicate AcksOne(c: N.Conn, d: N.Conn, id: N.Id) {
    |d.acks| == |c.acks| + 1 && c.acks <= d.acks && d.acks[|c.acks|].0 == id
  }

  predicate SameCurrent(c: N.Conn, d: N.Conn) {
    if c.current.Some? then d.current.Some? && d.current.value.id == c.current.value.id else d.current.None?
  }

  /** A handler acknowledges its own message and leaves the current one alone, or its message
      becomes the current one. */
  predicate HandlerEffect(c: N.Conn, d: N.Conn, id: N.Id) {
    || (AcksOne(c, d, id) && SameCurrent(c, d))
    || (AcksNone(c, d) && c.current.None? && d.current.Some? && d.current.value.id == id)
  }

  /** A callback acknowledges the current message, which is then no longer current, or
      leaves it the current one. */
  predicate CallbackEffect(c: N.Conn, d: N.Conn) {
    || (AcksNone(c, d) && SameCurrent(c, d))
    || (c.current.Some? && AcksOne(c, d, c.current.value.id) && d.current.None?)
  }

  lemma WriteMoreEffect(c: N.Conn, core: seq<V.Answer>, noRoute: bool)
    requires N.CanWriteMore(c)
    ensures CallbackEffect(c, N.WriteMore(c, core, noRoute))
  {
  }

  lemma CloseEffect(c: N.Conn, core: N.CloseCore)
    requires N.CanClose(c)
    ensures CallbackEffect(c, N.CloseInternal(c, core))
  {
    var r := N.CloseReply(c, core);
    assert r.conn.acks == c.acks && r.conn.current == c.current;
  }

  lemma DoWriteEffect(c: N.Conn, id: N.Id, vectors: seq<seq<byte>>, dontblock: bool, core: seq<V.Answer>, noRoute: bool)
    requires N.CurrentOk(c) && vectors != [] && Flatten(vectors) != []
    ensures HandlerEffect(c, N.DoWrite(c, id, vectors, dontblock, core, noRoute), id)
  {
    if c.pendingErr == OK && c.state == N.NONE && c.pcb.Pcb? {
      V.BeginConsistent(vectors);
      var msg := N.Msg(id, N.Job.Writing(V.Begin(vectors), dontblock || c.nonblocking));
      WriteMoreEffect(c.(state := N.WRITE, current := Some(msg)), core, noRoute);
    }
  }

  lemma DoCloseEffect(c: N.Conn, id: N.Id, shut: N.Shut, core: N.CloseCore)
    requires N.CurrentOk(c) && c.state != N.CLOSE
    ensures HandlerEffect(c, N.DoClose(c, id, shut, core), id)
  {
    if c.pcb.Pcb? && c.current.None? {
      CloseEffect(c.(state := N.CLOSE, current := Some(N.Msg(id, N.Closing(shut, N.CLOSE_POLLS)))), core);
    }
  }

  lemma DelconnEffect(c: N.Conn, id: N.Id, core: N.CloseCore)
    requires N.CurrentOk(c)
    ensures HandlerEffect(c, N.DoDelconn(c, id, core), id)
  {
    if c.pcb.Pcb? && c.current.None? {
      var answer := if c.state == N.CONNECT then core.(err := OK) else core;
      var msg := N.Msg(id, N.Closing(N.Shut(true, true), N.CLOSE_POLLS));
      CloseEffect(c.(state := N.CLOSE, current := Some(msg)), answer);
    }
  }

  lemma SubmitEffect(c: N.Conn, id: N.Id, e: N.Event)
    requires N.CurrentOk(c) && N.Submits(e) && (e.Write? ==> e.vectors != [] && Flatten(e.vectors) != [])
    requires e.Close? ==> c.state != N.CLOSE
    ensures HandlerEffect(c, N.Submit(c, id, e), id)
  {
    match e
    case Connect(_) =>
    case Listen(_, _, _) =>
    case Write(vectors, dontblock, core, noRoute) => DoWriteEffect(c, id, vectors, dontblock, core, noRoute);
    case Close(shut, core) => DoCloseEffect(c, id, shut, core);
    case Delete(core) => DelconnEffect(c, id, core);
  }

  lemma PollEffect(c: N.Conn, core: seq<V.Answer>, noRoute: bool, close: N.CloseCore)
    requires (c.state == N.WRITE ==> N.CanWriteMore(c)) && (c.state == N.CLOSE ==> N.CanClose(c))
    ensures CallbackEffect(c, N.PollTcp(c, core, noRoute, close))
        && CallbackEffect(c, N.SentTcp(c, core, noRoute, close))
  {
    if c.state == N.WRITE {
      WriteMoreEffect(c, core, noRoute);
    } else if c.state == N.CLOSE {
      var job := c.current.value.job;
      var polled := if job.pollsLeft > 0 then job.(pollsLeft := job.pollsLeft - 1) else job;
      CloseEffect(c.(current := Some(c.current.value.(job := polled))), close);
      CloseEffect(c, close);
    }
  }

  lemma CallbackActs(c: N.Conn, e: N.Event)
    requires N.ShapeOk(c) && !N.Submits(e) && N.Allowed(c, e)
    ensures CallbackEffect(c, N.Callback(c, e))
  {
    match e
    case Connected(err) =>
    case Sent(core, noRoute, close) => PollEffect(c, core, noRoute, close);
    case Poll(core, noRoute, close) => PollEffect(c, core, noRoute, close);
    case Error(err) =>
    case SetNonblocking(on) =>
  }

  // ---- What is owed

  function Owes(c: N.Conn, ids: seq<T.Id>): multiset<T.Id> {
    if c.current.Some? && c.current.value.id < |ids| then multiset{ids[c.current.value.id]} else multiset{}
  }

  /** The messages of `current_msg`. */
  function Owing(conns: seq<N.Conn>, ids: seq<seq<T.Id>>): multiset<T.Id> {
    if conns == [] || ids == [] then multiset{} else Owes(conns[0], ids[0]) + Owing(conns[1..], ids[1..])
  }

  lemma {:induction false} OwingUpdate(conns: seq<N.Conn>, ids: seq<seq<T.Id>>, n: nat, d: N.Conn, more: seq<T.Id>,
      id: T.Id)
    requires n < |conns| == |ids|
    ensures Owing(conns[n := d], ids[n := more])[id] + Owes(conns[n], ids[n])[id]
            == Owing(conns, ids)[id] + Owes(d, more)[id]
  {
    if n > 0 {
      assert conns[n := d][1..] == conns[1..][n - 1 := d] && ids[n := more][1..] == ids[1..][n - 1 := more];
      OwingUpdate(conns[1..], ids[1..], n - 1, d, more, id);
    } else {
      assert conns[n := d][1..] == conns[1..] && ids[n := more][1..] == ids[1..];
    }
  }

  lemma OwingSame(conns: seq<N.Conn>, ids: seq<seq<T.Id>>, n: nat, d: N.Conn, more: seq<T.Id>)
    requires n < |conns| == |ids| && Owes(d, more) == Owes(conns[n], ids[n])
    ensures Owing(conns[n := d], ids[n := more]) == Owing(conns, ids)
  {
    forall id ensures Owing(conns[n := d], ids[n := more])[id] == Owing(conns, ids)[id] {
      OwingUpdate(conns, ids, n, d, more, id);
    }
  }

  lemma OwingMore(conns: seq<N.Conn>, ids: seq<seq<T.Id>>, n: nat, d: N.Conn, more: seq<T.Id>, x: T.Id)
    requires n < |conns| == |ids| && Owes(conns[n], ids[n]) == multiset{} && Owes(d, more) == multiset{x}
    ensures Owing(conns[n := d], ids[n := more]) == Owing(conns, ids) + multiset{x}
  {
    forall id ensures Owing(conns[n := d], ids[n := more])[id] == (Owing(conns, ids) + multiset{x})[id] {
      OwingUpdate(conns, ids, n, d, more, id);
    }
  }

  lemma OwingLess(conns: seq<N.Conn>, ids: seq<seq<T.Id>>, n: nat, d: N.Conn, more: seq<T.Id>, x: T.Id)
    requires n < |conns| == |ids| && Owes(conns[n], ids[n]) == multiset{x} && Owes(d, more) == multiset{}
    ensures x in Owing(conns, ids) && Owing(conns[n := d], ids[n := more]) == Owing(conns, ids) - multiset{x}
  {
    OwingUpdate(conns, ids, n, d, more, x);
    forall id ensures Owing(conns[n := d], ids[n := more])[id] == (Owing(conns, ids) - multiset{x})[id] {
      OwingUpdate(conns, ids, n, d, more, id);
    }
  }

  lemma {:induction false} OwedThen(conns: seq<N.Conn>, ids: seq<seq<T.Id>>, n: nat, id: T.Id)
    requires n < |conns| == |ids| && id in Owes(conns[n], ids[n])
    ensures id in Owing(conns, ids)
  {
    if n > 0 {
      OwedThen(conns[1..], ids[1..], n - 1, id);
    }
  }

  lemma {:induction false} OwedBy(conns: seq<N.Conn>, ids: seq<seq<T.Id>>, id: T.Id) returns (n: nat)
    requires |conns| == |ids| && id in Owing(conns, ids)
    ensures n < |conns| && id in Owes(conns[n], ids[n])
  {
    if id in Owes(conns[0], ids[0]) {
      n := 0;
    } else {
      var k := OwedBy(conns[1..], ids[1..], id);
      n := k + 1;
    }
  }

  /** The state of Tcpip this one stands for. */
  function Abs(s: System): T.State {
    s.tcpip.(owing := Owing(s.conns, s.ids))
  }

  /** One step of Tcpip, or none. */
  ghost predicate Simulates(s: T.State, s': T.State) {
    s' == s || exists who, a :: T.Next(s, who, a, s')
  }

  // ---- Each step of the system is one of Tcpip

  lemma HandledAtOnce(t: T.State)
    requires HandlesApi(t)
    ensures T.Next(t, T.TcpipThread, T.Go, T.Signal(Released(t), t.worker.id))
  {
  }

  lemma HandedOver(t: T.State)
    requires HandlesApi(t)
    ensures T.Next(t, T.TcpipThread, T.Defer, Released(t).(owing := t.owing + multiset{t.worker.id}))
  {
  }

  lemma Completed(t: T.State, id: T.Id)
    requires id in t.owing
    ensures T.Next(t, T.TcpipThread, T.Complete(id), T.Signal(t, id).(owing := t.owing - multiset{id}))
  {
  }

  lemma SignalledOne(t: T.State, ids: seq<T.Id>, c: N.Conn, d: N.Conn, id: N.Id)
    requires AcksOne(c, d, id) && id < |ids|
    ensures Signalled(t, ids, NewAcks(c, d)) == T.Signal(t, ids[id])
  {
    var acks := NewAcks(c, d);
    assert acks[1..] == [];
    assert Signalled(T.Signal(t, ids[id]), ids, []) == T.Signal(t, ids[id]);
  }

  lemma HandlerRefines(s: System, n: nat, c: N.Conn, d: N.Conn, ids: seq<T.Id>, s': System)
    requires |s.conns| == |s.ids| && n < |s.conns| && c == s.conns[n] && HandlesApi(s.tcpip)
    requires |s.ids[n]| == c.next && (c.current.Some? ==> c.current.value.id < c.next)
    requires HandlerEffect(c, d, c.next) && ids == s.ids[n] + [s.tcpip.worker.id]
    requires s' == Moved(s, Released(s.tcpip), n, ids, d)
    ensures Simulates(Abs(s), Abs(s'))
  {
    if AcksNone(c, d) && d.current.Some? && d.current.value.id == c.next {
      OwingMore(s.conns, s.ids, n, d, ids, s.tcpip.worker.id);
      HandedOver(Abs(s));
    } else {
      SignalledOne(Released(s.tcpip), ids, c, d, c.next);
      OwingSame(s.conns, s.ids, n, d, ids);
      HandledAtOnce(Abs(s));
    }
  }

  lemma CallbackRefines(s: System, n: nat, c: N.Conn, d: N.Conn, s': System)
    requires |s.conns| == |s.ids| && n < |s.conns| && c == s.conns[n]
    requires c.current.Some? ==> c.current.value.id < |s.ids[n]|
    requires CallbackEffect(c, d) && s' == Moved(s, s.tcpip, n, s.ids[n], d)
    ensures Simulates(Abs(s), Abs(s'))
  {
    if AcksNone(c, d) {
      OwingSame(s.conns, s.ids, n, d, s.ids[n]);
    } else {
      var id := s.ids[n][c.current.value.id];
      SignalledOne(s.tcpip, s.ids[n], c, d, c.current.value.id);
      OwingLess(s.conns, s.ids, n, d, s.ids[n], id);
      Completed(Abs(s), id);
    }
  }

  lemma CurrentNumber(c: N.Conn)
    requires N.Inv(c)
    ensures c.current.Some? ==> c.current.value.id < c.next
  {
    if c.current.Some? {
      assert N.Times(c.acks, c.current.value.id) + N.Current(c, c.current.value.id) == Is1(c.current.value.id < c.next);
    }
  }

  lemma HandlerStep(c: N.Conn, e: N.Event, d: N.Conn)
    requires N.Inv(c) && N.Submits(e) && N.Allowed(c, e) && d == N.Step(c, e)
    ensures HandlerEffect(c, d, c.next) && d.next == c.next + 1
  {
    N.NextShape(c);
    N.SubmitShape(N.Numbered(c), c.next, e);
    SubmitEffect(N.Numbered(c), c.next, e);
  }

  lemma {:induction false} SignalledOwing(t: T.State, ids: seq<T.Id>, acks: seq<(N.Id, Err)>)
    ensures Signalled(t, ids, acks).owing == t.owing
    decreases |acks|
  {
    if acks != [] {
      SignalledOwing(if acks[0].0 < |ids| then T.Signal(t, ids[acks[0].0]) else t, ids, acks[1..]);
    }
  }

  /** A step that only moves the messages about. */
  lemma CallerStep(s: System, t: Tid, a: T.Action, s': System)
    requires Inv(s) && T.Next(s.tcpip, T.Caller(t), a, s'.tcpip) && s' == s.(tcpip := s'.tcpip)
    ensures Inv(s') && T.Next(Abs(s), T.Caller(t), a, Abs(s'))
  {
  }

  lemma WorkerGoes(s: System, s': System)
    requires Inv(s) && T.WorkerStep(s.tcpip, T.Go) == Some(s'.tcpip) && s' == s.(tcpip := s'.tcpip)
    ensures Inv(s') && T.Next(Abs(s), T.TcpipThread, T.Go, Abs(s'))
  {
  }

  lemma MovedInv(s: System, t: T.State, n: nat, ids: seq<T.Id>, d: N.Conn)
    requires Inv(s) && n < |s.conns| && t.owing == multiset{} && N.Inv(d) && |ids| == d.next
    ensures Inv(Moved(s, t, n, ids, d))
  {
    SignalledOwing(t, ids, NewAcks(s.conns[n], d));
  }

  lemma NextRefines(s: System, a: Action, s': System)
    requires Inv(s) && Next(s, a, s')
    ensures Inv(s') && Simulates(Abs(s), Abs(s'))
  {
    match a
    case Thread(t, act) =>
      CallerStep(s, t, act, s');
    case Loop => WorkerGoes(s, s');
    case Immediate => WorkerGoes(s, s');
    case Handler(n, e) =>
      var c, d := s.conns[n], N.Step(s.conns[n], e);
      CurrentNumber(c);
      HandlerStep(c, e, d);
      HandlerRefines(s, n, c, d, s.ids[n] + [s.tcpip.worker.id], s');
      MovedInv(s, Released(s.tcpip), n, s.ids[n] + [s.tcpip.worker.id], d);
    case Callback(n, e) =>
      var c, d := s.conns[n], N.Step(s.conns[n], e);
      CurrentNumber(c);
      N.CallbackShape(c, e);
      CallbackActs(c, e);
      CallbackRefines(s, n, c, d, s');
      MovedInv(s, s.tcpip, n, s.ids[n], d);
  }

  lemma {:induction false} NothingOwed(conns: seq<N.Conn>, ids: seq<seq<T.Id>>)
    requires |conns| == |ids| && forall n :: 0 <= n < |conns| ==> conns[n].current.None?
    ensures Owing(conns, ids) == multiset{}
  {
    if conns != [] {
      NothingOwed(conns[1..], ids[1..]);
    }
  }

  lemma Extend(tcpip: seq<(T.Actor, T.Action)>, s: T.State, who: T.Actor, a: T.Action, s': T.State)
    requires T.Reaches(tcpip, s) && T.Next(s, who, a, s')
    ensures T.Reaches(tcpip + [(who, a)], s')
  {
    var longer := tcpip + [(who, a)];
    assert longer[..|longer| - 1] == tcpip;
    assert T.LastStep(longer, s, s');
  }

  /** Every run of the system is a run of Tcpip, in which the functions and callbacks keep
      the rule that a message is acknowledged once. */
  lemma {:induction false} KeepsTheRule(schedule: seq<Action>, s: System) returns (tcpip: seq<(T.Actor, T.Action)>)
    requires Reaches(schedule, s)
    ensures Inv(s) && T.Reaches(tcpip, Abs(s))
    decreases |schedule|
  {
    if schedule == [] {
      N.FreshInv();
      NothingOwed(s.conns, s.ids);
      tcpip := [];
    } else {
      var p :| LastStep(schedule, p, s);
      tcpip := KeepsTheRule(schedule[..|schedule| - 1], p);
      NextRefines(p, schedule[|schedule| - 1], s);
      if Abs(s) != Abs(p) {
        var who, a :| T.Next(Abs(p), who, a, Abs(s));
        Extend(tcpip, Abs(p), who, a, Abs(s));
        tcpip := tcpip + [(who, a)];
      }
    }
  }

  // ---- The promises

  /** A call into the TCP/IP thread returns only after a handler or a callback has
      acknowledged its message, which happens once. */
  lemma {:induction false} ReturnsOnceAcknowledged(schedule: seq<Action>, s: System, id: T.Id)
    requires Reaches(schedule, s) && id < |s.tcpip.api| && s.tcpip.api[id]
    ensures T.Times(s.tcpip.acked, id) <= 1 && T.Times(s.tcpip.returned, id) <= T.Times(s.tcpip.acked, id)
    ensures T.Times(s.tcpip.acked, id) == 0 <==> T.Pending(Abs(s), id) == 1
  {
    var tcpip := KeepsTheRule(schedule, s);
    T.ReturnsOnlyWhenAcknowledged(tcpip, Abs(s), id);
  }

  /** `current_msg` of any netconn is on the stack of one caller, still in the call: it has
      neither been signalled nor let go. */
  lemma {:induction false} CurrentMessageIsAlive(schedule: seq<Action>, s: System, id: T.Id)
    requires Reaches(schedule, s) && id in Owing(s.conns, s.ids)
    ensures T.Calls(s.tcpip.threads, id) == 1
    ensures T.Times(s.tcpip.acked, id) == 0 && T.Times(s.tcpip.returned, id) == 0
  {
    var tcpip := KeepsTheRule(schedule, s);
    T.ReachableInv(tcpip, Abs(s));
    assert T.IdOk(Abs(s), id);
    assert Abs(s).owing[id] > 0;
  }

  /** And it is there for every netconn that has one. */
  lemma {:induction false} CurrentIsOwed(schedule: seq<Action>, s: System, n: nat)
    requires Reaches(schedule, s)
    ensures n < |s.conns| && s.conns[n].current.Some? ==>
      n < |s.ids| && s.conns[n].current.value.id < |s.ids[n]|
      && s.ids[n][s.conns[n].current.value.id] in Owing(s.conns, s.ids)
  {
    var tcpip := KeepsTheRule(schedule, s);
    if n < |s.conns| && s.conns[n].current.Some? {
      CurrentNumber(s.conns[n]);
      OwedThen(s.conns, s.ids, n, s.ids[n][s.conns[n].current.value.id]);
    }
  }

  /** With the mailbox drained, a caller is still waiting exactly if its message is the
      current message of a netconn: nothing else can keep it. */
  lemma {:induction false} WaitsOnlyForItsNetconn(schedule: seq<Action>, s: System, t: Tid)
    requires Reaches(schedule, s) && t < |s.tcpip.threads| && s.tcpip.threads[t].ApiWait?
    requires s.tcpip.mbox == [] && s.tcpip.worker == T.Fetching
    ensures |s.ids| == |s.conns|
    ensures T.ThreadStep(s.tcpip, s.tcpip.threads[t], T.Go).None?
       <==> exists n :: 0 <= n < |s.conns| && s.tcpip.threads[t].id in Owes(s.conns[n], s.ids[n])
  {
    var tcpip := KeepsTheRule(schedule, s);
    T.WaitsOnlyForCallbacks(tcpip, Abs(s), t);
    var id := s.tcpip.threads[t].id;
    if id in Owing(s.conns, s.ids) {
      var n := OwedBy(s.conns, s.ids, id);
    }
    forall n | 0 <= n < |s.conns| && id in Owes(s.conns[n], s.ids[n]) ensures id in Owing(s.conns, s.ids) {
      OwedThen(s.conns, s.ids, n, id);
    }
  }
}
