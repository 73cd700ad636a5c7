/** The TCP netconn state machine of lwip_client/ta/api_msg.c: what each handler running in
    the TCP/IP thread and each callback of the TCP core makes of a netconn.

    Configuration: LWIP_NETCONN_FULLDUPLEX = 0, LWIP_TCPIP_CORE_LOCKING = 0,
    LWIP_SO_SNDTIMEO = 0, LWIP_SO_LINGER = 0 and one semaphore per message. The TCP core is
    the environment: its answers are part of the events. */
module NetconnSpec {
  import opened Common
  import opened VectorWriter

  type Id = nat

  datatype NcState = NONE | WRITE | LISTEN | CONNECT | CLOSE

  datatype Shut = Shut(rd: bool, wr: bool)

  /** What the current message asks for, and how far it has come. */
  datatype Job =
    | Connecting
    | Writing(w: Progress, dontblock: bool)
    | Closing(shut: Shut, pollsLeft: nat)

  datatype Msg = Msg(id: Id, job: Job)

  /** The pcb a netconn points to, by what of it the netconn has registered. With
      `connecting`, tcp_connect has answered ERR_OK and the core still owes its callback. */
  datatype Pcb = Gone | Pcb(listening: bool, arg: bool, sent: bool, poll: bool, errf: bool, connecting: bool)

  /** `next` is the number of the next message, `acks` the semaphores signalled so far with
      the error each message got, `written` what tcp_write has accepted. `orphan` is what
      stays registered on a pcb that tcp_close has taken over: it lives on in the core. A
      netconn is `hung` when do_writemore has not come out of its loop. */
  datatype Conn = Conn(state: NcState, current: Option<Msg>, nbConnect: bool, nonblocking: bool, pendingErr: Err,
                       pcb: Pcb, orphan: Pcb, next: Id, acks: seq<(Id, Err)>, written: seq<byte>, hung: bool)

  /** The core's side of one attempt at closing: two facts about the pcb, and the result of
      tcp_close or tcp_shutdown. */
  datatype CloseCore = CloseCore(finWait: bool, rxClosed: bool, err: Err)

  datatype Event =
    | Connect(tcpErr: Err)
    | Listen(closed: bool, listenErr: Err, mboxErr: Err)
    | Write(vectors: seq<seq<byte>>, dontblock: bool, core: seq<Answer>, noRoute: bool)
    | Close(shut: Shut, closeCore: CloseCore)
    | Delete(closeCore: CloseCore)
    | Connected(err: Err)
    | Sent(core: seq<Answer>, noRoute: bool, closeCore: CloseCore)
    | Poll(core: seq<Answer>, noRoute: bool, closeCore: CloseCore)
    | Error(err: Err)
    | SetNonblocking(on: bool)

  /** A pcb after setup_tcp. */
  const SET_UP := Pcb(false, true, true, true, true, false)

  /** netconn_new, or a netconn made by accept_function. */
  const FRESH := Conn(NONE, None, false, false, OK, SET_UP, Gone, 0, [], [], false)

  /** (LWIP_TCP_CLOSE_TIMEOUT_MS_DEFAULT + TCP_SLOW_INTERVAL - 1) / TCP_SLOW_INTERVAL + 1 */
  const CLOSE_POLLS := (20000 + 500 - 1) / 500 + 1

  function Ack(c: Conn, id: Id, err: Err): Conn {
    c.(acks := c.acks + [(id, err)])
  }

  /** The current message is done. */
  function Finish(c: Conn, err: Err): Conn
    requires c.current.Some?
  {
    Ack(c.(current := None, state := NONE), c.current.value.id, err)
  }

  // ---- do_writemore

  /** do_writemore on a netconn in state WRITE. */
  function WriteMore(c: Conn, core: seq<Answer>, noRoute: bool): Conn
    requires CanWriteMore(c)
  {
    var job := c.current.value.job;
    var r := Invoke(job.w, job.dontblock, core, noRoute);
    var after := c.(current := Some(c.current.value.(job := job.(w := r.w))), written := c.written + r.bytes);
    if r.stalled then after.(hung := true)
    else if r.done.Some? then Finish(after, r.done.value)
    else after
  }

  /** The assertions do_writemore starts with. */
  ghost predicate CanWriteMore(c: Conn) {
    && c.state == WRITE && c.current.Some? && c.pcb.Pcb? && c.current.value.job.Writing?
    && Consistent(c.current.value.job.w) && c.current.value.job.w.cnt > 0
    && c.current.value.job.w.offset < c.current.value.job.w.len
  }

  // ---- do_close_internal

  /** A netconn after some work, and the error a message is completed with (None: later). */
  datatype Reply = Reply(conn: Conn, err: Option<Err>)

  predicate FullClose(shut: Shut, core: CloseCore) {
    (shut.rd && shut.wr) || (shut.rd && core.finWait) || (shut.wr && core.rxClosed)
  }

  /** The callbacks left before the attempt. */
  function Unhooked(p: Pcb, shut: Shut, full: bool): Pcb
    requires p.Pcb?
  {
    var q := if full then p.(arg := false) else p;
    if p.listening then q
    else
      q.(sent := q.sent && !shut.wr, poll := q.poll && !full, errf := q.errf && !full)
  }

  /** And restored when the attempt is to be repeated. */
  function Rehooked(p: Pcb, shut: Shut): Pcb
    requires p.Pcb?
  {
    p.(sent := p.sent || shut.wr, poll := true, errf := true, arg := true)
  }

  /** The assertions do_close_internal starts with. */
  predicate CanClose(c: Conn) {
    c.state == CLOSE && c.pcb.Pcb? && c.current.Some? && c.current.value.job.Closing?
  }

  /** tcp_close takes a pcb over unless it was only listening; tcp_shutdown leaves it. */
  function Closed(c: Conn, pcb: Pcb, full: bool): Conn
    requires pcb.Pcb?
  {
    if !full then c.(pcb := pcb)
    else if pcb.listening then c.(pcb := Gone)
    else c.(pcb := Gone, orphan := pcb)
  }

  /** One attempt at closing: the netconn, and the error to complete the message with
      (None: try again). Closing a listening pcb never fails (tcp_close). */
  function CloseReply(c: Conn, core: CloseCore): (r: Reply)
    requires CanClose(c)
    ensures r.conn.current == c.current
  {
    var job := c.current.value.job;
    var full := FullClose(job.shut, core);
    var pcb := Unhooked(c.pcb, job.shut, full);
    var err := if c.pcb.listening then OK else core.err;
    if err == OK then Reply(Closed(c, pcb, full), Some(OK))
    else if err == MEM then
      if job.pollsLeft > 0 then Reply(c.(pcb := Rehooked(pcb, job.shut)), None)
      else if full then Reply(c.(pcb := Gone), Some(OK))   // tcp_abort
      else Reply(c.(pcb := pcb), Some(MEM))
    else Reply(c.(pcb := pcb), Some(err))
  }

  /** do_close_internal. */
  function CloseInternal(c: Conn, core: CloseCore): Conn
    requires CanClose(c)
  {
    var r := CloseReply(c, core);
    if r.err.Some? then Finish(r.conn, r.err.value) else r.conn
  }

  // ---- The handlers

  function Reported(r: Reply, id: Id): Conn {
    if r.err.Some? then Ack(r.conn, id, r.err.value) else r.conn
  }

  function ConnectReply(c: Conn, id: Id, tcpErr: Err): Reply {
    if c.pcb.Gone? then Reply(c, Some(CLSD))
    else if c.state == CONNECT then Reply(c, Some(ALREADY))
    else if c.state != NONE then Reply(c, Some(ISCONN))
    else if tcpErr != OK then Reply(c.(pcb := SET_UP), Some(tcpErr))
    else
      var owed := SET_UP.(connecting := true);
      if c.nonblocking then Reply(c.(pcb := owed, state := CONNECT, nbConnect := true), Some(INPROGRESS))
      else Reply(c.(pcb := owed, state := CONNECT, nbConnect := false, current := Some(Msg(id, Connecting))), None)
  }

  function DoConnect(c: Conn, id: Id, tcpErr: Err): Conn {
    Reported(ConnectReply(c, id, tcpErr), id)
  }

  /** do_connected, the callback tcp_connect owes. */
  function DoConnected(c: Conn, err: Err): Conn {
    var ready := if c.pcb.Gone? then c
                 else if err == OK then c.(pcb := SET_UP)
                 else c.(pcb := c.pcb.(connecting := false));
    var after := ready.(nbConnect := false, current := None, state := NONE);
    if c.current.Some? then Ack(after, c.current.value.id, err) else after
  }

  function ListenReply(c: Conn, closed: bool, listenErr: Err, mboxErr: Err): (Conn, Err) {
    if c.pcb.Gone? then (c, CONN)
    else if c.state == NONE then
      if !closed then (c, VAL)
      else if listenErr != OK then (c, listenErr)
      else if mboxErr != OK then (c.(pcb := Gone), mboxErr)
      else (c.(state := LISTEN, pcb := Pcb(true, true, false, false, false, false)), OK)
    else if c.state == LISTEN then (c, OK)
    else (c, CONN)
  }

  function DoListen(c: Conn, id: Id, closed: bool, listenErr: Err, mboxErr: Err): Conn {
    var r := ListenReply(c, closed, listenErr, mboxErr);
    Ack(r.0, id, r.1)
  }

  function DoWrite(c: Conn, id: Id, vectors: seq<seq<byte>>, dontblock: bool, core: seq<Answer>, noRoute: bool): Conn
    requires vectors != [] && Flatten(vectors) != []
  {
    if c.pendingErr != OK then Ack(c.(pendingErr := OK), id, c.pendingErr)
    else if c.state != NONE then Ack(c, id, INPROGRESS)
    else if c.pcb.Gone? then Ack(c, id, CONN)
    else
      BeginConsistent(vectors);
      var msg := Msg(id, Job.Writing(Begin(vectors), dontblock || c.nonblocking));
      WriteMore(c.(state := WRITE, current := Some(msg)), core, noRoute)
  }

  function DoClose(c: Conn, id: Id, shut: Shut, core: CloseCore): Conn {
    if c.pcb.Gone? || (c.state == LISTEN && !(shut.rd && shut.wr)) then Ack(c, id, CONN)
    else if c.state == CONNECT then Ack(c, id, CONN)
    else if c.state == WRITE then Ack(c, id, INPROGRESS)
    else CloseInternal(c.(state := CLOSE, current := Some(Msg(id, Closing(shut, CLOSE_POLLS)))), core)
  }

  /** do_delconn; closing a pcb that is still connecting never fails (tcp_close). */
  function DoDelconn(c: Conn, id: Id, core: CloseCore): Conn {
    if c.state == WRITE || c.state == CLOSE || (c.state == CONNECT && !c.nbConnect) then Ack(c, id, INPROGRESS)
    else if c.pcb.Gone? then Ack(c, id, OK)
    else
      var answer := if c.state == CONNECT then core.(err := OK) else core;
      CloseInternal(c.(state := CLOSE, current := Some(Msg(id, Closing(Shut(true, true), CLOSE_POLLS)))), answer)
  }

  // ---- The callbacks

  function PollTcp(c: Conn, core: seq<Answer>, noRoute: bool, close: CloseCore): Conn
    requires (c.state == WRITE ==> CanWriteMore(c)) && (c.state == CLOSE ==> CanClose(c))
  {
    if c.state == WRITE then WriteMore(c, core, noRoute)
    else if c.state == CLOSE then
      var job := c.current.value.job;
      var polled := if job.pollsLeft > 0 then job.(pollsLeft := job.pollsLeft - 1) else job;
      CloseInternal(c.(current := Some(c.current.value.(job := polled))), close)
    else c
  }

  function SentTcp(c: Conn, core: seq<Answer>, noRoute: bool, close: CloseCore): Conn
    requires (c.state == WRITE ==> CanWriteMore(c)) && (c.state == CLOSE ==> CanClose(c))
  {
    if c.state == WRITE then WriteMore(c, core, noRoute)
    else if c.state == CLOSE then CloseInternal(c, close)
    else c
  }

  function ErrTcp(c: Conn, err: Err): Conn {
    var busy := c.state == WRITE || c.state == CLOSE || c.state == CONNECT;
    var wakes := busy && !c.nbConnect && c.current.Some?;
    var after := c.(pcb := Gone, pendingErr := err, state := NONE, nbConnect := c.nbConnect && !busy,
                    current := if wakes then None else c.current);
    if wakes then Ack(after, c.current.value.id, if c.state == CLOSE then OK else err) else after
  }

  // ---- Runs

  /** What the environment may do: callbacks arrive only where they are registered, or
      owed by tcp_connect; no second close while one is in progress; a write is of at least
      one byte and the core does not invent WOULDBLOCK; the blocking mode stays while a
      write is in progress. */
  ghost predicate Allowed(c: Conn, e: Event) {
    !c.hung && match e
      case Connect(_) => true
      case Listen(_, _, _) => true
      case Write(vectors, _, core, _) => vectors != [] && Flatten(vectors) != [] && CoreErrs(core)
      case Close(_, _) => c.state != CLOSE
      case Delete(_) => true
      case Connected(_) => c.pcb.Pcb? && c.pcb.connecting
      case Sent(core, _, _) => c.pcb.Pcb? && c.pcb.sent && c.pcb.arg && CoreErrs(core)
      case Poll(core, _, _) => c.pcb.Pcb? && c.pcb.poll && CoreErrs(core)
      case Error(err) => c.pcb.Pcb? && c.pcb.errf && err != OK
      case SetNonblocking(_) => c.state != WRITE
  }

  predicate Submits(e: Event) {
    e.Connect? || e.Listen? || e.Write? || e.Close? || e.Delete?
  }

  /** One more message number has been given out. */
  function Numbered(c: Conn): Conn {
    c.(next := c.next + 1)
  }

  function Submit(c: Conn, id: Id, e: Event): Conn
    requires Submits(e) && (e.Write? ==> e.vectors != [] && Flatten(e.vectors) != [])
  {
    match e
    case Connect(tcpErr) => DoConnect(c, id, tcpErr)
    case Listen(closed, listenErr, mboxErr) => DoListen(c, id, closed, listenErr, mboxErr)
    case Write(vectors, dontblock, core, noRoute) => DoWrite(c, id, vectors, dontblock, core, noRoute)
    case Close(shut, core) => DoClose(c, id, shut, core)
    case Delete(core) => DoDelconn(c, id, core)
  }

  function Callback(c: Conn, e: Event): Conn
    requires !Submits(e) && (c.state == WRITE ==> CanWriteMore(c)) && (c.state == CLOSE ==> CanClose(c))
  {
    match e
    case Connected(err) => DoConnected(c, err)
    case Sent(core, noRoute, close) => SentTcp(c, core, noRoute, close)
    case Poll(core, noRoute, close) => PollTcp(c, core, noRoute, close)
    case Error(err) => ErrTcp(c, err)
    case SetNonblocking(on) => c.(nonblocking := on)
  }

  // ---- The invariant

  /** `current_msg` is set exactly while a write, a close or a blocking connect is under way. */
  predicate CurrentOk(c: Conn) {
    c.current.Some? <==> c.state == WRITE || c.state == CLOSE || (c.state == CONNECT && !c.nbConnect)
  }

  ghost predicate StateOk(c: Conn) {
    match c.state
    case NONE => c.pcb.Pcb? ==> !c.pcb.listening && !c.pcb.connecting && !c.nbConnect
    case WRITE =>
      && CanWriteMore(c) && !c.pcb.listening && !c.pcb.connecting && !c.nbConnect
      && !c.current.value.job.dontblock
    case LISTEN => c.pcb.Pcb? && c.pcb.listening && !c.pcb.connecting && !c.nbConnect
    case CONNECT =>
      && c.pcb.Pcb? && !c.pcb.listening && c.pcb.connecting
      && (c.current.Some? ==> c.current.value.job.Connecting?)
    case CLOSE =>
      && CanClose(c) && !c.pcb.listening && !c.pcb.connecting && !c.nbConnect
      && c.pcb.poll && c.pcb.errf && c.pcb.arg && (c.current.value.job.shut.wr ==> c.pcb.sent)
  }

  predicate HooksOk(p: Pcb) {
    p.Pcb? ==> (p.poll ==> p.arg) && (p.errf ==> p.arg)
  }

  function Times(acks: seq<(Id, Err)>, id: Id): nat {
    if acks == [] then 0 else (if acks[0].0 == id then 1 else 0) + Times(acks[1..], id)
  }

  function Current(c: Conn, id: Id): nat {
    Is1(c.current.Some? && c.current.value.id == id)
  }

  ghost predicate AcksOk(c: Conn) {
    forall id: Id {:trigger Times(c.acks, id)} :: Times(c.acks, id) + Current(c, id) == Is1(id < c.next)
  }

  ghost predicate Inv(c: Conn) {
    CurrentOk(c) && StateOk(c) && HooksOk(c.pcb) && AcksOk(c)
  }

  // ---- Acknowledgements

  /** Semaphore signals of message `id`, plus one while it is the current message. */
  function Total(c: Conn, id: Id): nat {
    Times(c.acks, id) + Current(c, id)
  }

  lemma {:induction false} TimesAppend(acks: seq<(Id, Err)>, last: (Id, Err), id: Id)
    ensures Times(acks + [last], id) == Times(acks, id) + Is1(last.0 == id)
  {
    if acks == [] {
      assert Times([last], id) == Is1(last.0 == id) + Times([], id);
      assert [] + [last] == [last];
    } else {
      TimesAppend(acks[1..], last, id);
      assert (acks + [last])[1..] == acks[1..] + [last];
    }
  }

  lemma FinishTotal(c: Conn, err: Err, id: Id)
    requires c.current.Some?
    ensures Total(Finish(c, err), id) == Total(c, id)
  {
    TimesAppend(c.acks, (c.current.value.id, err), id);
  }

  lemma AckTotal(c: Conn, extra: Id, err: Err, id: Id)
    ensures Total(Ack(c, extra, err), id) == Total(c, id) + Is1(extra == id)
  {
    TimesAppend(c.acks, (extra, err), id);
  }

  lemma WriteMoreTotal(c: Conn, core: seq<Answer>, noRoute: bool, id: Id)
    requires CanWriteMore(c)
    ensures Total(WriteMore(c, core, noRoute), id) == Total(c, id)
  {
    var job := c.current.value.job;
    var r := Invoke(job.w, job.dontblock, core, noRoute);
    var after := c.(current := Some(c.current.value.(job := job.(w := r.w))), written := c.written + r.bytes);
    if r.done.Some? { FinishTotal(after, r.done.value, id); }
  }

  lemma CloseTotal(c: Conn, core: CloseCore, id: Id)
    requires CanClose(c)
    ensures Total(CloseInternal(c, core), id) == Total(c, id)
  {
    var r := CloseReply(c, core);
    assert r.conn.acks == c.acks;
    if r.err.Some? { FinishTotal(r.conn, r.err.value, id); }
  }

  lemma ConnectTotal(c: Conn, extra: Id, tcpErr: Err, id: Id)
    requires CurrentOk(c)
    ensures Total(DoConnect(c, extra, tcpErr), id) == Total(c, id) + Is1(extra == id)
  {
    var r := ConnectReply(c, extra, tcpErr);
    if r.err.Some? { AckTotal(r.conn, extra, r.err.value, id); }
  }

  lemma ListenTotal(c: Conn, extra: Id, closed: bool, listenErr: Err, mboxErr: Err, id: Id)
    ensures Total(DoListen(c, extra, closed, listenErr, mboxErr), id) == Total(c, id) + Is1(extra == id)
  {
    var r := ListenReply(c, closed, listenErr, mboxErr);
    AckTotal(r.0, extra, r.1, id);
  }

  lemma WriteTotal(c: Conn, extra: Id, vectors: seq<seq<byte>>, dontblock: bool, core: seq<Answer>, noRoute: bool,
      id: Id)
    requires CurrentOk(c) && vectors != [] && Flatten(vectors) != []
    ensures Total(DoWrite(c, extra, vectors, dontblock, core, noRoute), id) == Total(c, id) + Is1(extra == id)
  {
    AckTotal(c.(pendingErr := OK), extra, c.pendingErr, id);
    AckTotal(c, extra, INPROGRESS, id);
    AckTotal(c, extra, CONN, id);
    if c.pendingErr == OK && c.state == NONE && c.pcb.Pcb? {
      BeginConsistent(vectors);
      var msg := Msg(extra, Job.Writing(Begin(vectors), dontblock || c.nonblocking));
      WriteMoreTotal(c.(state := WRITE, current := Some(msg)), core, noRoute, id);
    }
  }

  lemma DoCloseTotal(c: Conn, extra: Id, shut: Shut, core: CloseCore, id: Id)
    requires CurrentOk(c) && c.state != CLOSE
    ensures Total(DoClose(c, extra, shut, core), id) == Total(c, id) + Is1(extra == id)
  {
    AckTotal(c, extra, CONN, id);
    AckTotal(c, extra, INPROGRESS, id);
    if c.pcb.Pcb? && (c.state == NONE || c.state == LISTEN) {
      CloseTotal(c.(state := CLOSE, current := Some(Msg(extra, Closing(shut, CLOSE_POLLS)))), core, id);
    }
  }

  lemma DelconnTotal(c: Conn, extra: Id, core: CloseCore, id: Id)
    requires CurrentOk(c)
    ensures Total(DoDelconn(c, extra, core), id) == Total(c, id) + Is1(extra == id)
  {
    AckTotal(c, extra, INPROGRESS, id);
    AckTotal(c, extra, OK, id);
    if c.current.None? && c.pcb.Pcb? {
      var answer := if c.state == CONNECT then core.(err := OK) else core;
      CloseTotal(c.(state := CLOSE, current := Some(Msg(extra, Closing(Shut(true, true), CLOSE_POLLS)))), answer, id);
    }
  }

  lemma ConnectedTotal(c: Conn, err: Err, id: Id)
    ensures Total(DoConnected(c, err), id) == Total(c, id)
  {
    if c.current.Some? { TimesAppend(c.acks, (c.current.value.id, err), id); }
  }

  lemma ErrTotal(c: Conn, err: Err, id: Id)
    requires CurrentOk(c) && (c.nbConnect && c.pcb.Pcb? ==> c.state == CONNECT) && c.pcb.Pcb?
    ensures Total(ErrTcp(c, err), id) == Total(c, id)
  {
    if c.current.Some? { TimesAppend(c.acks, (c.current.value.id, if c.state == CLOSE then OK else err), id); }
  }

  lemma PollTotal(c: Conn, core: seq<Answer>, noRoute: bool, close: CloseCore, id: Id)
    requires (c.state == WRITE ==> CanWriteMore(c)) && (c.state == CLOSE ==> CanClose(c))
    ensures Total(PollTcp(c, core, noRoute, close), id) == Total(c, id)
    ensures Total(SentTcp(c, core, noRoute, close), id) == Total(c, id)
  {
    if c.state == WRITE {
      WriteMoreTotal(c, core, noRoute, id);
    } else if c.state == CLOSE {
      var job := c.current.value.job;
      var polled := if job.pollsLeft > 0 then job.(pollsLeft := job.pollsLeft - 1) else job;
      CloseTotal(c.(current := Some(c.current.value.(job := polled))), close, id);
      CloseTotal(c, close, id);
    }
  }

  lemma SubmitTotal(c: Conn, extra: Id, e: Event, id: Id)
    requires CurrentOk(c) && Submits(e) && (e.Write? ==> e.vectors != [] && Flatten(e.vectors) != [])
    requires e.Close? ==> c.state != CLOSE
    ensures Total(Submit(c, extra, e), id) == Total(c, id) + Is1(extra == id)
  {
    match e
    case Connect(tcpErr) => ConnectTotal(c, extra, tcpErr, id);
    case Listen(closed, listenErr, mboxErr) => ListenTotal(c, extra, closed, listenErr, mboxErr, id);
    case Write(vectors, dontblock, core, noRoute) => WriteTotal(c, extra, vectors, dontblock, core, noRoute, id);
    case Close(shut, core) => DoCloseTotal(c, extra, shut, core, id);
    case Delete(core) => DelconnTotal(c, extra, core, id);
  }

  lemma CallbackTotal(c: Conn, e: Event, id: Id)
    requires CurrentOk(c) && StateOk(c) && !Submits(e) && (e.Error? ==> c.pcb.Pcb?)
    ensures Total(Callback(c, e), id) == Total(c, id)
  {
    match e
    case Connected(err) => ConnectedTotal(c, err, id);
    case Sent(core, noRoute, close) => PollTotal(c, core, noRoute, close, id);
    case Poll(core, noRoute, close) => PollTotal(c, core, noRoute, close, id);
    case Error(err) => ErrTotal(c, err, id);
    case SetNonblocking(_) =>
  }

  // ---- States

  ghost predicate ShapeOk(c: Conn) {
    CurrentOk(c) && StateOk(c) && HooksOk(c.pcb)
  }

  lemma WriteMoreShape(c: Conn, core: seq<Answer>, noRoute: bool)
    requires CanWriteMore(c) && CoreErrs(core) && HooksOk(c.pcb)
    requires !c.pcb.listening && !c.pcb.connecting && !c.nbConnect
    ensures ShapeOk(WriteMore(c, core, noRoute)) && WriteMore(c, core, noRoute).next == c.next
  {
    var job := c.current.value.job;
    InvokeIsExact(job.w, job.dontblock, core, noRoute);
    LoopIsExact(job.w, job.dontblock, core);
    OffsetBound(Loop(job.w, job.dontblock, core).w);
  }

  lemma CloseShape(c: Conn, core: CloseCore)
    requires CanClose(c) && HooksOk(c.pcb)
    requires c.pcb.listening ==> c.current.value.job.shut == Shut(true, true)
    requires c.nbConnect || c.pcb.connecting ==> core.err == OK && FullClose(c.current.value.job.shut, core)
    ensures ShapeOk(CloseInternal(c, core)) && CloseInternal(c, core).next == c.next
  {
  }

  lemma AckShape(c: Conn, id: Id, err: Err)
    requires ShapeOk(c)
    ensures ShapeOk(Ack(c, id, err))
  {
  }

  lemma NextShape(c: Conn)
    requires ShapeOk(c)
    ensures ShapeOk(Numbered(c))
  {
  }

  lemma ConnectShape(c: Conn, id: Id, tcpErr: Err)
    requires ShapeOk(c)
    ensures ShapeOk(DoConnect(c, id, tcpErr)) && DoConnect(c, id, tcpErr).next == c.next
  {
    var r := ConnectReply(c, id, tcpErr);
    if r.err.Some? { AckShape(r.conn, id, r.err.value); }
  }

  lemma ListenShape(c: Conn, id: Id, closed: bool, listenErr: Err, mboxErr: Err)
    requires ShapeOk(c)
    ensures var r := DoListen(c, id, closed, listenErr, mboxErr); ShapeOk(r) && r.next == c.next
  {
    var r := ListenReply(c, closed, listenErr, mboxErr);
    AckShape(r.0, id, r.1);
  }

  lemma ErrShape(c: Conn, err: Err)
    requires ShapeOk(c)
    ensures ShapeOk(ErrTcp(c, err)) && ErrTcp(c, err).next == c.next
  {
    var r := ErrTcp(c, err);
    assert r.state == NONE && r.pcb == Gone;
    assert r.current.None?;
  }

  lemma DoWriteShape(c: Conn, id: Id, vectors: seq<seq<byte>>, dontblock: bool, core: seq<Answer>, noRoute: bool)
    requires ShapeOk(c) && vectors != [] && Flatten(vectors) != [] && CoreErrs(core)
    ensures var r := DoWrite(c, id, vectors, dontblock, core, noRoute); ShapeOk(r) && r.next == c.next
  {
    if c.pendingErr == OK && c.state == NONE && c.pcb.Pcb? {
      BeginConsistent(vectors);
      var msg := Msg(id, Job.Writing(Begin(vectors), dontblock || c.nonblocking));
      WriteMoreShape(c.(state := WRITE, current := Some(msg)), core, noRoute);
    }
  }

  lemma DoCloseShape(c: Conn, id: Id, shut: Shut, core: CloseCore)
    requires ShapeOk(c) && c.state != CLOSE
    ensures ShapeOk(DoClose(c, id, shut, core)) && DoClose(c, id, shut, core).next == c.next
  {
    if c.pcb.Pcb? && (c.state == NONE || (c.state == LISTEN && shut == Shut(true, true))) {
      CloseShape(c.(state := CLOSE, current := Some(Msg(id, Closing(shut, CLOSE_POLLS)))), core);
    }
  }

  lemma DelconnShape(c: Conn, id: Id, core: CloseCore)
    requires ShapeOk(c)
    ensures ShapeOk(DoDelconn(c, id, core)) && DoDelconn(c, id, core).next == c.next
  {
    if c.current.None? && c.pcb.Pcb? {
      var answer := if c.state == CONNECT then core.(err := OK) else core;
      CloseShape(c.(state := CLOSE, current := Some(Msg(id, Closing(Shut(true, true), CLOSE_POLLS)))), answer);
    }
  }

  lemma PollShape(c: Conn, core: seq<Answer>, noRoute: bool, close: CloseCore)
    requires ShapeOk(c) && CoreErrs(core)
    ensures ShapeOk(PollTcp(c, core, noRoute, close)) && PollTcp(c, core, noRoute, close).next == c.next
    ensures ShapeOk(SentTcp(c, core, noRoute, close)) && SentTcp(c, core, noRoute, close).next == c.next
  {
    if c.state == WRITE {
      WriteMoreShape(c, core, noRoute);
    } else if c.state == CLOSE {
      var job := c.current.value.job;
      var polled := if job.pollsLeft > 0 then job.(pollsLeft := job.pollsLeft - 1) else job;
      CloseShape(c.(current := Some(c.current.value.(job := polled))), close);
      CloseShape(c, close);
    }
  }

  lemma SubmitShape(c: Conn, id: Id, e: Event)
    requires ShapeOk(c) && Submits(e) && (e.Close? ==> c.state != CLOSE)
    requires e.Write? ==> e.vectors != [] && Flatten(e.vectors) != [] && CoreErrs(e.core)
    ensures ShapeOk(Submit(c, id, e)) && Submit(c, id, e).next == c.next
  {
    match e
    case Connect(tcpErr) => ConnectShape(c, id, tcpErr);
    case Listen(closed, listenErr, mboxErr) => ListenShape(c, id, closed, listenErr, mboxErr);
    case Write(vectors, dontblock, core, noRoute) => DoWriteShape(c, id, vectors, dontblock, core, noRoute);
    case Close(shut, core) => DoCloseShape(c, id, shut, core);
    case Delete(core) => DelconnShape(c, id, core);
  }

  lemma CallbackShape(c: Conn, e: Event)
    requires ShapeOk(c) && !Submits(e) && Allowed(c, e)
    ensures ShapeOk(Callback(c, e)) && Callback(c, e).next == c.next
  {
    match e
    case Connected(err) =>
    case Sent(core, noRoute, close) => PollShape(c, core, noRoute, close);
    case Poll(core, noRoute, close) => PollShape(c, core, noRoute, close);
    case Error(err) => ErrShape(c, err);
    case SetNonblocking(on) =>
  }

  lemma SubmitAcks(c: Conn, e: Event)
    requires CurrentOk(c) && AcksOk(c) && Submits(e) && (e.Write? ==> e.vectors != [] && Flatten(e.vectors) != [])
    requires e.Close? ==> c.state != CLOSE
    requires Submit(Numbered(c), c.next, e).next == c.next + 1
    ensures AcksOk(Submit(Numbered(c), c.next, e))
  {
    var r := Submit(Numbered(c), c.next, e);
    forall id: Id ensures Times(r.acks, id) + Current(r, id) == Is1(id < c.next + 1) {
      SubmitTotal(Numbered(c), c.next, e, id);
      assert Times(c.acks, id) + Current(c, id) == Is1(id < c.next);
    }
  }

  lemma CallbackAcks(c: Conn, e: Event)
    requires CurrentOk(c) && StateOk(c) && AcksOk(c) && !Submits(e) && (e.Error? ==> c.pcb.Pcb?)
    requires Callback(c, e).next == c.next
    ensures AcksOk(Callback(c, e))
  {
    var r := Callback(c, e);
    forall id: Id ensures Times(r.acks, id) + Current(r, id) == Is1(id < c.next) {
      CallbackTotal(c, e, id);
      assert Times(c.acks, id) + Current(c, id) == Is1(id < c.next);
    }
  }

  lemma SubmitInv(c: Conn, e: Event)
    requires Inv(c) && Submits(e) && (e.Close? ==> c.state != CLOSE)
    requires e.Write? ==> e.vectors != [] && Flatten(e.vectors) != [] && CoreErrs(e.core)
    ensures Inv(Submit(Numbered(c), c.next, e))
  {
    NextShape(c);
    SubmitShape(Numbered(c), c.next, e);
    SubmitAcks(c, e);
  }

  lemma CallbackInv(c: Conn, e: Event)
    requires Inv(c) && !Submits(e) && Allowed(c, e)
    ensures Inv(Callback(c, e))
  {
    CallbackShape(c, e);
    CallbackAcks(c, e);
  }

  function Step(c: Conn, e: Event): (r: Conn)
    requires Inv(c) && Allowed(c, e)
    ensures Inv(r)
  {
    if Submits(e) then
      SubmitInv(c, e);
      Submit(Numbered(c), c.next, e)
    else
      CallbackInv(c, e);
      Callback(c, e)
  }

  // ---- Runs

  ghost predicate AllowedRun(c: Conn, events: seq<Event>)
    requires Inv(c)
    decreases |events|
  {
    events == [] || (Allowed(c, events[0]) && AllowedRun(Step(c, events[0]), events[1..]))
  }

  ghost function Run(c: Conn, events: seq<Event>): (r: Conn)
    requires Inv(c) && AllowedRun(c, events)
    ensures Inv(r)
    decreases |events|
  {
    if events == [] then c else Run(Step(c, events[0]), events[1..])
  }

  lemma FreshInv()
    ensures Inv(FRESH)
  {
  }

  /** Over any run every message ever submitted has been acknowledged exactly once, unless
      it is the current message, which has not been yet; and `current_msg` is set exactly in
      the states that have something under way. */
  lemma AcknowledgedExactlyOnce(start: Conn, events: seq<Event>, id: Id)
    requires start == FRESH && Inv(start) && AllowedRun(start, events)
    ensures var c := Run(start, events);
      && Times(c.acks, id) == Is1(id < c.next && !(c.current.Some? && c.current.value.id == id))
      && (c.current.Some? ==> c.current.value.id < c.next)
      && (c.current.Some? <==> c.state == WRITE || c.state == CLOSE || (c.state == CONNECT && !c.nbConnect))
  {
    var c := Run(start, events);
    assert Times(c.acks, id) + Current(c, id) == Is1(id < c.next);
    if c.current.Some? {
      assert Times(c.acks, c.current.value.id) + Current(c, c.current.value.id) == Is1(c.current.value.id < c.next);
    }
  }

  // ---- Close

  function Polls(events: seq<Event>): nat {
    if events == [] then 0 else Is1(events[0].Poll?) + Polls(events[1..])
  }

  /** Logs only grow. */
  predicate Grown(c: Conn, d: Conn) {
    c.acks <= d.acks && c.written <= d.written
  }

  /** One attempt at closing that does not complete it leaves it as it was, and only while
      it may still be polled. */
  lemma AttemptOrDone(c: Conn, core: CloseCore)
    requires CanClose(c)
    ensures Grown(c, CloseInternal(c, core))
    ensures var r := CloseInternal(c, core);
      (r.current.None? && r.state == NONE) || (r.current == c.current && r.state == CLOSE
          && c.current.value.job.pollsLeft > 0)
  {
  }

  /** What an event does to a close in progress: it completes it, or a poll uses up one of
      the polls left, or the close goes on unchanged. */
  lemma ClosingSubmit(c: Conn, e: Event)
    requires Inv(c) && Allowed(c, e) && c.state == CLOSE && Submits(e)
    ensures Step(c, e).current == c.current && Step(c, e).state == CLOSE
  {
  }

  lemma ClosingCallback(c: Conn, e: Event)
    requires Inv(c) && Allowed(c, e) && c.state == CLOSE && !Submits(e)
    ensures var r, job := Callback(c, e), c.current.value.job;
      r.current.None? || (r.state == CLOSE && r.current.Some? && r.current.value.id == c.current.value.id
        && r.current.value.job == job.(pollsLeft := if e.Poll? then job.pollsLeft - 1 else job.pollsLeft)
        && (e.Poll? ==> job.pollsLeft > 1))
  {
    if e.Sent? {
      AttemptOrDone(c, e.closeCore);
    } else if e.Poll? {
      var job := c.current.value.job;
      var polled := if job.pollsLeft > 0 then job.(pollsLeft := job.pollsLeft - 1) else job;
      AttemptOrDone(c.(current := Some(c.current.value.(job := polled))), e.closeCore);
    }
  }

  /** A message that is not the current one does not become it again. */
  lemma SubmitStays(c: Conn, e: Event, id: Id)
    requires ShapeOk(c) && Submits(e) && Allowed(c, e)
    ensures var r := Submit(Numbered(c), c.next, e);
      r.next >= c.next && (id < c.next && Current(c, id) == 0 ==> Current(r, id) == 0)
  {
    NextShape(c);
    SubmitShape(Numbered(c), c.next, e);
    SubmitCurrent(Numbered(c), c.next, e);
  }

  lemma CallbackStays(c: Conn, e: Event, id: Id)
    requires ShapeOk(c) && !Submits(e) && Allowed(c, e)
    ensures var r := Callback(c, e); r.next >= c.next && (Current(c, id) == 0 ==> Current(r, id) == 0)
  {
    CallbackShape(c, e);
    CallbackCurrent(c, e);
  }

  predicate SameOrNone(before: Option<Msg>, after: Option<Msg>) {
    after.None? || (before.Some? && before.value.id == after.value.id)
  }

  lemma WriteMoreCurrent(c: Conn, core: seq<Answer>, noRoute: bool)
    requires CanWriteMore(c)
    ensures SameOrNone(c.current, WriteMore(c, core, noRoute).current) && Grown(c, WriteMore(c, core, noRoute))
  {
  }

  lemma DoWriteCurrent(c: Conn, id: Id, vectors: seq<seq<byte>>, dontblock: bool, core: seq<Answer>, noRoute: bool)
    requires CurrentOk(c) && vectors != [] && Flatten(vectors) != []
    ensures var r := DoWrite(c, id, vectors, dontblock, core, noRoute);
      Grown(c, r) && (SameOrNone(c.current, r.current) || r.current.value.id == id)
  {
    if c.pendingErr == OK && c.state == NONE && c.pcb.Pcb? {
      BeginConsistent(vectors);
      var msg := Msg(id, Job.Writing(Begin(vectors), dontblock || c.nonblocking));
      WriteMoreCurrent(c.(state := WRITE, current := Some(msg)), core, noRoute);
    }
  }

  lemma DoCloseCurrent(c: Conn, id: Id, shut: Shut, core: CloseCore)
    requires CurrentOk(c) && c.state != CLOSE
    ensures var r := DoClose(c, id, shut, core);
      Grown(c, r) && (SameOrNone(c.current, r.current) || r.current.value.id == id)
  {
    if c.pcb.Pcb? && c.current.None? {
      AttemptOrDone(c.(state := CLOSE, current := Some(Msg(id, Closing(shut, CLOSE_POLLS)))), core);
    }
  }

  lemma DelconnCurrent(c: Conn, id: Id, core: CloseCore)
    requires CurrentOk(c)
    ensures var r := DoDelconn(c, id, core);
      Grown(c, r) && (SameOrNone(c.current, r.current) || r.current.value.id == id)
  {
    if c.pcb.Pcb? && c.current.None? {
      var answer := if c.state == CONNECT then core.(err := OK) else core;
      AttemptOrDone(c.(state := CLOSE, current := Some(Msg(id, Closing(Shut(true, true), CLOSE_POLLS)))), answer);
    }
  }

  lemma SubmitCurrent(c: Conn, id: Id, e: Event)
    requires CurrentOk(c) && Submits(e) && (e.Write? ==> e.vectors != [] && Flatten(e.vectors) != [])
    requires e.Close? ==> c.state != CLOSE
    ensures var r := Submit(c, id, e);
      Grown(c, r) && (SameOrNone(c.current, r.current) || r.current.value.id == id)
  {
    match e
    case Connect(_) =>
    case Listen(_, _, _) =>
    case Write(vectors, dontblock, core, noRoute) => DoWriteCurrent(c, id, vectors, dontblock, core, noRoute);
    case Close(shut, core) => DoCloseCurrent(c, id, shut, core);
    case Delete(core) => DelconnCurrent(c, id, core);
  }

  lemma CallbackCurrent(c: Conn, e: Event)
    requires CurrentOk(c) && StateOk(c) && !Submits(e)
    ensures SameOrNone(c.current, Callback(c, e).current) && Grown(c, Callback(c, e))
  {
    match e
    case Sent(core, noRoute, close) =>
      if c.state == WRITE { WriteMoreCurrent(c, core, noRoute); }
      else if c.state == CLOSE { AttemptOrDone(c, close); }
    case Poll(core, noRoute, close) =>
      if c.state == WRITE { WriteMoreCurrent(c, core, noRoute); }
      else if c.state == CLOSE {
        var job := c.current.value.job;
        var polled := if job.pollsLeft > 0 then job.(pollsLeft := job.pollsLeft - 1) else job;
        AttemptOrDone(c.(current := Some(c.current.value.(job := polled))), close);
      }
    case _ =>
  }

  lemma RunStep(c: Conn, events: seq<Event>)
    requires Inv(c) && AllowedRun(c, events) && events != []
    ensures Run(c, events) == Run(Step(c, events[0]), events[1..])
  {
  }

  lemma StepStays(c: Conn, e: Event, id: Id, d: Conn)
    requires Inv(c) && Allowed(c, e) && d == Step(c, e) && id < c.next && Current(c, id) == 0
    ensures id < d.next && Current(d, id) == 0
  {
    if Submits(e) { SubmitStays(c, e, id); } else { CallbackStays(c, e, id); }
  }

  lemma {:induction false} NeverAgain(c: Conn, events: seq<Event>, id: Id)
    requires Inv(c) && AllowedRun(c, events) && id < c.next && Current(c, id) == 0
    ensures Times(Run(c, events).acks, id) == 1
    decreases |events|
  {
    if events == [] {
      assert Times(c.acks, id) + Current(c, id) == Is1(id < c.next);
    } else {
      var d := Step(c, events[0]);
      StepStays(c, events[0], id, d);
      NeverAgain(d, events[1..], id);
      RunStep(c, events);
    }
  }

  /** A pending close is acknowledged after at most its initial number of poll callbacks,
      whatever else happens in between and even if the core never finds the memory. */
  lemma {:induction false} CloseCompletes(c: Conn, events: seq<Event>)
    requires Inv(c) && AllowedRun(c, events) && c.state == CLOSE
    requires Polls(events) > 0 && Polls(events) >= c.current.value.job.pollsLeft
    ensures Times(Run(c, events).acks, c.current.value.id) == 1
    decreases |events|
  {
    var id, e := c.current.value.id, events[0];
    assert Times(c.acks, id) + Current(c, id) == Is1(id < c.next);
    RunStep(c, events);
    var d := Step(c, e);
    if Submits(e) {
      ClosingSubmit(c, e);
      SubmitStays(c, e, id);
    } else {
      ClosingCallback(c, e);
      CallbackStays(c, e, id);
    }
    if Current(d, id) == 1 {
      CloseCompletes(d, events[1..]);
    } else {
      NeverAgain(d, events[1..], id);
    }
  }

  // ---- Write

  /** Until a write is acknowledged nothing else is written; its bytes go out in order. */
  lemma WriteMoreWrites(c: Conn, core: seq<Answer>, noRoute: bool) returns (err: Err, n: nat)
    requires CanWriteMore(c) && CoreErrs(core) && !c.current.value.job.dontblock
    ensures var r, m := WriteMore(c, core, noRoute), c.current.value;
      var all, from := Flatten(m.job.w.vectors), m.job.w.offset;
      && from <= n <= |all| && r.written == c.written + all[from..n]
      && if r.current.Some? then
           && r.acks == c.acks && r.state == WRITE && r.current.value.id == m.id
           && r.current.value.job.Writing? && r.current.value.job.w.vectors == m.job.w.vectors
           && r.current.value.job.w.offset == n
         else r.acks == c.acks + [(m.id, err)] && (err == OK ==> n == |all|)
  {
    var job := c.current.value.job;
    InvokeIsExact(job.w, job.dontblock, core, noRoute);
    var r := Invoke(job.w, job.dontblock, core, noRoute);
    n := r.w.offset;
    err := if r.done.Some? then r.done.value else OK;
  }

  lemma {:induction false} RunGrows(c: Conn, events: seq<Event>)
    requires Inv(c) && AllowedRun(c, events)
    ensures Grown(c, Run(c, events))
    decreases |events|
  {
    if events != [] {
      if Submits(events[0]) {
        SubmitCurrent(Numbered(c), c.next, events[0]);
      } else {
        CallbackCurrent(c, events[0]);
      }
      RunGrows(Step(c, events[0]), events[1..]);
    }
  }

  /** Another message submitted during a write is turned away without touching it. */
  lemma WritingSubmit(c: Conn, e: Event)
    requires Inv(c) && Allowed(c, e) && c.state == WRITE && Submits(e)
    ensures var r := Step(c, e);
      && r.state == WRITE && r.current == c.current && r.written == c.written
      && exists err :: r.acks == c.acks + [(c.next, err)]
  {
    var r := Submit(Numbered(c), c.next, e);
    assert r.acks == c.acks + [r.acks[|r.acks| - 1]];
  }

  /** The bytes of `m` up to `n` went out right after `c`, and all of them if it was
      acknowledged with OK by the time of `d`. */
  ghost predicate Delivered(c: Conn, m: Msg, d: Conn, n: nat) {
    && m.job.Writing?
    && var all, from := Flatten(m.job.w.vectors), m.job.w.offset;
    && from <= n <= |all| && c.written + all[from..n] <= d.written
    && ((m.id, OK) in d.acks ==> n == |all|)
  }

  lemma {:induction false} NoAck(acks: seq<(Id, Err)>, id: Id, err: Err)
    requires Times(acks, id) == 0
    ensures (id, err) !in acks
  {
    if acks != [] {
      NoAck(acks[1..], id, err);
    }
  }

  lemma {:induction false} HasAck(acks: seq<(Id, Err)>, k: nat)
    requires k < |acks|
    ensures Times(acks, acks[k].0) >= 1
  {
    if k > 0 {
      HasAck(acks[1..], k - 1);
    }
  }

  lemma {:induction false} AckedOnceWith(acks: seq<(Id, Err)>, before: seq<(Id, Err)>, id: Id, err: Err)
    requires before + [(id, err)] <= acks && Times(acks, id) <= 1
    ensures forall other :: (id, other) in acks ==> other == err
  {
    assert acks == [acks[0]] + acks[1..];
    if before == [] {
      assert acks[0] == (id, err);
      forall other | (id, other) in acks ensures other == err {
        NoAck(acks[1..], id, other);
      }
    } else {
      assert acks[0] == before[0];
      assert before[1..] + [(id, err)] == (before + [(id, err)])[1..];
      AckedOnceWith(acks[1..], before[1..], id, err);
      assert acks[1..][|before| - 1] == (id, err);
      HasAck(acks[1..], |before| - 1);
      assert before[0].0 != id;
    }
  }

  /** A write that blocks delivers: over any run of callbacks and of other messages, what
      tcp_write accepts next are the bytes still to be written, in order and nothing in
      between, and if the write is acknowledged with OK, all of them have been accepted. */
  lemma {:induction false} BlockedWriteDelivers(c: Conn, events: seq<Event>)
    requires Inv(c) && AllowedRun(c, events) && c.state == WRITE
    ensures exists n :: Delivered(c, c.current.value, Run(c, events), n)
    decreases |events|
  {
    if events == [] {
      NothingDelivered(c);
      assert Delivered(c, c.current.value, Run(c, events), c.current.value.job.w.offset);
    } else {
      var e, d, rest := events[0], Step(c, events[0]), events[1..];
      RunStep(c, events);
      var err, n := WritingStep(c, e, d);
      if d.state == WRITE {
        BlockedWriteDelivers(d, rest);
        var k :| Delivered(d, d.current.value, Run(d, rest), k);
        StillDelivered(c, d, Run(d, rest), k);
      } else {
        FailedWrite(c, d, rest, err, n);
      }
    }
  }

  lemma NothingDelivered(c: Conn)
    requires Inv(c) && c.state == WRITE
    ensures Delivered(c, c.current.value, c, c.current.value.job.w.offset)
  {
    var m := c.current.value;
    assert Times(c.acks, m.id) + Current(c, m.id) == Is1(m.id < c.next);
    NoAck(c.acks, m.id, OK);
    OffsetBound(m.job.w);
    var from := m.job.w.offset;
    assert c.written + Flatten(m.job.w.vectors)[from..from] == c.written;
  }

  /** From `c` to `d` the write has gone on, with the next bytes written. */
  predicate GoneOn(c: Conn, d: Conn)
    requires c.current.Some? && c.current.value.job.Writing?
  {
    && d.current.Some? && d.current.value.job.Writing? && d.current.value.id == c.current.value.id
    && var w, w' := c.current.value.job.w, d.current.value.job.w;
    && w'.vectors == w.vectors && w.offset <= w'.offset <= |Flatten(w.vectors)|
    && d.written == c.written + Flatten(w.vectors)[w.offset..w'.offset]
  }

  /** Or it has been acknowledged with `err`, after writing up to `n`. */
  predicate GivenUp(c: Conn, d: Conn, err: Err, n: nat)
    requires c.current.Some? && c.current.value.job.Writing?
  {
    var m := c.current.value;
    var all, from := Flatten(m.job.w.vectors), m.job.w.offset;
    && from <= n <= |all| && d.acks == c.acks + [(m.id, err)] && d.written == c.written + all[from..n]
    && (err == OK ==> n == |all|)
  }

  lemma WritingStep(c: Conn, e: Event, d: Conn) returns (err: Err, n: nat)
    requires Inv(c) && Allowed(c, e) && c.state == WRITE && d == Step(c, e)
    ensures if d.state == WRITE then GoneOn(c, d) else GivenUp(c, d, err, n)
  {
    var m := c.current.value;
    var all, from := Flatten(m.job.w.vectors), m.job.w.offset;
    err, n := OK, from;
    OffsetBound(m.job.w);
    assert c.written + all[from..from] == c.written;
    if Submits(e) {
      WritingSubmit(c, e);
    } else if e.Error? {
      err := e.err;
    } else {
      err, n := WriteMoreWrites(c, e.core, e.noRoute);
    }
  }

  lemma FailedWrite(c: Conn, d: Conn, rest: seq<Event>, err: Err, n: nat)
    requires CanWriteMore(c) && Inv(d) && AllowedRun(d, rest) && GivenUp(c, d, err, n)
    ensures Delivered(c, c.current.value, Run(d, rest), n)
  {
    var m, end := c.current.value, Run(d, rest);
    RunGrows(d, rest);
    assert Times(end.acks, m.id) + Current(end, m.id) == Is1(m.id < end.next);
    AckedOnceWith(end.acks, c.acks, m.id, err);
  }

  lemma StillDelivered(c: Conn, d: Conn, end: Conn, n: nat)
    requires CanWriteMore(c) && GoneOn(c, d) && Delivered(d, d.current.value, end, n)
    ensures Delivered(c, c.current.value, end, n)
  {
    var w := d.current.value.job.w;
    var all, from := Flatten(w.vectors), c.current.value.job.w.offset;
    assert all[from..w.offset] + all[w.offset..n] == all[from..n];
    assert (c.written + all[from..w.offset]) + all[w.offset..n] == c.written + (all[from..w.offset] + all[w.offset..n]);
  }
}
