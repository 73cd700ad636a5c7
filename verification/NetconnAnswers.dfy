/** What the calls of a netconn are answered: connect, listen, write, close and delete over
    whole runs of NetconnSpec. */
module NetconnAnswers {
  import opened Common
  import opened NetconnSpec
  import opened VectorWriter
  import NetconnClose

  // ---- One answer to a message

  /** A message that has been acknowledged gets no other answer. */
  lemma OnlyAnswer(c: Conn, d: Conn, events: seq<Event>, id: Id, err: Err)
    requires Inv(d) && AllowedRun(d, events) && d.acks == c.acks + [(id, err)]
    ensures forall other :: (id, other) in NetconnSpec.Run(d, events).acks <==> other == err
  {
    var end := NetconnSpec.Run(d, events);
    RunGrows(d, events);
    assert end.acks[|c.acks|] == (id, err);
    assert Times(end.acks, id) + Current(end, id) == Is1(id < end.next);
    AckedOnceWith(end.acks, c.acks, id, err);
  }

  /** The current message has no answer yet. */
  lemma NoAnswer(c: Conn)
    requires Inv(c) && c.current.Some?
    ensures forall err :: (c.current.value.id, err) !in c.acks
  {
    var id := c.current.value.id;
    assert Times(c.acks, id) + Current(c, id) == Is1(id < c.next);
    forall err ensures (id, err) !in c.acks {
      NoAck(c.acks, id, err);
    }
  }

  /** The events that settle a pending connect: tcp_connect's callback, or the connection fails. */
  predicate Settles(e: Event) {
    e.Connected? || e.Error?
  }

  /** The answer to a message that waits for the first event of some kind: the error that
      event carries, if there is one. */
  function FirstError(events: seq<Event>): (r: Option<Err>) {
    if events == [] then None
    else if Settles(events[0]) then Some(events[0].err)
    else FirstError(events[1..])
  }

  ghost predicate AwaitsCore(c: Conn) {
    Inv(c) && c.state == CONNECT && c.current.Some?
  }

  lemma ConnectStep(c: Conn, e: Event, d: Conn)
    requires AwaitsCore(c) && Allowed(c, e) && d == Step(c, e)
    ensures if Settles(e) then d.acks == c.acks + [(c.current.value.id, e.err)]
            else d.state == CONNECT && d.current == c.current
  {
  }

  /** A blocking connect waits for its callback or for the connection to fail, and is answered
      with the error that the first of them carries: it succeeds if and only if that is the
      callback reporting success. */
  lemma {:induction false} ConnectReports(c: Conn, events: seq<Event>)
    requires AwaitsCore(c) && AllowedRun(c, events)
    ensures var final := NetconnSpec.Run(c, events);
      forall err :: (c.current.value.id, err) in final.acks <==> FirstError(events) == Some(err)
    decreases |events|
  {
    if events == [] {
      NoAnswer(c);
    } else {
      var e, d, rest := events[0], Step(c, events[0]), events[1..];
      RunStep(c, events);
      ConnectStep(c, e, d);
      if Settles(e) {
        OnlyAnswer(c, d, rest, c.current.value.id, e.err);
      } else {
        ConnectReports(d, rest);
      }
    }
  }

  // ---- Answers given at once

  /** The answer a submitted message gets at once from the state of the netconn; None if it is
      carried out first. */
  function Turned(c: Conn, e: Event): Option<Err>
    requires Submits(e)
  {
    match e
    case Connect(tcpErr) =>
      if c.pcb.Gone? then Some(CLSD)
      else if c.state == CONNECT then Some(ALREADY)
      else if c.state != NONE then Some(ISCONN)
      else if tcpErr != OK then Some(tcpErr)
      else if c.nonblocking then Some(INPROGRESS)
      else None
    case Listen(closed, listenErr, mboxErr) =>
      if c.pcb.Gone? || c.state in {WRITE, CONNECT, CLOSE} then Some(CONN)
      else if c.state == LISTEN then Some(OK)
      else if !closed then Some(VAL)
      else if listenErr != OK then Some(listenErr)
      else Some(mboxErr)
    case Write(_, _, _, _) =>
      if c.pendingErr != OK then Some(c.pendingErr)
      else if c.state != NONE then Some(INPROGRESS)
      else if c.pcb.Gone? then Some(CONN)
      else None
    case Close(shut, _) =>
      if c.pcb.Gone? || c.state == CONNECT || (c.state == LISTEN && !(shut.rd && shut.wr)) then Some(CONN)
      else if c.state == WRITE then Some(INPROGRESS)
      else None
    case Delete(_) =>
      if c.state in {WRITE, CLOSE} || (c.state == CONNECT && c.current.Some?) then Some(INPROGRESS)
      else if c.pcb.Gone? then Some(OK)
      else None
  }

  lemma TurnedStep(c: Conn, e: Event, d: Conn)
    requires Inv(c) && Allowed(c, e) && Submits(e) && Turned(c, e).Some? && d == Step(c, e)
    ensures d.acks == c.acks + [(c.next, Turned(c, e).value)]
    ensures d.current == c.current && d.written == c.written
    ensures e.Write? || e.Close? || e.Delete? ==> d.state == c.state && d.pcb == c.pcb
  {
  }

  /** tcp_connect is under way from then on exactly if it has been called and has answered
      ERR_OK; blocking or not, it is for the callback, or for a failure, to end it. */
  lemma ConnectStarts(c: Conn, tcpErr: Err, d: Conn)
    requires Inv(c) && Allowed(c, Connect(tcpErr)) && d == Step(c, Connect(tcpErr))
    ensures var started := c.pcb.Pcb? && c.state == NONE && tcpErr == OK;
      if started then
        && d.state == CONNECT && d.pcb == SET_UP.(connecting := true) && (d.nbConnect <==> c.nonblocking)
        && (d.current == if c.nonblocking then None else Some(Msg(c.next, Connecting)))
      else d.state == c.state && d.current == c.current && (d.pcb == c.pcb || (c.state == NONE && d.pcb == SET_UP))
  {
  }

  /** Over any run, a message that is turned away has that one answer and leaves what is under
      way alone. */
  lemma TurnedAway(c: Conn, events: seq<Event>)
    requires Inv(c) && AllowedRun(c, events) && events != [] && Submits(events[0]) && Turned(c, events[0]).Some?
    ensures forall err :: (c.next, err) in NetconnSpec.Run(c, events).acks <==> Turned(c, events[0]) == Some(err)
    ensures Step(c, events[0]).current == c.current && Step(c, events[0]).written == c.written
    ensures events[0].Write? || events[0].Close? || events[0].Delete? ==>
      Step(c, events[0]).state == c.state && Step(c, events[0]).pcb == c.pcb
  {
    var d := Step(c, events[0]);
    TurnedStep(c, events[0], d);
    RunStep(c, events);
    OnlyAnswer(c, d, events[1..], c.next, Turned(c, events[0]).value);
  }

  /** netconn_connect from its submission on: turned away, or answered by the first event that
      settles it. So it reports success only if the callback has. */
  lemma ConnectAnswers(c: Conn, tcpErr: Err, events: seq<Event>)
    requires Inv(c) && AllowedRun(c, [Connect(tcpErr)] + events)
    ensures var answer := if Turned(c, Connect(tcpErr)).Some? then Turned(c, Connect(tcpErr)) else FirstError(events);
      forall err :: (c.next, err) in NetconnSpec.Run(c, [Connect(tcpErr)] + events).acks <==> answer == Some(err)
  {
    var run := [Connect(tcpErr)] + events;
    assert run[0] == Connect(tcpErr) && run[1..] == events;
    if Turned(c, run[0]).Some? {
      TurnedAway(c, run);
    } else {
      RunStep(c, run);
      var d := Step(c, run[0]);
      assert d.state == CONNECT && d.current.Some? && d.current.value.id == c.next;
      ConnectReports(d, events);
    }
  }

  /** When a connect is settled the netconn is idle: connected with all its callbacks, or as
      tcp_connect had it set up, or without a pcb and with the error to report. */
  lemma ConnectEnds(c: Conn, e: Event, d: Conn)
    requires Inv(c) && c.state == CONNECT && Settles(e) && Allowed(c, e) && d == Step(c, e)
    ensures d.state == NONE && d.current.None? && !d.nbConnect
    ensures e == Connected(OK) ==> d.pcb == SET_UP && d.pendingErr == c.pendingErr
    ensures e.Connected? && e.err != OK ==> d.pcb == c.pcb.(connecting := false) && d.pendingErr == c.pendingErr
    ensures e.Error? ==> d.pcb.Gone? && d.pendingErr == e.err
    ensures d.acks == c.acks <==> c.nbConnect
  {
  }

  /** netconn_listen is answered with ERR_OK exactly if the netconn listens from then on; if
      not, it is as it was, or without its pcb if the accept mailbox could not be made. */
  lemma ListenAnswers(c: Conn, e: Event, d: Conn)
    requires Inv(c) && e.Listen? && Allowed(c, e) && d == Step(c, e)
    ensures d.acks == c.acks + [(c.next, d.acks[|c.acks|].1)]
    ensures d.acks[|c.acks|].1 == OK <==> d.state == LISTEN
    ensures d.state == LISTEN ==> d.pcb.Pcb? && d.pcb.listening
    ensures d.state == LISTEN <==>
      c.state == LISTEN || (c.state == NONE && c.pcb.Pcb? && e.closed && e.listenErr == OK && e.mboxErr == OK)
    ensures d.state != LISTEN ==> d.state == c.state && (d.pcb == c.pcb || d.pcb.Gone?)
    ensures d.pcb.Gone? <==> c.pcb.Gone? || (c.state == NONE && e.closed && e.listenErr == OK && e.mboxErr != OK)
  {
  }

  // ---- Writes

  /** The invocations of do_writemore that a run of callbacks makes, until the connection fails. */
  function Calls(events: seq<Event>): seq<Call> {
    if events == [] || events[0].Error? then []
    else if events[0].Sent? || events[0].Poll? then [Call(events[0].core, events[0].noRoute)] + Calls(events[1..])
    else Calls(events[1..])
  }

  /** The first failure of the connection in a run. */
  function Failure(events: seq<Event>): Option<Err> {
    if events == [] then None else if events[0].Error? then Some(events[0].err) else Failure(events[1..])
  }

  lemma {:induction false} CallsAreGood(c: Conn, events: seq<Event>)
    requires Inv(c) && AllowedRun(c, events)
    ensures GoodCalls(Calls(events))
    decreases |events|
  {
    if events != [] {
      CallsAreGood(Step(c, events[0]), events[1..]);
    }
  }

  /** The answer to a write: what its invocations come to, or else why the connection failed. */
  function WriteAnswer(end: VectorWriter.Write, events: seq<Event>): Option<Err> {
    if end.Written? then Some(end.err) else Failure(events)
  }

  /** A write that waits is answered with what do_writemore comes to in the invocations that
      the callbacks make of it, or with the error of the connection if that fails first, and
      the bytes those invocations have accepted are what goes out next. */
  lemma {:induction false} PendingWriteReports(c: Conn, events: seq<Event>)
    requires Inv(c) && AllowedRun(c, events) && c.state == WRITE
    ensures GoodCalls(Calls(events))
    ensures var (end, bytes) := VectorWriter.Run(c.current.value.job.w, false, Calls(events));
      var final := NetconnSpec.Run(c, events);
      && c.written + bytes <= final.written
      && forall err :: (c.current.value.id, err) in final.acks <==> WriteAnswer(end, events) == Some(err)
    decreases |events|, 0
  {
    CallsAreGood(c, events);
    RunGrows(c, events);
    if events == [] {
      NoAnswer(c);
    } else {
      var e, d, rest := events[0], Step(c, events[0]), events[1..];
      RunStep(c, events);
      if e.Error? {
        OnlyAnswer(c, d, rest, c.current.value.id, e.err);
      } else if Submits(e) {
        WritingSubmit(c, e);
        PendingWriteReports(d, rest);
      } else {
        assert c.state == WRITE && (e.Sent? || e.Poll?);
        Resumed(c, e.core, e.noRoute, d, rest);
      }
    }
  }

  /** One invocation, and what follows. */
  lemma Resumed(c: Conn, core: seq<Answer>, noRoute: bool, d: Conn, rest: seq<Event>)
    requires CanWriteMore(c) && CoreErrs(core) && d == WriteMore(c, core, noRoute)
    requires Inv(d) && AllowedRun(d, rest) && (d.state == WRITE ==> !d.current.value.job.dontblock)
    ensures GoodCalls([Call(core, noRoute)] + Calls(rest))
    ensures var m := c.current.value;
      var (end, bytes) := VectorWriter.Run(m.job.w, m.job.dontblock, [Call(core, noRoute)] + Calls(rest));
      var final := NetconnSpec.Run(d, rest);
      && c.written + bytes <= final.written
      && forall err :: (m.id, err) in final.acks <==> WriteAnswer(end, rest) == Some(err)
    decreases |rest|, 1
  {
    var m := c.current.value;
    var r := Invoke(m.job.w, m.job.dontblock, core, noRoute);
    CallsAreGood(d, rest);
    RunGrows(d, rest);
    var calls := [Call(core, noRoute)] + Calls(rest);
    assert calls[1..] == Calls(rest);
    assert GoodCalls(calls) by {
      forall k | 0 <= k < |calls| ensures CoreErrs(calls[k].core) {
        assert k > 0 ==> calls[k] == Calls(rest)[k - 1];
      }
    }
    InvokeIsExact(m.job.w, m.job.dontblock, core, noRoute);
    if r.stalled {
      assert rest == [];
      NoAnswer(d);
    } else if r.done.Some? {
      OnlyAnswer(c, d, rest, m.id, r.done.value);
    } else {
      PendingWriteReports(d, rest);
      var later := VectorWriter.Run(r.w, false, Calls(rest));
      Regroup(c.written, r.bytes, later.1);
    }
  }

  /** netconn_write from its submission on: turned away, or answered with what the invocations
      of do_writemore come to, in bytes and error. */
  lemma WriteAnswers(c: Conn, e: Event, events: seq<Event>)
    requires Inv(c) && e.Write? && AllowedRun(c, [e] + events) && Turned(c, e).None?
    ensures Consistent(Begin(e.vectors)) && GoodCalls([Call(e.core, e.noRoute)] + Calls(events))
    ensures var calls := [Call(e.core, e.noRoute)] + Calls(events);
      var (end, bytes) := VectorWriter.Run(Begin(e.vectors), e.dontblock || c.nonblocking, calls);
      var final := NetconnSpec.Run(c, [e] + events);
      && c.written + bytes <= final.written
      && forall err :: (c.next, err) in final.acks <==> WriteAnswer(end, events) == Some(err)
  {
    var run := [e] + events;
    assert run[0] == e && run[1..] == events;
    RunStep(c, run);
    BeginConsistent(e.vectors);
    var msg := Msg(c.next, Job.Writing(Begin(e.vectors), e.dontblock || c.nonblocking));
    var started := Numbered(c).(state := WRITE, current := Some(msg));
    Resumed(started, e.core, e.noRoute, Step(c, e), events);
  }

  // ---- Failed connections

  predicate SomeWrite(events: seq<Event>) {
    events != [] && (events[0].Write? || SomeWrite(events[1..]))
  }

  lemma {:induction false} PendingErrorStays(c: Conn, events: seq<Event>)
    requires Inv(c) && AllowedRun(c, events) && c.pcb.Gone?
    ensures var d := NetconnSpec.Run(c, events);
      d.pcb.Gone? && d.pendingErr == if SomeWrite(events) then OK else c.pendingErr
    decreases |events|
  {
    if events != [] {
      NetconnClose.GoneStep(c, events[0]);
      RunStep(c, events);
      PendingErrorStays(Step(c, events[0]), events[1..]);
    }
  }

  /** After the connection has failed, whatever was under way then, the first write of any run
      is answered with the error of the failure and every later one with ERR_CONN. */
  lemma FailureIsToldOnce(c: Conn, err: Err, events: seq<Event>, write: Event)
    requires Inv(c) && AllowedRun(c, [Error(err)] + events)
    requires write.Write? && Allowed(NetconnSpec.Run(c, [Error(err)] + events), write)
    ensures var d := NetconnSpec.Run(c, [Error(err)] + events);
      Step(d, write).acks == d.acks + [(d.next, if SomeWrite(events) then CONN else err)]
  {
    var run := [Error(err)] + events;
    assert run[0] == Error(err) && run[1..] == events;
    RunStep(c, run);
    PendingErrorStays(Step(c, Error(err)), events);
  }
}
