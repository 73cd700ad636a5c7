/** The netconn of lwip_client/ta/api_msg.c as the TCP/IP thread updates it in place. Each
    method is a handler or a callback of that file, its `assert`s are the LWIP_ASSERTs the
    code makes on the state and on current_msg, and its contract is the function of
    NetconnSpec that the results about whole runs are proved of. */
module Netconn {
  import opened Common
  import opened VectorWriter
  import opened NetconnSpec
  import NetconnClose

  /** A non-blocking write that is short of nothing but space and memory says whether it has
      written anything. */
  lemma ReportsIfShort(c: Conn, core: seq<Answer>, noRoute: bool)
    requires CanWriteMore(c)
    ensures var m := c.current.value;
      m.job.dontblock && m.job.w.offset == 0 && CoreErrs(core) && ShortOnly(core) && !noRoute ==>
        var r := WriteMore(c, core, noRoute);
        r.acks == c.acks + [(m.id, if r.written == c.written then WOULDBLOCK else OK)]
  {
    var job := c.current.value.job;
    if job.dontblock && job.w.offset == 0 && CoreErrs(core) && ShortOnly(core) && !noRoute {
      ShortInvocation(job.w, true, core);
      InvokeIsExact(job.w, true, core, false);
    }
  }

  class TcpNetconn {
    var state: NcState
    var current: Option<Msg>
    var nbConnect: bool
    var nonblocking: bool
    var pendingErr: Err
    var pcb: Pcb
    ghost var orphan: Pcb
    var next: Id
    var acks: seq<(Id, Err)>
    var written: seq<byte>
    var hung: bool

    ghost function View(): Conn
      reads this
    {
      Conn(state, current, nbConnect, nonblocking, pendingErr, pcb, orphan, next, acks, written, hung)
    }

    ghost predicate Valid()
      reads this
    {
      Inv(View())
    }

    constructor ()
      ensures View() == FRESH && Valid()
    {
      state, current, nbConnect, nonblocking, pendingErr := NONE, None, false, false, OK;
      pcb, orphan, next, acks, written, hung := SET_UP, Gone, 0, [], [], false;
      new;
      FreshInv();
    }

    /** sys_sem_signal on the semaphore of a message, with its error set. */
    method Signal(id: Id, err: Err)
      modifies this`acks
      ensures View() == Ack(old(View()), id, err)
    {
      acks := acks + [(id, err)];
    }

    /** The end of an operation on the current message. */
    method Complete(err: Err)
      requires current.Some?
      modifies this`acks, this`current, this`state
      ensures View() == Finish(old(View()), err)
    {
      var id := current.value.id;
      current := None;
      state := NONE;
      Signal(id, err);
    }

    /** lwip_netconn_do_writemore. */
    method DoWriteMore(core: seq<Answer>, noRoute: bool)
      requires CanWriteMore(View())
      modifies this
      ensures View() == WriteMore(old(View()), core, noRoute)
      ensures var job := old(current.value.job);
        job.dontblock && job.w.offset == 0 && CoreErrs(core) && ShortOnly(core) && !noRoute ==>
          acks == old(acks) + [(old(current.value.id), if written == old(written) then WOULDBLOCK else OK)]
    {
      ReportsIfShort(View(), core, noRoute);
      assert state == WRITE && current.Some? && pcb.Pcb?;
      assert current.value.job.w.offset < current.value.job.w.len && current.value.job.w.cnt > 0;
      var msg := current.value;
      var dontblock := msg.job.dontblock;
      var w, bytes, end := WriteLoop(msg.job.w, dontblock, core);
      current := Some(msg.(job := msg.job.(w := w)));
      written := written + bytes;
      var done, stalled := Settle(end, w.offset, w.len, dontblock, noRoute);
      assert Conclude(Out(w, bytes, end), dontblock, noRoute) == Invocation(w, bytes, done, stalled);
      if stalled {
        hung := true;
      } else if done.Some? {
        Complete(done.value);
      }
    }

    /** The part of lwip_netconn_do_writemore after its loop: whether the write is finished,
        and with which error. */
    static method Settle(end: End, offset: nat, len: nat, dontblock: bool, noRoute: bool)
      returns (done: Option<Err>, stalled: bool)
      ensures forall w: Progress, bytes :: w.offset == offset && w.len == len ==>
        Conclude(Out(w, bytes, end), dontblock, noRoute) == Invocation(w, bytes, done, stalled)
    {
      done, stalled := None, false;
      match end {
        case Stalled =>
          stalled := true;
        case NoSpace =>
          done := Some(if offset == 0 then WOULDBLOCK else if noRoute then RTE else OK);
        case Ended(err) =>
          if err == OK {
            if offset == len || dontblock {
              done := Some(OK);
            }
            if noRoute {
              done := Some(RTE);
            }
          } else if err == MEM {
            if noRoute {
              done := Some(RTE);
            } else if dontblock {
              done := Some(if offset == 0 then WOULDBLOCK else OK);
            }
          } else {
            done := Some(err);
          }
      }
    }

    /** The callbacks are taken back before the attempt to close ... */
    method Unhook(shut: Shut, shutClose: bool)
      requires pcb.Pcb?
      modifies this`pcb
      ensures pcb == Unhooked(old(pcb), shut, shutClose)
    {
      if shutClose {
        pcb := pcb.(arg := false);
      }
      if !pcb.listening {
        if shut.wr {
          pcb := pcb.(sent := false);
        }
        if shutClose {
          pcb := pcb.(poll := false, errf := false);
        }
      }
    }

    /** ... and restored if it has to be repeated. */
    method Rehook(shut: Shut)
      requires pcb.Pcb?
      modifies this`pcb
      ensures pcb == Rehooked(old(pcb), shut)
    {
      if shut.wr {
        pcb := pcb.(sent := true);
      }
      pcb := pcb.(poll := true, errf := true, arg := true);
    }

    /** tcp_close or tcp_shutdown has succeeded. */
    method TakenOver(shutClose: bool)
      requires pcb.Pcb?
      modifies this`pcb, this`orphan
      ensures View() == Closed(old(View()), old(pcb), shutClose)
    {
      if shutClose {
        if !pcb.listening {
          orphan := pcb;
        }
        pcb := Gone;
      }
    }

    /** lwip_netconn_do_close_internal. */
    method DoCloseInternal(core: CloseCore)
      requires CanClose(View())
      modifies this
      ensures View() == CloseInternal(old(View()), core)
      ensures !old(pcb.listening) && current.None? ==>
        var shut := old(current.value.job.shut);
        && acks != [] && (acks[|acks| - 1].1 == OK || acks[|acks| - 1].1 == core.err)
        && (pcb.Gone? <==> acks[|acks| - 1].1 == OK && NetconnClose.ShutsBoth(shut, core))
    {
      if !pcb.listening { NetconnClose.AttemptReports(View(), core); }
      assert state == CLOSE && pcb.Pcb? && current.Some?;
      var job := current.value.job;
      var shut := job.shut;
      var shutClose := (shut.rd && shut.wr) || (shut.rd && core.finWait) || (shut.wr && core.rxClosed);
      Unhook(shut, shutClose);
      var err := if pcb.listening then OK else core.err;
      var closeFinished := true;
      if err == OK {
        TakenOver(shutClose);
      } else if err == MEM {
        closeFinished := job.pollsLeft == 0;
        if closeFinished && shutClose {
          pcb := Gone; // tcp_abort
          err := OK;
        }
      }
      if closeFinished {
        Complete(err);
      } else {
        assert !pcb.listening;
        Rehook(shut);
        assert err != OK;
      }
    }

    /** lwip_netconn_do_connect. */
    method HandleConnect(id: Id, tcpErr: Err)
      modifies this
      ensures View() == DoConnect(old(View()), id, tcpErr)
    {
      var err := CLSD;
      if pcb.Pcb? {
        if state == CONNECT {
          err := ALREADY;
        } else if state != NONE {
          err := ISCONN;
        } else {
          pcb := SET_UP;
          err := tcpErr;
          if err == OK {
            pcb := pcb.(connecting := true);
            state := CONNECT;
            nbConnect := nonblocking;
            if nonblocking {
              err := INPROGRESS;
            } else {
              current := Some(Msg(id, Connecting));
              return;
            }
          }
        }
      }
      Signal(id, err);
    }

    /** lwip_netconn_do_connected. */
    method HandleConnected(err: Err)
      requires ShapeOk(View()) && Allowed(View(), Event.Connected(err))
      modifies this
      ensures View() == DoConnected(old(View()), err)
    {
      assert state == CONNECT;
      assert current.Some? || nbConnect;
      var completed := current;
      pcb := if err == OK then SET_UP else pcb.(connecting := false);
      var wasBlocking := !nbConnect;
      nbConnect := false;
      assert (wasBlocking && completed.Some?) || (!wasBlocking && completed.None?);
      current := None;
      state := NONE;
      if wasBlocking {
        Signal(completed.value.id, err);
      }
    }

    /** lwip_netconn_do_listen, up to the acknowledgement. */
    method StartListening(closed: bool, listenErr: Err, mboxErr: Err) returns (err: Err)
      modifies this`state, this`pcb
      ensures var r := ListenReply(old(View()), closed, listenErr, mboxErr);
              err == r.1 && state == r.0.state && pcb == r.0.pcb
    {
      if pcb.Gone? {
        return CONN;
      }
      if state == LISTEN {
        return OK;
      }
      if state != NONE {
        return CONN;
      }
      if !closed {
        return VAL;
      }
      if listenErr != OK {
        return listenErr;
      }
      err := mboxErr;
      if err == OK {
        state := LISTEN;
        pcb := Pcb(true, true, false, false, false, false);
      } else {
        pcb := Gone;
      }
    }

    /** lwip_netconn_do_listen. */
    method HandleListen(id: Id, closed: bool, listenErr: Err, mboxErr: Err)
      modifies this
      ensures View() == DoListen(old(View()), id, closed, listenErr, mboxErr)
    {
      var err := StartListening(closed, listenErr, mboxErr);
      Signal(id, err);
    }

    /** lwip_netconn_do_write. */
    method HandleWrite(id: Id, vectors: seq<seq<byte>>, dontblock: bool, core: seq<Answer>, noRoute: bool)
      requires ShapeOk(View()) && vectors != [] && Flatten(vectors) != []
      modifies this
      ensures View() == DoWrite(old(View()), id, vectors, dontblock, core, noRoute)
    {
      var err := pendingErr;
      pendingErr := OK;
      if err == OK {
        if state != NONE {
          err := INPROGRESS;
        } else if pcb.Pcb? {
          assert current.None?;
          state := WRITE;
          BeginConsistent(vectors);
          current := Some(Msg(id, Job.Writing(Begin(vectors), dontblock || nonblocking)));
          DoWriteMore(core, noRoute);
          return;
        } else {
          err := CONN;
        }
      }
      Signal(id, err);
    }

    /** lwip_netconn_do_close. */
    method HandleClose(id: Id, shut: Shut, core: CloseCore)
      requires ShapeOk(View()) && state != CLOSE
      modifies this
      ensures View() == DoClose(old(View()), id, shut, core)
    {
      var err := CONN;
      if pcb.Pcb? && (shut == Shut(true, true) || state != LISTEN) {
        if state == CONNECT {
          err := CONN;
        } else if state == WRITE {
          err := INPROGRESS;
        } else {
          assert current.None?;
          state := CLOSE;
          current := Some(Msg(id, Closing(shut, CLOSE_POLLS)));
          DoCloseInternal(core);
          return;
        }
      }
      Signal(id, err);
    }

    /** lwip_netconn_do_delconn. */
    method HandleDelconn(id: Id, core: CloseCore)
      requires ShapeOk(View())
      modifies this
      ensures View() == DoDelconn(old(View()), id, core)
    {
      var err := INPROGRESS;
      if !((state != NONE && state != LISTEN && state != CONNECT) || (state == CONNECT && !nbConnect)) {
        assert state != CONNECT || nbConnect;
        err := OK;
        if pcb.Pcb? {
          assert current.None?;
          var answer := if state == CONNECT then core.(err := OK) else core;
          state := CLOSE;
          current := Some(Msg(id, Closing(Shut(true, true), CLOSE_POLLS)));
          DoCloseInternal(answer);
          return;
        }
      }
      Signal(id, err);
    }

    /** poll_tcp. */
    method HandlePoll(core: seq<Answer>, noRoute: bool, close: CloseCore)
      requires ShapeOk(View())
      modifies this
      ensures View() == PollTcp(old(View()), core, noRoute, close)
    {
      if state == WRITE {
        DoWriteMore(core, noRoute);
      } else if state == CLOSE {
        var msg := current.value;
        if msg.job.pollsLeft > 0 {
          current := Some(msg.(job := msg.job.(pollsLeft := msg.job.pollsLeft - 1)));
        }
        DoCloseInternal(close);
      }
    }

    /** sent_tcp. */
    method HandleSent(core: seq<Answer>, noRoute: bool, close: CloseCore)
      requires ShapeOk(View())
      modifies this
      ensures View() == SentTcp(old(View()), core, noRoute, close)
    {
      if state == WRITE {
        DoWriteMore(core, noRoute);
      } else if state == CLOSE {
        DoCloseInternal(close);
      }
    }

    /** err_tcp. */
    method HandleError(err: Err)
      requires ShapeOk(View()) && Allowed(View(), Error(err))
      modifies this
      ensures View() == ErrTcp(old(View()), err)
      ensures pcb.Gone? && pendingErr == err && current.None?
      ensures acks == if old(current).None? then old(acks)
                      else old(acks) + [(old(current).value.id, if old(state) == CLOSE then OK else err)]
    {
      pcb := Gone;
      pendingErr := err;
      var oldState := state;
      state := NONE;
      if oldState == WRITE || oldState == CLOSE || oldState == CONNECT {
        var wasNonblockingConnect := nbConnect;
        nbConnect := false;
        if !wasNonblockingConnect {
          assert current.Some?;
          var id := current.value.id;
          current := None;
          Signal(id, if oldState == CLOSE then OK else err);
        }
      } else {
        assert current.None?;
      }
    }

    /** One event that the environment may cause, whatever it is. */
    method Dispatch(e: Event)
      requires Valid() && Allowed(View(), e)
      modifies this
      ensures Valid() && View() == Step(old(View()), e)
    {
      if Submits(e) {
        DispatchMessage(e);
      } else {
        DispatchCallback(e);
      }
    }

    method DispatchMessage(e: Event)
      requires Valid() && Allowed(View(), e) && Submits(e)
      modifies this
      ensures Valid() && View() == Step(old(View()), e)
    {
      SubmitInv(View(), e);
      Post(e);
    }

    method DispatchCallback(e: Event)
      requires Valid() && Allowed(View(), e) && !Submits(e)
      modifies this
      ensures Valid() && View() == Step(old(View()), e)
    {
      CallbackInv(View(), e);
      Called(e);
    }

    /** A message with the next number arrives. */
    method Post(e: Event)
      requires Valid() && Submits(e) && Allowed(View(), e)
      modifies this
      ensures View() == Submit(Numbered(old(View())), old(next), e)
    {
      NextShape(View());
      ghost var before := View();
      var id := next;
      next := next + 1;
      ghost var numbered := View();
      assert numbered == Numbered(before);
      Handle(id, e);
    }

    /** A message arrives from an application thread. */
    method Handle(id: Id, e: Event)
      requires ShapeOk(View()) && Submits(e) && (e.Close? ==> state != CLOSE)
      requires e.Write? ==> e.vectors != [] && Flatten(e.vectors) != []
      modifies this
      ensures View() == Submit(old(View()), id, e)
    {
      match e
      case Connect(tcpErr) => HandleConnect(id, tcpErr);
      case Listen(closed, listenErr, mboxErr) => HandleListen(id, closed, listenErr, mboxErr);
      case Write(vectors, dontblock, core, noRoute) => HandleWrite(id, vectors, dontblock, core, noRoute);
      case Close(shut, core) => HandleClose(id, shut, core);
      case Delete(core) => HandleDelconn(id, core);
    }

    /** The TCP core calls back. */
    method Called(e: Event)
      requires ShapeOk(View()) && !Submits(e) && Allowed(View(), e)
      modifies this
      ensures View() == Callback(old(View()), e)
    {
      match e
      case Connected(err) => HandleConnected(err);
      case Sent(core, noRoute, close) => HandleSent(core, noRoute, close);
      case Poll(core, noRoute, close) => HandlePoll(core, noRoute, close);
      case Error(err) => HandleError(err);
      case SetNonblocking(on) => nonblocking := on;
    }

    /** Any run of events: the netconn is the one the run of the specification ends in. */
    method RunAll(events: seq<Event>)
      requires Valid() && AllowedRun(View(), events)
      modifies this
      ensures Valid() && View() == NetconnSpec.Run(old(View()), events)
    {
      var left := events;
      while left != []
        invariant Valid() && AllowedRun(View(), left)
        invariant NetconnSpec.Run(View(), left) == NetconnSpec.Run(old(View()), events)
        decreases |left|
      {
        RunStep(View(), left);
        Dispatch(left[0]);
        left := left[1..];
      }
    }
  }
}
