/** How closes end, over whole runs of the netconn of NetconnSpec: with which error they are
    acknowledged, what becomes of the pcb, and which callbacks are left on it.

    An attempt at closing answers ERR_MEM as long as the core cannot queue its FIN, and
    every poll is another attempt; the message counts the polls it still allows. The
    callbacks of a pcb are taken back before an attempt and registered again after one that
    has failed. */
module NetconnClose {
  import opened Common
  import opened NetconnSpec
  import VectorWriter

  const BOTH := Shut(true, true)

  predicate Attempts(e: Event) {
    e.Sent? || e.Poll?
  }

  /** With this attempt both sides of the connection are shut down: the side that it leaves
      alone has been before. */
  predicate ShutsBoth(shut: Shut, core: CloseCore) {
    (shut.rd || core.rxClosed) && (shut.wr || core.finWait) && (shut.rd || shut.wr)
  }

  // ---- A full close

  /** Attempts at closing answer nothing but ERR_OK or ERR_MEM. */
  predicate OkOrMem(e: Event) {
    Attempts(e) ==> e.closeCore.err == OK || e.closeCore.err == MEM
  }

  lemma FullReply(c: Conn, core: CloseCore)
    requires CanClose(c) && c.current.value.job.shut == BOTH && (core.err == OK || core.err == MEM)
    ensures var r := CloseInternal(c, core);
      if r.current.Some? then r.state == CLOSE && r.current == c.current
      else r.acks == c.acks + [(c.current.value.id, OK)] && r.pcb.Gone?
  {
    var r := CloseReply(c, core);
    assert r.conn.acks == c.acks && r.conn.state == CLOSE;
    assert r.err.Some? ==> r.err.value == OK && r.conn.pcb.Gone?;
  }

  /** An event completes a full close with ERR_OK and without its pcb, or leaves it pending. */
  lemma FullCallback(c: Conn, e: Event)
    requires Inv(c) && Allowed(c, e) && !Submits(e) && c.state == CLOSE && c.current.value.job.shut == BOTH
        && OkOrMem(e)
    ensures var r, m := Callback(c, e), c.current.value;
      r.current.None? ==> r.acks == c.acks + [(m.id, OK)] && r.pcb.Gone?
  {
    if e.Sent? {
      FullReply(c, e.closeCore);
    } else if e.Poll? {
      var job := c.current.value.job;
      var polled := if job.pollsLeft > 0 then job.(pollsLeft := job.pollsLeft - 1) else job;
      FullReply(c.(current := Some(c.current.value.(job := polled))), e.closeCore);
    }
  }

  /** A netconn without a pcb never gets one again. */
  lemma GoneStep(c: Conn, e: Event)
    requires Inv(c) && Allowed(c, e) && c.pcb.Gone?
    ensures Step(c, e).pcb.Gone? && Step(c, e).orphan == c.orphan
  {
  }

  lemma {:induction false} GoneForGood(c: Conn, events: seq<Event>)
    requires Inv(c) && AllowedRun(c, events) && c.pcb.Gone?
    ensures Run(c, events).pcb.Gone?
    decreases |events|
  {
    if events != [] {
      GoneStep(c, events[0]);
      GoneForGood(Step(c, events[0]), events[1..]);
      RunStep(c, events);
    }
  }

  lemma AckStays(c: Conn, events: seq<Event>, ack: (Id, Err))
    requires Inv(c) && AllowedRun(c, events) && ack in c.acks
    ensures ack in Run(c, events).acks
  {
    RunGrows(c, events);
  }

  /** The next state of a close, and whether it is still going on. */
  lemma ClosingStep(c: Conn, e: Event, d: Conn)
    requires Inv(c) && Allowed(c, e) && c.state == CLOSE && d == Step(c, e)
    ensures d.current.None? || (
      && d.state == CLOSE && d.current.Some? && d.current.value.id == c.current.value.id
      && d.current.value.job.shut == c.current.value.job.shut
      && d.current.value.job.pollsLeft + Is1(e.Poll?) == c.current.value.job.pollsLeft
      && (e.Poll? ==> c.current.value.job.pollsLeft > 1))
  {
    if Submits(e) { ClosingSubmit(c, e); } else { ClosingCallback(c, e); }
  }

  /** A full close that is short of nothing but memory succeeds: after at most its number of
      polls it has been acknowledged with ERR_OK and the netconn has given its pcb up. */
  lemma {:induction false} FullCloseSucceeds(c: Conn, events: seq<Event>)
    requires Inv(c) && AllowedRun(c, events) && c.state == CLOSE && c.current.value.job.shut == BOTH
    requires Polls(events) > 0 && Polls(events) >= c.current.value.job.pollsLeft
    requires forall e :: e in events ==> OkOrMem(e)
    ensures (c.current.value.id, OK) in Run(c, events).acks && Run(c, events).pcb.Gone?
    decreases |events|
  {
    var e, rest, d := events[0], events[1..], Step(c, events[0]);
    assert e in events;
    RunStep(c, events);
    ClosingStep(c, e, d);
    if d.current.None? {
      FullDone(c, e, d);
      AckStays(d, rest, (c.current.value.id, OK));
      GoneForGood(d, rest);
    } else {
      FullCloseSucceeds(d, rest);
    }
  }

  lemma FullDone(c: Conn, e: Event, d: Conn)
    requires Inv(c) && Allowed(c, e) && c.state == CLOSE && c.current.value.job.shut == BOTH && OkOrMem(e)
    requires d == Step(c, e) && d.current.None?
    ensures (c.current.value.id, OK) in d.acks && d.pcb.Gone?
  {
    if Submits(e) {
      ClosingSubmit(c, e);
    } else {
      FullCallback(c, e);
      assert d.acks[|c.acks|] == (c.current.value.id, OK);
    }
  }

  /** netconn_close from its submission on: 41 polls are enough. */
  lemma {:induction false} CloseSucceeds(c: Conn, core: CloseCore, events: seq<Event>)
    requires Inv(c) && (c.state == NONE || c.state == LISTEN) && c.pcb.Pcb? && OkOrMem(Sent([], false, core))
    requires AllowedRun(c, [Close(BOTH, core)] + events)
    requires Polls(events) >= 41 && forall e :: e in events ==> OkOrMem(e)
    ensures var d := Run(c, [Close(BOTH, core)] + events); (c.next, OK) in d.acks && d.pcb.Gone?
  {
    var run := [Close(BOTH, core)] + events;
    assert run[0] == Close(BOTH, core) && run[1..] == events;
    RunStep(c, run);
    var started := Numbered(c).(state := CLOSE, current := Some(Msg(c.next, Closing(BOTH, CLOSE_POLLS))));
    var d := Step(c, run[0]);
    FirstAttempt(c, core, d);
    if d.current.None? {
      AckStays(d, events, (c.next, OK));
      GoneForGood(d, events);
    } else {
      FullCloseSucceeds(d, events);
    }
  }

  lemma FirstAttempt(c: Conn, core: CloseCore, d: Conn)
    requires Inv(c) && (c.state == NONE || c.state == LISTEN) && c.pcb.Pcb? && (core.err == OK || core.err == MEM)
    requires Allowed(c, Close(BOTH, core)) && d == Step(c, Close(BOTH, core))
    ensures if d.current.None? then (c.next, OK) in d.acks && d.pcb.Gone?
            else d.state == CLOSE && d.current == Some(Msg(c.next, Closing(BOTH, 41)))
  {
    var started := Numbered(c).(state := CLOSE, current := Some(Msg(c.next, Closing(BOTH, CLOSE_POLLS))));
    assert d == CloseInternal(started, core);
    FullReply(started, core);
    if d.current.None? { assert d.acks[|c.acks|] == (c.next, OK); }
  }

  // ---- A half shutdown

  /** Attempts at shutting one side down answer ERR_MEM and do not turn into a full close, and
      the connection does not fail. */
  predicate ShortOfMemory(shut: Shut, e: Event) {
    && !e.Error?
    && (Attempts(e) ==> e.closeCore.err == MEM && !ShutsBoth(shut, e.closeCore))
  }

  lemma HalfCallback(c: Conn, e: Event)
    requires Inv(c) && Allowed(c, e) && !Submits(e) && c.state == CLOSE && ShortOfMemory(c.current.value.job.shut, e)
    ensures var r := Callback(c, e);
      r.current.None? ==> r.acks == c.acks + [(c.current.value.id, MEM)] && r.pcb.Pcb?
  {
  }

  /** A half shutdown that never gets its memory reports that: after at most its number of
      polls it has been acknowledged with ERR_MEM. */
  lemma {:induction false} HalfShutdownReports(c: Conn, events: seq<Event>)
    requires Inv(c) && AllowedRun(c, events) && c.state == CLOSE
    requires Polls(events) > 0 && Polls(events) >= c.current.value.job.pollsLeft
    requires forall e :: e in events ==> ShortOfMemory(c.current.value.job.shut, e)
    ensures (c.current.value.id, MEM) in Run(c, events).acks
    decreases |events|
  {
    var e, rest, d := events[0], events[1..], Step(c, events[0]);
    assert e in events;
    RunStep(c, events);
    ClosingStep(c, e, d);
    if d.current.None? {
      HalfDone(c, e, d);
      AckStays(d, rest, (c.current.value.id, MEM));
    } else {
      HalfShutdownReports(d, rest);
    }
  }

  lemma HalfDone(c: Conn, e: Event, d: Conn)
    requires Inv(c) && Allowed(c, e) && c.state == CLOSE && ShortOfMemory(c.current.value.job.shut, e)
    requires d == Step(c, e) && d.current.None?
    ensures (c.current.value.id, MEM) in d.acks && d.pcb.Pcb?
  {
    if Submits(e) {
      ClosingSubmit(c, e);
    } else {
      HalfCallback(c, e);
      assert d.acks[|c.acks|] == (c.current.value.id, MEM);
    }
  }

  // ---- Any shutdown

  /** The error a shutdown is acknowledged with, by the event that completes it, and whether
      the netconn has given its pcb up: a failed connection counts as closed; an attempt with
      which it is a full close, by its own kind or by the state of the connection then, ends
      in a reset when memory is short to the last; one of a half shutdown reports its error. */
  function Report(shut: Shut, e: Event): (Err, bool)
    requires e.Error? || Attempts(e)
  {
    if e.Error? then (OK, true)
    else if e.closeCore.err == OK then (OK, ShutsBoth(shut, e.closeCore))
    else if e.closeCore.err == MEM && ShutsBoth(shut, e.closeCore) then (OK, true)
    else (e.closeCore.err, false)
  }

  ghost predicate Completes(c: Conn, e: Event, d: Conn)
    requires c.current.Some? && c.current.value.job.Closing?
  {
    && (e.Error? || Attempts(e)) && d.current.None?
    && d.acks == c.acks + [(c.current.value.id, Report(c.current.value.job.shut, e).0)]
    && d.pcb.Gone? == Report(c.current.value.job.shut, e).1
  }

  lemma AttemptReports(c: Conn, core: CloseCore)
    requires CanClose(c) && !c.pcb.listening
    ensures var r, shut := CloseInternal(c, core), c.current.value.job.shut;
      r.current.None? ==>
        && r.acks == c.acks + [(c.current.value.id, Report(shut, Sent([], false, core)).0)]
        && r.pcb.Gone? == Report(shut, Sent([], false, core)).1
  {
    var r := CloseReply(c, core);
    assert r.conn.acks == c.acks;
  }

  lemma CallbackReports(c: Conn, e: Event)
    requires Inv(c) && Allowed(c, e) && !Submits(e) && c.state == CLOSE && Callback(c, e).current.None?
    ensures Completes(c, e, Callback(c, e))
  {
    if e.Sent? {
      AttemptReports(c, e.closeCore);
    } else if e.Poll? {
      var job := c.current.value.job;
      var polled := if job.pollsLeft > 0 then job.(pollsLeft := job.pollsLeft - 1) else job;
      AttemptReports(c.(current := Some(c.current.value.(job := polled))), e.closeCore);
    }
  }

  /** Whether a shutdown turns into a full close on the way or not: over any run, after at
      most its number of polls, some event has completed it, before which it was pending, and
      its acknowledgement is the report of that event. */
  lemma {:induction false} ShutdownReports(c: Conn, events: seq<Event>) returns (k: nat)
    requires Inv(c) && AllowedRun(c, events) && c.state == CLOSE
    requires Polls(events) > 0 && Polls(events) >= c.current.value.job.pollsLeft
    ensures k < |events| && (events[k].Error? || Attempts(events[k]))
    ensures AllowedRun(c, events[..k]) && Run(c, events[..k]).state == CLOSE
    ensures AllowedRun(c, events[..k + 1]) && Run(c, events[..k + 1]).current.None?
    ensures var id, report := c.current.value.id, Report(c.current.value.job.shut, events[k]);
      (id, report.0) in Run(c, events).acks && (report.1 ==> Run(c, events).pcb.Gone?)
    decreases |events|
  {
    var e, rest, d := events[0], events[1..], Step(c, events[0]);
    RunStep(c, events);
    ClosingStep(c, e, d);
    if d.current.None? {
      k := 0;
      assert events[..0] == [] && events[..1][0] == e && events[..1][1..] == [];
      RunStep(c, events[..1]);
      assert !Submits(e) by { if Submits(e) { ClosingSubmit(c, e); } }
      CallbackReports(c, e);
      assert d.acks[|c.acks|] == (c.current.value.id, Report(c.current.value.job.shut, e).0);
      AckStays(d, rest, (c.current.value.id, Report(c.current.value.job.shut, e).0));
      if d.pcb.Gone? { GoneForGood(d, rest); }
    } else {
      var j := ShutdownReports(d, rest);
      k := j + 1;
      assert events[..k][0] == e && events[..k][1..] == rest[..j];
      RunStep(c, events[..k]);
      assert events[..k + 1][0] == e && events[..k + 1][1..] == rest[..j + 1];
      RunStep(c, events[..k + 1]);
    }
  }

  // ---- sent_tcp without its argument

  /** sent_tcp is registered and its argument is not: it asserts its argument. */
  predicate Unargued(p: Pcb) {
    p.Pcb? && p.sent && !p.arg
  }

  /** On the pcb of the netconn, or on the one tcp_close has taken over. */
  predicate SentUnargued(c: Conn) {
    Unargued(c.pcb) || Unargued(c.orphan)
  }

  /** The event makes an attempt at closing that is final and shuts down the receiving side
      alone, on a connection that is already half closed the other way, while sent_tcp is
      registered. */
  predicate DropsArgument(c: Conn, e: Event) {
    match e
    case Close(shut, core) => c.pcb.Pcb? && c.state == NONE && Drops(c.pcb, shut, core)
    case Sent(_, _, core) => CanClose(c) && Drops(c.pcb, c.current.value.job.shut, core)
    case Poll(_, _, core) => CanClose(c) && Drops(c.pcb, c.current.value.job.shut, core)
    case _ => false
  }

  predicate Drops(p: Pcb, shut: Shut, core: CloseCore)
    requires p.Pcb?
  {
    p.sent && shut.rd && !shut.wr && core.finWait && core.err != MEM
  }

  lemma ReplyDrops(c: Conn, core: CloseCore)
    requires CanClose(c) && !SentUnargued(c) && !c.pcb.listening
    ensures SentUnargued(CloseReply(c, core).conn) <==> Drops(c.pcb, c.current.value.job.shut, core)
  {
    var shut := c.current.value.job.shut;
    var pcb := Unhooked(c.pcb, shut, FullClose(shut, core));
    if core.err == MEM {
      assert !Unargued(CloseReply(c, core).conn.pcb);
    } else if FullClose(shut, core) && core.err == OK {
      assert CloseReply(c, core).conn.orphan == pcb;
    }
  }

  lemma AttemptDrops(c: Conn, core: CloseCore)
    requires CanClose(c) && !SentUnargued(c) && !c.pcb.listening
    ensures SentUnargued(CloseInternal(c, core)) <==> Drops(c.pcb, c.current.value.job.shut, core)
  {
    ReplyDrops(c, core);
    var r := CloseReply(c, core);
  }

  lemma SubmitDrops(c: Conn, id: Id, e: Event)
    requires ShapeOk(c) && Submits(e) && (e.Close? ==> c.state != CLOSE) && !SentUnargued(c)
    requires e.Write? ==> e.vectors != [] && Flatten(e.vectors) != []
    ensures SentUnargued(Submit(c, id, e)) <==> DropsArgument(c, e)
  {
    match e
    case Connect(_) =>
    case Listen(_, _, _) =>
    case Write(vectors, dontblock, core, noRoute) => WriteKeepsHooks(c, id, e);
    case Close(shut, core) => CloseDrops(c, id, shut, core);
    case Delete(core) => DeleteDrops(c, id, core);
  }

  lemma WriteKeepsHooks(c: Conn, id: Id, e: Event)
    requires e.Write? && e.vectors != [] && Flatten(e.vectors) != []
    ensures var r := DoWrite(c, id, e.vectors, e.dontblock, e.core, e.noRoute); SentUnargued(r) <==> SentUnargued(c)
  {
    if c.pendingErr == OK && c.state == NONE && c.pcb.Pcb? {
      VectorWriter.BeginConsistent(e.vectors);
      var msg := Msg(id, Job.Writing(VectorWriter.Begin(e.vectors), e.dontblock || c.nonblocking));
    }
  }

  lemma CloseDrops(c: Conn, id: Id, shut: Shut, core: CloseCore)
    requires ShapeOk(c) && c.state != CLOSE && !SentUnargued(c)
    ensures SentUnargued(DoClose(c, id, shut, core)) <==> c.pcb.Pcb? && c.state == NONE && Drops(c.pcb, shut, core)
  {
    if c.pcb.Pcb? && (c.state == NONE || (c.state == LISTEN && shut == BOTH)) {
      var started := c.(state := CLOSE, current := Some(Msg(id, Closing(shut, CLOSE_POLLS))));
      if c.state == NONE { AttemptDrops(started, core); } else { ListenDrops(started, core); }
    }
  }

  lemma ListenDrops(c: Conn, core: CloseCore)
    requires CanClose(c) && !SentUnargued(c) && c.current.value.job.shut == BOTH && c.pcb.listening
    ensures !SentUnargued(CloseInternal(c, core))
  {
  }

  lemma DeleteDrops(c: Conn, id: Id, core: CloseCore)
    requires ShapeOk(c) && !SentUnargued(c)
    ensures !SentUnargued(DoDelconn(c, id, core))
  {
    if c.current.None? && c.pcb.Pcb? {
      var answer := if c.state == CONNECT then core.(err := OK) else core;
      var started := c.(state := CLOSE, current := Some(Msg(id, Closing(BOTH, CLOSE_POLLS))));
      if c.pcb.listening { ListenDrops(started, answer); } else { AttemptDrops(started, answer); }
    }
  }

  lemma WritesLeavePcb(c: Conn, core: seq<VectorWriter.Answer>, noRoute: bool)
    requires CanWriteMore(c)
    ensures WriteMore(c, core, noRoute).pcb == c.pcb && WriteMore(c, core, noRoute).orphan == c.orphan
  {
  }

  lemma CallbackDrops(c: Conn, e: Event)
    requires ShapeOk(c) && !Submits(e) && !SentUnargued(c)
    ensures SentUnargued(Callback(c, e)) <==> DropsArgument(c, e)
  {
    if c.state == WRITE && Attempts(e) {
      WritesLeavePcb(c, e.core, e.noRoute);
    } else if c.state == CLOSE && e.Sent? {
      AttemptDrops(c, e.closeCore);
    } else if c.state == CLOSE && e.Poll? {
      var job := c.current.value.job;
      var polled := if job.pollsLeft > 0 then job.(pollsLeft := job.pollsLeft - 1) else job;
      AttemptDrops(c.(current := Some(c.current.value.(job := polled))), e.closeCore);
    }
  }

  /** In every reachable state, an event leaves sent_tcp registered without its argument if
      and only if it is a final attempt at shutting down the receiving side alone of a
      connection whose FIN is on its way, with sent_tcp registered. */
  lemma ArgumentDropped(events: seq<Event>, e: Event)
    requires Inv(FRESH) && AllowedRun(FRESH, events) && Allowed(Run(FRESH, events), e)
    requires !SentUnargued(Run(FRESH, events))
    ensures var c := Run(FRESH, events); SentUnargued(Step(c, e)) <==> DropsArgument(c, e)
  {
    StepDrops(Run(FRESH, events), e);
  }

  lemma StepDrops(c: Conn, e: Event)
    requires Inv(c) && Allowed(c, e) && !SentUnargued(c)
    ensures SentUnargued(Step(c, e)) <==> DropsArgument(c, e)
  {
    if Submits(e) {
      NextShape(c);
      SubmitDrops(Numbered(c), c.next, e);
    } else {
      CallbackDrops(c, e);
    }
  }

  /** So without such an event it never happens. */
  ghost predicate NeverDrops(c: Conn, events: seq<Event>)
    requires Inv(c) && AllowedRun(c, events)
    decreases |events|
  {
    events == [] || (!DropsArgument(c, events[0]) && NeverDrops(Step(c, events[0]), events[1..]))
  }

  lemma {:induction false} ArgumentKept(c: Conn, events: seq<Event>)
    requires Inv(c) && AllowedRun(c, events) && !SentUnargued(c) && NeverDrops(c, events)
    ensures !SentUnargued(Run(c, events))
    decreases |events|
  {
    if events != [] {
      StepDrops(c, events[0]);
      RunStep(c, events);
      ArgumentKept(Step(c, events[0]), events[1..]);
    }
  }

  const FIN_SENT := CloseCore(true, false, OK)
  const ESTABLISHED := CloseCore(false, false, OK)
  const WRITE_SIDE := Shut(false, true)
  const READ_SIDE := Shut(true, false)

  /** A connection is opened, shut down for writing, connected once more, which registers the
      callbacks again before tcp_connect refuses, and shut down for reading. */
  const UNARGUED_RUN := [Connect(OK), Connected(OK), Close(WRITE_SIDE, ESTABLISHED), Connect(ISCONN),
      Close(READ_SIDE, FIN_SENT)]

  function Established(connecting: bool, sent: bool, next: Id, acks: seq<(Id, Err)>): Conn {
    var pcb := SET_UP.(connecting := connecting, sent := sent);
    if connecting then FRESH.(state := CONNECT, current := Some(Msg(0, Connecting)), pcb := pcb, next := next,
        acks := acks)
    else FRESH.(pcb := pcb, next := next, acks := acks)
  }

  lemma Prepend(c: Conn, e: Event, rest: seq<Event>)
    requires Inv(c) && Allowed(c, e) && AllowedRun(Step(c, e), rest)
    ensures AllowedRun(c, [e] + rest) && Run(c, [e] + rest) == Run(Step(c, e), rest)
  {
    assert ([e] + rest)[0] == e && ([e] + rest)[1..] == rest;
    RunStep(c, [e] + rest);
  }

  /** It happens: tcp_close takes the pcb over with sent_tcp still registered. */
  lemma SentLosesItsArgument()
    ensures Inv(FRESH) && AllowedRun(FRESH, UNARGUED_RUN) && SentUnargued(Run(FRESH, UNARGUED_RUN))
  {
    FreshInv();
    var c1 := Step(FRESH, Connect(OK));
    FirstEvent(c1);
    var c2 := Step(c1, Connected(OK));
    SecondEvent(c1, c2);
    LastEvents(c2);
    Prepend(c1, Connected(OK), UNARGUED_RUN[2..]);
    Prepend(FRESH, Connect(OK), [Connected(OK)] + UNARGUED_RUN[2..]);
    assert [Connect(OK)] + ([Connected(OK)] + UNARGUED_RUN[2..]) == UNARGUED_RUN;
  }

  lemma FirstEvent(d: Conn)
    requires Inv(FRESH) && d == Step(FRESH, Connect(OK))
    ensures d == Established(true, true, 1, [])
  {
  }

  lemma SecondEvent(c: Conn, d: Conn)
    requires Inv(c) && c == Established(true, true, 1, []) && Allowed(c, Connected(OK)) && d == Step(c, Connected(OK))
    ensures d == Established(false, true, 1, [(0, OK)])
  {
    assert [] + [(0, OK)] == [(0, OK)];
  }

  lemma LastEvents(c: Conn)
    requires Inv(c) && c == Established(false, true, 1, [(0, OK)])
    ensures AllowedRun(c, UNARGUED_RUN[2..]) && SentUnargued(Run(c, UNARGUED_RUN[2..]))
  {
    var d := Step(c, Close(WRITE_SIDE, ESTABLISHED));
    assert [(0, OK)] + [(1, OK)] == [(0, OK), (1, OK)];
    assert d == Established(false, false, 2, [(0, OK), (1, OK)]);
    ConnectsAgain(d);
    Prepend(c, Close(WRITE_SIDE, ESTABLISHED), UNARGUED_RUN[3..]);
    assert [Close(WRITE_SIDE, ESTABLISHED)] + UNARGUED_RUN[3..] == UNARGUED_RUN[2..];
  }

  lemma {:induction false} ConnectsAgain(c: Conn)
    requires Inv(c) && c.state == NONE && c.pcb.Pcb? && c.orphan.Gone? && !c.hung
    ensures AllowedRun(c, UNARGUED_RUN[3..]) && SentUnargued(Run(c, UNARGUED_RUN[3..]))
  {
    var d := Step(c, Connect(ISCONN));
    assert d.pcb == SET_UP && d.state == NONE && d.orphan == Gone && !d.hung;
    ShutsDown(d);
    Prepend(c, Connect(ISCONN), UNARGUED_RUN[4..]);
    assert [Connect(ISCONN)] + UNARGUED_RUN[4..] == UNARGUED_RUN[3..];
  }

  lemma ShutsDown(c: Conn)
    requires Inv(c) && c.state == NONE && c.pcb == SET_UP && c.orphan.Gone? && !c.hung
    ensures AllowedRun(c, UNARGUED_RUN[4..]) && SentUnargued(Run(c, UNARGUED_RUN[4..]))
  {
    StepDrops(c, Close(READ_SIDE, FIN_SENT));
    Prepend(c, Close(READ_SIDE, FIN_SENT), []);
    assert [Close(READ_SIDE, FIN_SENT)] + [] == UNARGUED_RUN[4..];
  }
}
