/** The two sides of a connection: when a netconn gives its pcb up. */
module NetconnSides {
  import opened Common
  import opened NetconnSpec
  import opened NetconnClose
  import VectorWriter

  /** The sides whose shutdown has been acknowledged with ERR_OK. */
  datatype Sides = Sides(rd: bool, wr: bool)

  /** The message that is closing something when `e` happens. */
  function ClosingMessage(c: Conn, e: Event): Option<(Id, Shut)> {
    if e.Close? then Some((c.next, e.shut))
    else if c.current.Some? && c.current.value.job.Closing? then Some((c.current.value.id, c.current.value.job.shut))
    else if e.Delete? then Some((c.next, BOTH))
    else None
  }

  /** What an event adds to them: a failed connection is shut down on both sides. */
  function After(c: Conn, e: Event, s: Sides): Sides
    requires Inv(c) && Allowed(c, e)
  {
    var m := ClosingMessage(c, e);
    if e.Error? then Sides(true, true)
    else if m.Some? && (m.value.0, OK) in Step(c, e).acks then Sides(s.rd || m.value.1.rd, s.wr || m.value.1.wr)
    else s
  }

  /** On a connection that stays open unless it is shut down here, the core reports of it what
      has been shut down so far: TF_RXCLOSED after SHUT_RD, a FIN on its way after SHUT_WR. */
  predicate Honest(c: Conn, e: Event, s: Sides) {
    match e
    case Connect(tcpErr) => tcpErr != OK
    case Listen(closed, _, _) => !closed
    case Close(_, core) => Reports(core, s)
    case Delete(core) => Reports(core, s)
    case Sent(_, _, core) => Reports(core, s)
    case Poll(_, _, core) => Reports(core, s)
    case _ => true
  }

  predicate Reports(core: CloseCore, s: Sides) {
    !(s.rd && s.wr) ==> core.rxClosed == s.rd && core.finWait == s.wr
  }

  ghost predicate HonestRun(c: Conn, events: seq<Event>, s: Sides)
    requires Inv(c) && AllowedRun(c, events)
    decreases |events|
  {
    events == [] || (Honest(c, events[0], s)
                     && HonestRun(Step(c, events[0]), events[1..], After(c, events[0], s)))
  }

  ghost function ShutBy(c: Conn, events: seq<Event>, s: Sides): Sides
    requires Inv(c) && AllowedRun(c, events)
    decreases |events|
  {
    if events == [] then s else ShutBy(Step(c, events[0]), events[1..], After(c, events[0], s))
  }

  /** An open connection, or one that has been closed. */
  predicate Tied(c: Conn, s: Sides) {
    && c.state in {NONE, WRITE, CLOSE} && (c.pcb.Pcb? ==> !c.pcb.listening && !c.pcb.connecting)
    && (c.pcb.Gone? <==> s.rd && s.wr)
  }

  lemma AttemptTied(c: Conn, core: CloseCore, s: Sides)
    requires CanClose(c) && Tied(c, s) && Reports(core, s)
    ensures var r, m := CloseInternal(c, core), c.current.value;
      if r.current.None? then
        && r.state == NONE && r.acks != [] && r.acks == c.acks + [(m.id, r.acks[|r.acks| - 1].1)]
        && (r.pcb.Gone? <==> r.acks[|r.acks| - 1].1 == OK && (s.rd || m.job.shut.rd) && (s.wr || m.job.shut.wr))
        && (r.pcb.Pcb? ==> !r.pcb.listening && !r.pcb.connecting)
      else r.current == c.current && r.state == CLOSE && r.acks == c.acks && r.pcb.Pcb?
           && !r.pcb.listening && !r.pcb.connecting
  {
  }

  /** Only the next answer is new. */
  lemma NewAnswer(c: Conn, id: Id, d: Conn, err: Err)
    requires Times(c.acks, id) == 0 && d.acks == c.acks + [(id, err)]
    ensures (id, OK) in d.acks <==> err == OK
  {
    NoAck(c.acks, id, OK);
    assert d.acks[|c.acks|] == (id, err);
  }

  lemma ShutTied(c: Conn, e: Event, s: Sides, shut: Shut, d: Conn)
    requires Inv(c) && Allowed(c, e) && (e.Close? || e.Delete?) && Tied(c, s) && Honest(c, e, s) && d == Step(c, e)
    requires c.state == NONE && c.pcb.Pcb? && shut == if e.Close? then e.shut else BOTH
    ensures Tied(d, if (c.next, OK) in d.acks then Sides(s.rd || shut.rd, s.wr || shut.wr) else s)
  {
    assert Times(c.acks, c.next) + Current(c, c.next) == Is1(c.next < c.next);
    var started := Numbered(c).(state := CLOSE, current := Some(Msg(c.next, Closing(shut, CLOSE_POLLS))));
    AttemptTied(started, e.closeCore, s);
    assert d == CloseInternal(started, e.closeCore);
    if d.current.Some? { CurrentUnanswered(d); }
    else { NewAnswer(c, c.next, d, d.acks[|d.acks| - 1].1); }
  }

  lemma RefusedTied(c: Conn, e: Event, s: Sides, d: Conn)
    requires Inv(c) && Allowed(c, e) && (e.Close? || e.Delete?) && Tied(c, s) && d == Step(c, e)
    requires c.state == WRITE || c.pcb.Gone?
    ensures Tied(d, After(c, e, s))
  {
    assert Times(c.acks, c.next) + Current(c, c.next) == Is1(c.next < c.next);
    NewAnswer(c, c.next, d, d.acks[|d.acks| - 1].1);
  }

  lemma SubmitTied(c: Conn, e: Event, s: Sides, d: Conn)
    requires Inv(c) && Allowed(c, e) && Submits(e) && Tied(c, s) && Honest(c, e, s) && d == Step(c, e)
    ensures Tied(d, After(c, e, s))
  {
    if c.state == CLOSE {
      ClosingSubmit(c, e);
      CurrentUnanswered(d);
    } else if e.Close? || e.Delete? {
      if c.state == NONE && c.pcb.Pcb? { ShutTied(c, e, s, if e.Close? then e.shut else BOTH, d); }
      else { RefusedTied(c, e, s, d); }
    } else if e.Write? {
      WriteTied(c, e, d);
    }
  }

  lemma WriteTied(c: Conn, e: Event, d: Conn)
    requires Inv(c) && Allowed(c, e) && e.Write? && c.state in {NONE, WRITE} && d == Step(c, e)
    ensures d.pcb == c.pcb && d.state in {NONE, WRITE}
  {
    if c.pendingErr == OK && c.state == NONE && c.pcb.Pcb? {
      VectorWriter.BeginConsistent(e.vectors);
    }
  }

  lemma CurrentUnanswered(c: Conn)
    requires Inv(c) && c.current.Some?
    ensures (c.current.value.id, OK) !in c.acks
  {
    var id := c.current.value.id;
    assert Times(c.acks, id) + Current(c, id) == Is1(id < c.next);
    NoAck(c.acks, id, OK);
  }

  lemma CallbackTied(c: Conn, e: Event, s: Sides, d: Conn)
    requires Inv(c) && Allowed(c, e) && !Submits(e) && Tied(c, s) && Honest(c, e, s) && d == Step(c, e)
    ensures Tied(d, After(c, e, s))
  {
    if c.state == CLOSE && !e.Error? {
      var id := c.current.value.id;
      assert Times(c.acks, id) + Current(c, id) == Is1(id < c.next);
      if Attempts(e) { ClosingTied(c, e, s, d); }
      if d.current.Some? { CurrentUnanswered(d); }
    }
  }

  lemma ClosingTied(c: Conn, e: Event, s: Sides, d: Conn)
    requires Inv(c) && Allowed(c, e) && Attempts(e) && Tied(c, s) && Honest(c, e, s) && d == Step(c, e)
    requires c.state == CLOSE && Times(c.acks, c.current.value.id) == 0
    ensures d.current.None? ==> Tied(d, After(c, e, s))
    ensures d.current.Some? ==> d.current.value.id == c.current.value.id && Tied(d, s)
  {
    var job := c.current.value.job;
    var polled := if e.Poll? && job.pollsLeft > 0 then job.(pollsLeft := job.pollsLeft - 1) else job;
    var started := c.(current := Some(c.current.value.(job := polled)));
    AttemptTied(started, e.closeCore, s);
    assert d == CloseInternal(started, e.closeCore);
    if d.current.None? {
      NewAnswer(c, c.current.value.id, d, d.acks[|d.acks| - 1].1);
    }
  }

  /** Shutting down both sides of an open connection, in either order, together or by deleting
      the netconn, whether memory is short on the way or not, is what makes the netconn give
      its pcb up: over any run of anything else, it has none if and only if both sides have
      been shut down with ERR_OK or the connection has failed. */
  lemma {:induction false} PcbGoneIffBothShut(c: Conn, events: seq<Event>, s: Sides)
    requires Inv(c) && AllowedRun(c, events) && Tied(c, s) && HonestRun(c, events, s)
    ensures var end := ShutBy(c, events, s); NetconnSpec.Run(c, events).pcb.Gone? <==> end.rd && end.wr
    decreases |events|
  {
    if events != [] {
      var d := Step(c, events[0]);
      if Submits(events[0]) { SubmitTied(c, events[0], s, d); } else { CallbackTied(c, events[0], s, d); }
      PcbGoneIffBothShut(d, events[1..], After(c, events[0], s));
      RunStep(c, events);
    }
  }
}
