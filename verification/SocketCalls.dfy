/** The calls that the steps of SocketThreads make up, and the events they raise: lwip_close
    gets the descriptor, has the netconn closed, whose events go through event_callback while
    the socket is still open, and only then frees it; a RCVPLUS follows the message it
    announces; a RCVMINUS is raised by a thread that holds the descriptor and has taken a
    message; and nothing reaches a socket whose descriptor is not in callback_arg.socket.

    The TCP/IP thread works for one thread at a time: a thread whose message it handles
    performs the handler's events itself, while it has `core`. */
module SocketCalls {
  import opened Common
  import opened SocketTable
  import opened SocketThreads
  import Mailbox

  /** Messages that fit into the mailbox of a netconn. */
  const MBOX_ROOM := Mailbox.SIZE - 1

  /** Who knows the descriptor of a netconn: its maker, which has yet to store it in
      callback_arg.socket, everybody, or nobody ever, because lwip_accept gave it up. */
  datatype Stage = Opened(maker: Tid) | Known | Abandoned

  /** The netconn that is, or was last, in a slot. It is `closed` once netconn_prepare_delete
      has begun to raise its events, and `gone` once it has no pcb, so that the TCP/IP thread
      raises no more of its own. Of the messages that end in a RCVMINUS, `posted` went into
      its mailbox, a RCVPLUS was raised for `announced`, and `taken` were fetched; `bare`
      RCVPLUS were counted for no message. */
  datatype Peer =
    | Nobody
    | Peer(stage: Stage, closed: bool, gone: bool, posted: nat, announced: nat, taken: nat, bare: nat)

  const NEWBORN := Peer(Known, false, false, 0, 0, 0, 0)

  /** What follows the events of a handler: err_tcp posts its message, lwip_close goes on. */
  datatype End = Ack | AckAndPost | AckAndFree(isTcp: bool)

  datatype Call =
    | NoCall
    | Opening(fd: nat, accepted: bool)
    | Handling(fd: nat, conn: Option<ConnId>, todo: seq<Event>, end: End)
    | Closing(fd: nat, isTcp: bool)

  /** `peers` belongs to the slots, `calls` to the threads. */
  datatype World = World(s: State, peers: seq<Peer>, calls: seq<Call>, core: Option<Tid>)

  datatype Deed =
    | Table(action: Action)
    | Arrive(fd: nat)
    | Notify(fd: nat, event: Event)
    | Break(fd: nat)
    | Receive(fd: nat, minus: bool)
    | Shutdown(fd: nat, full: bool, rx: bool, tx: bool)
    | Close(fd: nat, isTcp: bool)
    | Replay(fd: nat)
    | Publish
    | Abandon
    | Continue

  /** What a deed makes of a world: a step of the table, or none. */
  datatype Turn = Turn(action: Option<Action>, peers: seq<Peer>, call: Call, core: Option<Tid>)

  /** The events of a shutdown, in order. */
  function Raised(full: bool, rx: bool, tx: bool): seq<Event> {
    (if full then [ErrorEvent] else []) + (if rx then [RcvPlus] else []) + (if tx then [SendPlus] else [])
  }

  /** The TCP/IP thread can raise events of its own for the netconn in slot `i`. */
  predicate Live(w: World, i: nat) {
    i < |w.peers| && i < |w.s.slots| && w.peers[i].Peer? && !w.peers[i].gone && w.s.slots[i].conn.Some?
  }

  predicate HasRoom(p: Peer)
    requires p.Peer?
  {
    p.posted < p.taken + MBOX_ROOM
  }

  /** The TCP/IP thread starts to handle something for thread `t`. */
  function Enter(w: World, t: Tid, i: nat, p: Peer, todo: seq<Event>, end: End): Option<Turn>
    requires i < |w.peers|
  {
    if w.core.Some? || i >= |w.s.slots| then None
    else Some(Turn(None, w.peers[i := p], Handling(i, w.s.slots[i].conn, todo, end), Some(t)))
  }

  /** What the TCP/IP thread does of its own: recv callbacks, sent and poll callbacks, err_tcp. */
  function CoreBegins(w: World, t: Tid, d: Deed): Option<Turn> {
    match d
    case Arrive(i) =>
      if Live(w, i) && HasRoom(w.peers[i])
      then Enter(w, t, i, w.peers[i].(posted := w.peers[i].posted + 1), [RcvPlus], Ack) else None
    case Notify(i, e) =>
      if Live(w, i) && (e.SendPlus? || e.SendMinus?) then Enter(w, t, i, w.peers[i], [e], Ack) else None
    case Break(i) =>
      if Live(w, i) then Enter(w, t, i, w.peers[i].(gone := true), Raised(true, true, true), AckAndPost) else None
    case _ => None
  }

  /** The calls on a descriptor that its thread has got and checked. */
  function CallBegins(w: World, t: Tid, d: Deed): Option<Turn> {
    match d
    case Receive(i, minus) =>
      if i < |w.peers| && w.peers[i].Peer? && w.peers[i].taken < w.peers[i].posted && (minus || w.peers[i].gone) then
        var p := w.peers[i];
        Some(Turn(if minus && p.stage == Known then Some(Post(i, RcvMinus)) else None,
                  w.peers[i := p.(taken := p.taken + 1, bare := if minus then p.bare else p.bare + 1)], NoCall, w.core))
      else None
    case Shutdown(i, full, rx, tx) =>
      if Live(w, i)
      then Enter(w, t, i, w.peers[i].(gone := full), Raised(full, rx, tx), Ack) else None
    case Close(i, isTcp) =>
      if i < |w.peers| && w.peers[i].Peer? then
        Enter(w, t, i, w.peers[i].(closed := true, gone := true), Raised(isTcp && !w.peers[i].gone, true, true),
              AckAndFree(isTcp))
      else None
    case Replay(i) =>
      if i < |w.peers| && w.peers[i].Peer? && w.peers[i].stage == Known
      then Some(Turn(Some(Post(i, RcvPlus)), w.peers, NoCall, w.core)) else None
    case _ => None
  }

  /** What a thread that is in no call may begin. */
  function Begin(w: World, t: Tid, th: Thread, d: Deed): Option<Turn> {
    match d
    case Table(a) =>
      if a.Get? || a.Done? || a.Alloc? || a.Stash? || a.Select?
      then Some(Turn(Some(a), w.peers, NoCall, w.core)) else None
    case Arrive(_) => CoreBegins(w, t, d)
    case Notify(_, _) => CoreBegins(w, t, d)
    case Break(_) => CoreBegins(w, t, d)
    case Receive(i, _) => if i in th.holds then CallBegins(w, t, d) else None
    case Shutdown(i, _, _, _) => if i in th.holds then CallBegins(w, t, d) else None
    case Close(i, _) => if i in th.holds then CallBegins(w, t, d) else None
    case Replay(i) => if i in th.holds then CallBegins(w, t, d) else None
    case _ => None
  }

  /** A RCVPLUS of the TCP/IP thread announces the message it has just posted, if any. */
  function Announced(p: Peer, byCore: bool, received: bool): Peer {
    if p.Nobody? then p
    else if byCore && p.announced < p.posted then p.(announced := p.announced + 1)
    else if received then p.(bare := p.bare + 1)
    else p
  }

  /** The next event of a handler, which reaches no socket as long as the descriptor is not
      known, or the end of the handler. */
  function Handle(w: World, i: nat, conn: Option<ConnId>, todo: seq<Event>, end: End): Option<Turn> {
    if i >= |w.peers| || i >= |w.s.slots| || w.peers[i].Nobody? then None
    else if todo != [] then
      var call := Handling(i, conn, todo[1..], end);
      if w.peers[i].stage == Known && w.s.slots[i].conn == conn
      then Some(Turn(Some(Post(i, todo[0])), w.peers, call, w.core))
      else
        var p := if todo[0].RcvPlus? then Announced(w.peers[i], true, false) else w.peers[i];
        Some(Turn(None, w.peers[i := p], call, w.core))
    else
      match end
      case Ack => Some(Turn(None, w.peers, NoCall, None))
      case AckAndPost => Some(Turn(None, w.peers[i := ErrorPosted(w.peers[i])], NoCall, None))
      case AckAndFree(isTcp) => Some(Turn(None, w.peers, Closing(i, isTcp), None))
  }

  /** The message of err_tcp goes to the netconn that has lost its pcb, if it has room. */
  function ErrorPosted(p: Peer): Peer {
    if p.Peer? && p.gone && HasRoom(p) then p.(posted := p.posted + 1, announced := p.announced + 1) else p
  }

  /** How a call goes on that is between two steps of the table. */
  function Carry(w: World, t: Tid, d: Deed): Option<Turn>
    requires t < |w.calls|
  {
    match w.calls[t]
    case NoCall => None
    case Handling(i, conn, todo, end) => if d.Continue? then Handle(w, i, conn, todo, end) else None
    case Closing(i, isTcp) =>
      if d.Continue? then Some(Turn(Some(FreeSocket(i, isTcp)), w.peers, NoCall, w.core)) else None
    case Opening(i, accepted) =>
      if i >= |w.peers| || w.peers[i].Nobody? then None
      else if d.Publish? then Some(Turn(None, w.peers[i := w.peers[i].(stage := Known)], NoCall, w.core))
      else if d.Abandon? && accepted then
        Some(Turn(Some(FreeSocket(i, true)), w.peers[i := w.peers[i].(stage := Abandoned)], NoCall, w.core))
      else None
  }

  /** A step inside one of the operations of the table. */
  function Within(w: World, t: Tid, th: Thread, a: Action): Turn
    requires t < |w.calls|
  {
    match th.pc
    case Allocating(k, _, writable) =>
      if th.deleting.None? && k < |w.s.slots| && k < |w.peers| && Available(w.s.slots[k])
      then Turn(Some(a), w.peers[k := NEWBORN.(stage := Opened(t))], Opening(k, writable), w.core)
      else Turn(Some(a), w.peers, w.calls[t], w.core)
    case EvApply(i, e) =>
      if th.deleting.None? && e.RcvPlus? && i < |w.peers|
      then Turn(Some(a), w.peers[i := Announced(w.peers[i], w.core == Some(t), true)], w.calls[t], w.core)
      else Turn(Some(a), w.peers, w.calls[t], w.core)
    case _ => Turn(Some(a), w.peers, w.calls[t], w.core)
  }

  function Decision(w: World, t: Tid, d: Deed): Option<Turn>
    requires t < |w.calls| && t < |w.s.threads|
  {
    var th := w.s.threads[t];
    if th.deleting.Some? || !th.pc.Running? then
      if d.Table? && (d.action.Go? || d.action.Fail?) then Some(Within(w, t, th, d.action)) else None
    else if w.calls[t].NoCall? then Begin(w, t, th, d)
    else Carry(w, t, d)
  }

  ghost predicate Acts(w: World, t: Tid, d: Deed, w': World) {
    && t < |w.s.threads| && t < |w.calls| && Decision(w, t, d).Some?
    && var turn := Decision(w, t, d).value;
       && (if turn.action.Some? then Next(w.s, t, turn.action.value, w'.s) else w'.s == w.s)
       && w'.peers == turn.peers && w'.calls == w.calls[t := turn.call] && w'.core == turn.core
  }

  ghost predicate Begins(w: World) {
    && Init(w.s) && w.core == None
    && |w.peers| == |w.s.slots| && (forall i :: 0 <= i < |w.peers| ==> w.peers[i] == Nobody)
    && |w.calls| == |w.s.threads| && (forall t :: 0 <= t < |w.calls| ==> w.calls[t] == NoCall)
  }

  datatype Doing = Doing(thread: Tid, deed: Deed)

  /** `w` is reached by the given deeds, each of which satisfies `ok` where it is done. */
  ghost predicate Runs(ok: (World, Tid, Deed) -> bool, deeds: seq<Doing>, w: World)
    decreases |deeds|, 1
  {
    if deeds == [] then Begins(w) else exists p :: LastDeed(ok, deeds, p, w)
  }

  ghost predicate LastDeed(ok: (World, Tid, Deed) -> bool, deeds: seq<Doing>, p: World, w: World)
    requires deeds != []
    decreases |deeds|, 0
  {
    var last := deeds[|deeds| - 1];
    && Runs(ok, deeds[..|deeds| - 1], p)
    && Acts(p, last.thread, last.deed, w) && ok(p, last.thread, last.deed)
  }

  /** Any run. */
  function Anyhow(): (World, Tid, Deed) -> bool {
    (w, t, d) => true
  }

  // ---- What the handlers tell

  /** A slot after all these events. */
  function Applied(slot: Slot, events: seq<Event>): Slot
    decreases |events|
  {
    if events == [] then slot else Applied(Posted(slot, events[0]), events[1..])
  }

  /** What three kinds of events, each raised or not, leave in a slot. */
  lemma RaisedLeaves(slot: Slot, full: bool, rx: bool, tx: bool)
    ensures var after := Applied(slot, Raised(full, rx, tx));
      && (after.errevent <==> slot.errevent || full) && (after.sendevent <==> slot.sendevent || tx)
      && after.rcvevent == (if rx then S16(slot.rcvevent + 1) else slot.rcvevent)
  {
    var first := if full then [ErrorEvent] else [];
    var second := if rx then [RcvPlus] else [];
    var third := if tx then [SendPlus] else [];
    assert Raised(full, rx, tx) == first + second + third;
    AppliedInTurn(slot, first + second, third);
    AppliedInTurn(slot, first, second);
    assert full ==> first[1..] == [];
    assert rx ==> second[1..] == [];
    assert tx ==> third[1..] == [];
  }

  lemma {:induction false} AppliedInTurn(slot: Slot, a: seq<Event>, b: seq<Event>)
    ensures Applied(slot, a + b) == Applied(Applied(slot, a), b)
    decreases |a|
  {
    if a == [] {
      assert a + b == b;
    } else {
      AppliedInTurn(Posted(slot, a[0]), a[1..], b);
      assert (a + b)[0] == a[0] && (a + b)[1..] == a[1..] + b;
    }
  }

  /** Readers, writers and whoever waits for errors are all told of a failure, and of a close;
      a shutdown tells those it concerns, and everybody if it gives the pcb up. */
  lemma HandlersTell(w: World, t: Tid, d: Deed, i: nat, slot: Slot)
    requires d == Break(i) || d.Close? || d.Shutdown? || d == Arrive(i)
    requires d.Close? || d.Shutdown? ==> d.fd == i
    requires (if d.Break? || d.Arrive? then CoreBegins(w, t, d) else CallBegins(w, t, d)).Some?
    ensures var turn := (if d.Break? || d.Arrive? then CoreBegins(w, t, d) else CallBegins(w, t, d)).value;
      && turn.call.Handling? && turn.call.fd == i < |turn.peers| && turn.peers[i].Peer?
      && var after := Applied(slot, turn.call.todo);
      && (after.errevent <==>
            slot.errevent || d.Break? || (d.Shutdown? && d.full) || (d.Close? && d.isTcp && !w.peers[i].gone))
      && (after.sendevent <==> slot.sendevent || d.Break? || d.Close? || (d.Shutdown? && d.tx))
      && after.rcvevent == (if d.Shutdown? && !d.rx then slot.rcvevent else S16(slot.rcvevent + 1))
      && (turn.peers[i].gone <==> d.Break? || d.Close? || (d.Shutdown? && d.full))
      && turn.peers[i].posted == w.peers[i].posted + if d.Arrive? then 1 else 0
  {
    match d
    case Break(_) => RaisedLeaves(slot, true, true, true);
    case Close(_, isTcp) => RaisedLeaves(slot, isTcp && !w.peers[i].gone, true, true);
    case Shutdown(_, full, rx, tx) => RaisedLeaves(slot, full, rx, tx);
    case Arrive(_) => assert [RcvPlus][1..] == [];
  }

  /** A handler raises its events one by one; err_tcp then posts its message, if the mailbox has
      room, and its RCVPLUS has announced it; and lwip_accept replays a RCVPLUS at a time. */
  lemma HandlerGoesOn(w: World, t: Tid, i: nat, conn: Option<ConnId>, todo: seq<Event>, end: End)
    requires Handle(w, i, conn, todo, end).Some?
    ensures var turn := Handle(w, i, conn, todo, end).value;
      if todo != [] then
        turn.call == Handling(i, conn, todo[1..], end) && turn.core == w.core
        && (w.peers[i].stage == Known && w.s.slots[i].conn == conn ==> turn.action == Some(Post(i, todo[0])))
      else
        && turn.core.None? && turn.action.None?
        && turn.call == (if end.AckAndFree? then Closing(i, end.isTcp) else NoCall)
        && turn.peers[i].posted == w.peers[i].posted + Is1(end.AckAndPost? && w.peers[i].gone && HasRoom(w.peers[i]))
        && turn.peers[i].announced - w.peers[i].announced == turn.peers[i].posted - w.peers[i].posted
  {
  }

  lemma ReplayRaises(w: World, t: Tid, i: nat)
    requires CallBegins(w, t, Replay(i)).Some?
    ensures CallBegins(w, t, Replay(i)).value.action == Some(Post(i, RcvPlus))
    ensures CallBegins(w, t, Replay(i)).value.call == NoCall && CallBegins(w, t, Replay(i)).value.peers == w.peers
  {
  }
}
