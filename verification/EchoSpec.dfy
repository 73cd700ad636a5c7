/** What the echo server of lwip_client/ta/tcpecho_raw.c promises, without buffers. */
module EchoSpec {
  import opened Common

  // One connection is a list of segments received but not yet echoed. EchoServer proves that the
  // callbacks and their reference-counted buffer chain implement it.

  datatype State = Accepted | Received | Closing

  datatype Life = Open | Closed | Failed

  /** What the TCP core says to the n-th attempt of one send loop. */
  datatype Probe = Probe(sndbuf: nat, write: Err)

  datatype Event =
    | Data(content: seq<seq<byte>>)
    | Fin
    | Sent
    | Poll
    | Error

  /** `received` counts what came before the FIN; later data is discarded and `trashed`. */
  datatype View = View(
    life: Life, state: State,
    received: seq<byte>, written: seq<byte>, pending: seq<seq<byte>>,
    credited: nat, trashed: nat)

  const INITIAL := View(Open, Accepted, [], [], [], 0, 0)

  predicate Takes(core: nat -> Probe, j: nat, segment: seq<byte>) {
    |segment| <= core(j).sndbuf && core(j).write == OK
  }

  /** How many of the pending segments one send loop gets through, starting at attempt `j`. */
  function Echoed(core: nat -> Probe, pending: seq<seq<byte>>, j: nat): (n: nat)
    ensures n <= |pending|
    ensures forall i :: 0 <= i < n ==> Takes(core, j + i, pending[i])
    ensures n < |pending| ==> !Takes(core, j + n, pending[n])
    decreases |pending|
  {
    if pending == [] || !Takes(core, j, pending[0]) then 0
    else 1 + Echoed(core, pending[1..], j + 1)
  }

  /** One send loop, starting at attempt `j`. */
  function SendFrom(v: View, core: nat -> Probe, j: nat): View {
    var n := Echoed(core, v.pending, j);
    var out := Flatten(v.pending[..n]);
    v.(written := v.written + out, pending := v.pending[n..], credited := v.credited + |out|)
  }

  function Send(v: View, core: nat -> Probe): View {
    SendFrom(v, core, 0)
  }

  /** The head of the pending list has been handed to the TCP core. */
  function HeadSent(v: View): View
    requires v.pending != []
  {
    v.(written := v.written + v.pending[0], pending := v.pending[1..], credited := v.credited + |v.pending[0]|)
  }

  /** The loop stops at the first buffer that is refused, and otherwise hands over the head
      and goes on. */
  lemma SendStep(v: View, core: nat -> Probe, j: nat)
    ensures SendFrom(v, core, j)
         == if v.pending == [] || !Takes(core, j, v.pending[0]) then v else SendFrom(HeadSent(v), core, j + 1)
  {
    if v.pending != [] && Takes(core, j, v.pending[0]) {
      var n := Echoed(core, v.pending[1..], j + 1);
      assert v.pending[..n + 1] == [v.pending[0]] + v.pending[1..][..n];
      assert v.pending[1..][n..] == v.pending[n + 1..];
      assert v.written + (v.pending[0] + Flatten(v.pending[1..][..n]))
          == v.written + v.pending[0] + Flatten(v.pending[1..][..n]);
    }
  }

  function Close(v: View, how: Life): View {
    v.(life := how, pending := [])
  }

  /** The sent and poll callbacks: go on sending, or close once there is nothing left. */
  function Resume(v: View, core: nat -> Probe): View {
    if v.pending != [] then Send(v, core)
    else if v.state == Closing then Close(v, Closed)
    else v
  }

  function Step(v: View, e: Event, core: nat -> Probe): View {
    if v.life != Open then v
    else match e
      case Data(content) =>
        var grown := v.(received := v.received + Flatten(content), pending := v.pending + content);
        (match v.state
         case Accepted => Send(grown.(state := Received), core)
         case Received => if v.pending == [] then Send(grown, core) else grown
         case Closing => v.(trashed := v.trashed + |Flatten(content)|, credited := v.credited + |Flatten(content)|))
      case Fin =>
        var closing := v.(state := Closing);
        if v.pending == [] then Close(closing, Closed) else Send(closing, core)
      case Sent => Resume(v, core)
      case Poll => Resume(v, core)
      case Error => Close(v, Failed)
  }

  /** The invariant of every reachable connection. */
  ghost predicate Faithful(v: View) {
    && v.written <= v.received
    && (v.life == Open ==> v.received == v.written + Flatten(v.pending))
    && (v.life == Closed ==> v.written == v.received && v.state == Closing)
    && (v.state == Accepted ==> v.received == [] && v.pending == [])
    && v.credited == |v.written| + v.trashed
  }

  lemma {:induction false} SendIsFaithful(v: View, core: nat -> Probe, j: nat)
    requires Faithful(v) && v.life == Open
    ensures Faithful(SendFrom(v, core, j))
    ensures v.written <= SendFrom(v, core, j).written
    decreases |v.pending|
  {
    SendStep(v, core, j);
    if v.pending != [] && Takes(core, j, v.pending[0]) {
      assert v.written + (v.pending[0] + Flatten(v.pending[1..])) == HeadSent(v).written + Flatten(v.pending[1..]);
      SendIsFaithful(HeadSent(v), core, j + 1);
    }
  }

  lemma StepIsFaithful(v: View, e: Event, core: nat -> Probe)
    requires Faithful(v)
    ensures Faithful(Step(v, e, core))
    ensures v.written <= Step(v, e, core).written
    ensures Step(v, e, core).received == v.received + Kept(v, e)
  {
    if v.life == Open {
      match e
      case Data(content) =>
        FlattenAppend(v.pending, content);
        var grown := v.(received := v.received + Flatten(content), pending := v.pending + content);
        assert grown.received == grown.written + Flatten(grown.pending);
        if v.state != Closing {
          SendIsFaithful(grown.(state := Received), core, 0);
        }
      case Fin =>
        if v.pending != [] { SendIsFaithful(v.(state := Closing), core, 0); }
      case Sent =>
        SendIsFaithful(v, core, 0);
      case Poll =>
        SendIsFaithful(v, core, 0);
      case Error =>
    }
  }

  /** What is waiting to be sent once the event has come. */
  function Queue(v: View, e: Event): seq<seq<byte>> {
    if e.Data? && v.state != Closing then v.pending + e.content else v.pending
  }

  /** The event is an occasion to send: not an error, nor data that is discarded or joins a
      queue that is waiting for room. */
  predicate Occasion(v: View, e: Event) {
    !e.Error? && !(e.Data? && (v.state == Closing || (v.state == Received && v.pending != [])))
  }

  /** On every such occasion the server sends as many of the waiting buffers as the core takes,
      in order; it closes exactly if the peer has and nothing is waiting; and an error discards
      everything. Discarded data are counted. */
  lemma SendsWhatFits(v: View, e: Event, core: nat -> Probe) returns (n: nat)
    requires v.life == Open
    ensures var r, q := Step(v, e, core), Queue(v, e);
      && n <= |q| && r.written == v.written + Flatten(q[..n]) && (r.life != Failed ==> r.pending == q[n..])
      && (if Occasion(v, e) then
            (forall j :: 0 <= j < n ==> Takes(core, j, q[j])) && (n < |q| ==> !Takes(core, n, q[n]))
          else n == 0)
      && (r.life == Closed <==> v.pending == [] && (e.Fin? || (v.state == Closing && (e.Sent? || e.Poll?))))
      && (r.life == Failed <==> e.Error?) && (r.life != Open ==> r.pending == [])
      && r.state == (if e.Fin? then Closing else if e.Data? && v.state == Accepted then Received else v.state)
      && r.trashed == v.trashed + if e.Data? && v.state == Closing then |Flatten(e.content)| else 0
  {
    var q := Queue(v, e);
    assert v.written + Flatten(q[..0]) == v.written && q[0..] == q;
    n := 0;
    if Occasion(v, e) && q != [] {
      n := SendFits(v.(pending := q), core);
    }
  }

  lemma SendFits(v: View, core: nat -> Probe) returns (n: nat)
    ensures n <= |v.pending| && Send(v, core).written == v.written + Flatten(v.pending[..n])
    ensures Send(v, core).pending == v.pending[n..]
    ensures forall j :: 0 <= j < n ==> Takes(core, j, v.pending[j])
    ensures n < |v.pending| ==> !Takes(core, n, v.pending[n])
  {
    n := Echoed(core, v.pending, 0);
    assert forall j :: 0 <= j < n ==> Takes(core, 0 + j, v.pending[j]);
  }

  /** The bytes of an event that the server undertakes to echo. */
  function Kept(v: View, e: Event): seq<byte> {
    if e.Data? && v.life == Open && v.state != Closing then Flatten(e.content) else []
  }

  datatype Callback = Callback(event: Event, core: nat -> Probe)

  function Run(calls: seq<Callback>): View {
    if calls == [] then INITIAL
    else
      var last := calls[|calls| - 1];
      Step(Run(calls[..|calls| - 1]), last.event, last.core)
  }

  /** The bytes delivered before the FIN, while the connection was alive. */
  function Delivered(calls: seq<Callback>): seq<byte> {
    if calls == [] then []
    else
      var init := calls[..|calls| - 1];
      Delivered(init) + Kept(Run(init), calls[|calls| - 1].event)
  }

  /** Whatever the callbacks and whatever the TCP core answers: the bytes written are a
      prefix of the bytes delivered before the FIN; what is missing is exactly the pending
      chain; and a connection the server closed itself has echoed every delivered byte. */
  lemma {:induction false} EchoIsFaithful(calls: seq<Callback>)
    ensures Faithful(Run(calls))
    ensures Run(calls).received == Delivered(calls)
    ensures Run(calls).written <= Delivered(calls)
    ensures Run(calls).life == Open ==> Delivered(calls) == Run(calls).written + Flatten(Run(calls).pending)
    ensures Run(calls).life == Closed ==> Run(calls).written == Delivered(calls)
  {
    if calls != [] {
      var init, last := calls[..|calls| - 1], calls[|calls| - 1];
      EchoIsFaithful(init);
      StepIsFaithful(Run(init), last.event, last.core);
    }
  }

  /** Once the FIN is in, two send opportunities with room for everything finish the job. */
  lemma DrainsAfterFin(v: View, core: nat -> Probe)
    requires Faithful(v) && v.life == Open && v.state == Closing
    requires forall j: nat :: j < |v.pending| ==> Takes(core, j, v.pending[j])
    ensures var done := Step(Step(v, Sent, core), Sent, core);
      done.life == Closed && done.written == v.received
  {
    var next := Step(v, Sent, core);
    StepIsFaithful(v, Sent, core);
    StepIsFaithful(next, Sent, core);
  }
}
