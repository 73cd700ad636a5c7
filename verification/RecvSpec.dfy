/** Receiving on a TCP socket (lwip_recv_tcp of lwip_client/ta/sockets.c) as functions on
    the state it works on. RecvTcp proves that the code computes them. */
module RecvSpec {
  import opened Common
  import Mailbox

  // What arrives while a call runs is an argument of the call: a script with one batch of
  // arrivals for every time the code looks into the mailbox. What the full mailbox refuses,
  // the TCP core keeps and presents again with the next batch. The core delivers non-empty
  // pbufs of at most 0xffff bytes, none after a FIN, and nothing after a failure.

  /** A message in recvmbox, and what puts it there: recv_tcp with data or with a FIN, or
      err_tcp, which posts the FIN message for ERR_CLSD. */
  datatype Item = Data(bytes: seq<byte>) | Fin | Failure(err: Err)

  /** How far the core has come with the connection. */
  datatype Phase = Streaming | Finished | Failed

  /** The state a receive works on, and three logs: the bytes posted to the mailbox, the
      bytes returned to the caller, and the amounts passed to tcp_recved (`credits`). */
  datatype Rx = Rx(
    lastdata: Option<seq<byte>>, mbox: seq<Item>, waitable: bool,
    finPending: bool,   // NETCONN_FIN_RX_PENDING
    mboxClosed: bool,   // NETCONN_FLAG_MBOXCLOSED
    pendingErr: Err,
    attached: bool,     // conn->pcb.tcp != NULL
    nonblocking: bool, phase: Phase,
    credits: seq<nat>, returned: seq<byte>, posted: seq<byte>)

  const NEW_SOCKET := Rx(None, [], true, false, false, OK, true, false, Streaming, [], [], [])

  // ---- Items

  function Payload(item: Item): seq<byte> {
    if item.Data? then item.bytes else []
  }

  function DataOf(items: seq<Item>): seq<byte> {
    if items == [] then [] else Payload(items[0]) + DataOf(items[1..])
  }

  lemma {:induction false} DataOfAppend(a: seq<Item>, b: seq<Item>)
    ensures DataOf(a + b) == DataOf(a) + DataOf(b)
  {
    if a == [] {
      assert a + b == b;
    } else {
      DataOfAppend(a[1..], b);
      assert (a + b)[0] == a[0] && (a + b)[1..] == a[1..] + b;
      Regroup(Payload(a[0]), DataOf(a[1..]), DataOf(b));
    }
  }

  predicate GoodItem(item: Item) {
    match item
    case Data(bytes) => 0 < |bytes| <= U16_MAX
    case Fin => true
    case Failure(err) => err == ABRT || err == RST || err == CLSD
  }

  predicate MayCome(phase: Phase, item: Item) {
    match item
    case Data(_) => phase == Streaming
    case Fin => phase == Streaming
    case Failure(_) => phase != Failed
  }

  function After(phase: Phase, item: Item): Phase {
    match item
    case Data(_) => phase
    case Fin => Finished
    case Failure(_) => Failed
  }

  predicate InOrder(phase: Phase, items: seq<Item>)
    decreases |items|
  {
    items == [] || (GoodItem(items[0]) && MayCome(phase, items[0]) && InOrder(After(phase, items[0]), items[1..]))
  }

  function PhaseAfter(phase: Phase, items: seq<Item>): Phase
    decreases |items|
  {
    if items == [] then phase else PhaseAfter(After(phase, items[0]), items[1..])
  }

  lemma {:induction false} InOrderAppend(phase: Phase, a: seq<Item>, b: seq<Item>)
    ensures InOrder(phase, a + b) <==> InOrder(phase, a) && InOrder(PhaseAfter(phase, a), b)
    ensures PhaseAfter(phase, a + b) == PhaseAfter(PhaseAfter(phase, a), b)
    decreases |a|
  {
    if a == [] {
      assert a + b == b;
    } else {
      InOrderAppend(After(phase, a[0]), a[1..], b);
      assert (a + b)[0] == a[0] && (a + b)[1..] == a[1..] + b;
    }
  }

  /** Once the stream has ended no data comes, and it stays ended. */
  lemma {:induction false} NoDataAfterEnd(phase: Phase, items: seq<Item>)
    requires phase != Streaming && InOrder(phase, items)
    ensures DataOf(items) == [] && PhaseAfter(phase, items) != Streaming
    ensures phase == Failed ==> items == []
    decreases |items|
  {
    if items != [] {
      NoDataAfterEnd(After(phase, items[0]), items[1..]);
    }
  }

  /** What may come in a later phase may come in an earlier one. */
  predicate NotLater(a: Phase, b: Phase) {
    a == Streaming || a == b || b == Failed
  }

  lemma {:induction false} EarlierAllows(a: Phase, b: Phase, items: seq<Item>)
    requires NotLater(a, b) && InOrder(b, items)
    ensures InOrder(a, items) && NotLater(PhaseAfter(a, items), PhaseAfter(b, items))
    decreases |items|
  {
    if items != [] {
      EarlierAllows(After(a, items[0]), After(b, items[0]), items[1..]);
    }
  }

  function All(script: seq<seq<Item>>): seq<Item> {
    if script == [] then [] else script[0] + All(script[1..])
  }

  // ---- Arrivals

  predicate MboxFull(mbox: seq<Item>) {
    |mbox| >= Mailbox.SIZE - 1
  }

  /** recv_tcp answers ERR_MEM; err_tcp cannot. */
  predicate Refuses(s: Rx, item: Item) {
    !item.Failure? && s.waitable && MboxFull(s.mbox)
  }

  /** recv_tcp, or err_tcp as far as it concerns receiving: with the mailbox full, the message
      of a failure is dropped, and only its other effects remain. */
  function Arrived(s: Rx, item: Item): Rx {
    var mbox := if s.waitable && !MboxFull(s.mbox) then s.mbox + [item] else s.mbox;
    s.(mbox := mbox, phase := After(s.phase, item), posted := s.posted + Payload(item),
       attached := s.attached && !item.Failure?,
       pendingErr := if item.Failure? then item.err else s.pendingErr,
       mboxClosed := s.mboxClosed || item.Failure?)
  }

  /** A batch of arrivals, up to the first one refused; the rest is left over. */
  function Delivered(s: Rx, items: seq<Item>): (r: (Rx, seq<Item>))
    ensures r.1 != [] ==> MboxFull(r.0.mbox)
    decreases |items|
  {
    if items == [] || Refuses(s, items[0]) then (s, items) else Delivered(Arrived(s, items[0]), items[1..])
  }

  function PutBack(left: seq<Item>, script: seq<seq<Item>>): seq<seq<Item>> {
    if left == [] then script else if script == [] then [left] else [left + script[0]] + script[1..]
  }

  /** What arrives before the next look into the mailbox, and the script left. */
  function Awaited(s: Rx, script: seq<seq<Item>>): (r: (Rx, seq<seq<Item>>))
    ensures script != [] && r.0.mbox == [] ==> |r.1| < |script|
    ensures |r.1| <= |script|
  {
    if script == [] then (s, [])
    else
      var d := Delivered(s, script[0]);
      (d.0, PutBack(d.1, script[1..]))
  }

  // ---- netconn_recv_data

  datatype Fetched = Got(item: Item) | Nothing(err: Err) | Blocks

  function Waited(s: Rx, tryOnly: bool, script: seq<seq<Item>>): (Rx, seq<seq<Item>>)
    decreases |script|
  {
    var r := Awaited(s, script);
    if r.0.mbox == [] && !tryOnly && r.1 != [] then Waited(r.0, tryOnly, r.1) else r
  }

  predicate TryOnly(s: Rx, dontblock: bool) {
    s.nonblocking || dontblock || s.mboxClosed || s.pendingErr != OK
  }

  /** The error of an empty mailbox: the pending one, once. */
  function EmptyErr(s: Rx): Err {
    if s.pendingErr != OK then s.pendingErr else if s.mboxClosed then CONN else WOULDBLOCK
  }

  /** With the mailbox as it is: the oldest message, or that error, or still waiting. */
  function Taken(s: Rx, tryOnly: bool): (Rx, Fetched) {
    if s.mbox != [] then (s.(mbox := s.mbox[1..]), Got(s.mbox[0]))
    else if tryOnly then (s.(pendingErr := OK), Nothing(EmptyErr(s)))
    else (s, Blocks)
  }

  // ---- netconn_recv_data_tcp, with NETCONN_NOAUTORCVD

  datatype Received = Bytes(pbuf: seq<byte>) | Refused(err: Err) | NeverReturns

  /** handle_fin: a pending error of a connection that is gone, or the shutdown of the
      receiving side, which closes the mailbox. */
  function FinHandled(s: Rx): (Rx, Err) {
    if !s.attached then (s.(pendingErr := OK), if s.pendingErr != OK then s.pendingErr else RST)
    else (s.(waitable := false, mbox := []), CLSD)
  }

  function ItemTaken(s: Rx, item: Item, nofin: bool): (Rx, Received) {
    match item
    case Data(bytes) => (s, Bytes(bytes))
    case Failure(err) => if err != CLSD then (s, Refused(err)) else FinTaken(s, nofin)
    case Fin => FinTaken(s, nofin)
  }

  /** A FIN that the caller cannot handle is kept for later. */
  function FinTaken(s: Rx, nofin: bool): (Rx, Received) {
    if nofin then (s.(finPending := true), Refused(WOULDBLOCK))
    else
      var r := FinHandled(s);
      (r.0, Refused(r.1))
  }

  function FetchedTaken(s: Rx, f: Fetched, nofin: bool): (Rx, Received) {
    match f
    case Blocks => (s, NeverReturns)
    case Nothing(err) => (s, Refused(err))
    case Got(item) => ItemTaken(s, item, nofin)
  }

  datatype Looked = Looked(rx: Rx, got: Received, rest: seq<seq<Item>>)

  function RecvData(s: Rx, dontblock: bool, nofin: bool, script: seq<seq<Item>>): Looked {
    if !s.waitable then Looked(s, Refused(CONN), script)
    else if s.finPending then
      var r := FinHandled(s.(finPending := false));
      Looked(r.0, Refused(r.1), script)
    else
      var w := Waited(s, TryOnly(s, dontblock), script);
      var f := Taken(w.0, TryOnly(s, dontblock));
      var t := FetchedTaken(f.0, f.1, nofin);
      Looked(t.0, t.1, w.1)
  }

  // ---- lwip_recv_tcp

  /** Something in lastdata to copy from, if there is anything. */
  function Refilled(s: Rx, dontblock: bool, nofin: bool, script: seq<seq<Item>>): Looked {
    if s.lastdata.Some? then Looked(s, Bytes(s.lastdata.value), script)
    else
      var r := RecvData(s, dontblock, nofin, script);
      if r.got.Bytes? then r.(rx := r.rx.(lastdata := Some(r.got.pbuf))) else r
  }

  function CopyLen(left: nat, pbuf: seq<byte>): (n: nat)
    ensures n <= left && n <= |pbuf|
  {
    if left > |pbuf| then |pbuf| else left
  }

  /** Copied bytes are hidden or freed. */
  function Consumed(s: Rx, n: nat): Rx
    requires s.lastdata.Some? && n <= |s.lastdata.value|
  {
    var p := s.lastdata.value;
    s.(returned := s.returned + p[..n], lastdata := if n < |p| then Some(p[n..]) else None)
  }

  datatype Gathered = Gathered(rx: Rx, last: Received, data: seq<byte>, rest: seq<seq<Item>>)

  /** One turn of the loop without MSG_PEEK; `later` is whether something has been gathered
      already: then it neither waits nor takes a FIN. */
  datatype Turned = Turned(rx: Rx, last: Received, copied: seq<byte>, rest: seq<seq<Item>>)

  function Copied(left: nat, r: Looked): Turned
    requires r.got.Bytes? ==> r.rx.lastdata == Some(r.got.pbuf)
  {
    if !r.got.Bytes? then Turned(r.rx, r.got, [], r.rest)
    else
      var n := CopyLen(left, r.got.pbuf);
      Turned(Consumed(r.rx, n), r.got, r.got.pbuf[..n], r.rest)
  }

  function Turn(s: Rx, left: nat, later: bool, dontwait: bool, script: seq<seq<Item>>): Turned {
    Copied(left, Refilled(s, dontwait || later, later, script))
  }

  /** The loop. */
  function Gather(s: Rx, left: nat, later: bool, dontwait: bool, script: seq<seq<Item>>): Gathered
    decreases left
  {
    var t := Turn(s, left, later, dontwait, script);
    if !t.last.Bytes? || |t.copied| == left || t.copied == [] then Gathered(t.rx, t.last, t.copied, t.rest)
    else Prefixed(t.copied, Gather(t.rx, left - |t.copied|, true, dontwait, t.rest))
  }

  function Prefixed(data: seq<byte>, g: Gathered): Gathered {
    g.(data := data + g.data)
  }

  /** netconn_tcp_recvd and do_recv: the window is opened in 16-bit steps. */
  function Steps(n: nat): seq<nat> {
    if n <= U16_MAX then [n] else [U16_MAX] + Steps(n - U16_MAX)
  }

  function Recvd(s: Rx, n: nat): Rx {
    if n > 0 && s.attached then s.(credits := s.credits + Steps(n)) else s
  }

  datatype Outcome = Outcome(rx: Rx, result: int, data: seq<byte>, blocked: bool, rest: seq<seq<Item>>)

  /** What is returned after the loop: -1 is an error, and `blocked` a call still waiting
      when everything in the script has arrived. */
  function Concluded(rx: Rx, last: Received, data: seq<byte>, rest: seq<seq<Item>>): Outcome {
    if data != [] || last.Bytes? then Outcome(rx, |data|, data, false, rest)
    else if last == Refused(CLSD) then Outcome(rx, 0, [], false, rest)
    else Outcome(rx, -1, [], last.NeverReturns?, rest)
  }

  function Limit(len: nat): nat {
    if len <= SSIZE_MAX then len else SSIZE_MAX
  }

  /** With MSG_PEEK: one turn, nothing consumed. */
  function Peeked(len: nat, r: Looked): Outcome {
    Concluded(r.rx, r.got, if r.got.Bytes? then r.got.pbuf[..CopyLen(Limit(len), r.got.pbuf)] else [], r.rest)
  }

  function Recv(s: Rx, len: nat, peek: bool, dontwait: bool, script: seq<seq<Item>>): Outcome {
    if peek then Peeked(len, Refilled(s, dontwait, false, script))
    else
      var g := Gather(s, Limit(len), false, dontwait, script);
      Concluded(Recvd(g.rx, |g.data|), g.last, g.data, g.rest)
  }

  // ---- The invariant

  function Held(s: Rx): seq<byte> {
    if s.lastdata.Some? then s.lastdata.value else []
  }

  /** Received bytes that no call has returned yet, oldest first. */
  function Remaining(s: Rx): seq<byte> {
    Held(s) + DataOf(s.mbox)
  }

  /** The stream is whole: what was posted is what was returned and what remains. */
  predicate Whole(s: Rx) {
    s.returned + Remaining(s) == s.posted
  }

  predicate FlagsOk(s: Rx) {
    && |s.mbox| < Mailbox.SIZE
    && (s.lastdata.Some? ==> 0 < |s.lastdata.value| <= U16_MAX)
    && (s.finPending ==> DataOf(s.mbox) == [] && s.phase != Streaming)
    && (!s.waitable ==> s.mbox == [] && s.phase != Streaming)
    && (s.pendingErr != OK ==> s.phase == Failed && GoodItem(Failure(s.pendingErr)))
    && (s.attached <==> s.phase != Failed) && (s.mboxClosed <==> s.phase == Failed)
  }

  /** The failure in the mailbox is the pending one, unless that has been taken already. */
  ghost predicate FailureIsPending(s: Rx) {
    forall k :: 0 <= k < |s.mbox| && s.mbox[k].Failure? && s.pendingErr != OK ==> s.mbox[k].err == s.pendingErr
  }

  ghost predicate Inv(s: Rx) {
    && Whole(s) && FlagsOk(s) && FailureIsPending(s)
    && InOrder(Streaming, s.mbox) && NotLater(PhaseAfter(Streaming, s.mbox), s.phase)
  }

  /** What will have been posted once `script` has arrived, and how far the core is then. */
  function Due(s: Rx, script: seq<seq<Item>>): (seq<byte>, Phase) {
    (s.posted + DataOf(All(script)), PhaseAfter(s.phase, All(script)))
  }

  /** `script` may come, and brings what is due. */
  ghost predicate Expecting(s: Rx, script: seq<seq<Item>>, due: (seq<byte>, Phase)) {
    InOrder(s.phase, All(script)) && Due(s, script) == due
  }

  /** What arrivals leave alone. */
  predicate OnlyArrivals(s: Rx, s': Rx) {
    && s'.lastdata == s.lastdata && s'.waitable == s.waitable && s'.finPending == s.finPending
    && s'.nonblocking == s.nonblocking && s'.credits == s.credits && s'.returned == s.returned
    && (s'.attached ==> s.attached)
  }

  /** Before a failure there is none in the mailbox. */
  lemma {:induction false} NoFailureYet(phase: Phase, items: seq<Item>)
    requires InOrder(phase, items) && PhaseAfter(phase, items) != Failed
    ensures phase != Failed
    ensures forall k :: 0 <= k < |items| ==> !items[k].Failure?
    decreases |items|
  {
    if items != [] {
      NoFailureYet(After(phase, items[0]), items[1..]);
      assert forall k :: 0 < k < |items| ==> items[k] == items[1..][k - 1];
    }
  }

  lemma ArrivedKeeps(s: Rx, item: Item)
    requires Inv(s) && GoodItem(item) && MayCome(s.phase, item) && !Refuses(s, item)
    ensures Inv(Arrived(s, item)) && OnlyArrivals(s, Arrived(s, item))
  {
    var s' := Arrived(s, item);
    DataOfAppend(s.mbox, [item]);
    assert DataOf([item]) == Payload(item) + DataOf([]);
    Regroup(Held(s), DataOf(s.mbox), Payload(item));
    Regroup(s.returned, Remaining(s), Payload(item));
    assert s.posted + [] == s.posted;
    if s.waitable && !MboxFull(s.mbox) {
      OneMore(s, item);
    }
    if item.Failure? {
      NoFailureYet(Streaming, s.mbox);
    }
  }

  lemma OneMore(s: Rx, item: Item)
    requires Inv(s) && GoodItem(item) && MayCome(s.phase, item)
    ensures InOrder(Streaming, s.mbox + [item])
    ensures NotLater(PhaseAfter(Streaming, s.mbox + [item]), After(s.phase, item))
  {
    InOrderAppend(Streaming, s.mbox, [item]);
    var p := PhaseAfter(Streaming, s.mbox);
    assert [item][1..] == [];
    assert PhaseAfter(p, [item]) == PhaseAfter(After(p, item), []);
    assert InOrder(s.phase, [item]) <==> InOrder(After(s.phase, item), []);
    EarlierAllows(p, s.phase, [item]);
    assert PhaseAfter(s.phase, [item]) == PhaseAfter(After(s.phase, item), []);
  }

  lemma {:induction false} DeliveredKeeps(s: Rx, items: seq<Item>)
    requires Inv(s) && InOrder(s.phase, items)
    ensures Inv(Delivered(s, items).0) && OnlyArrivals(s, Delivered(s, items).0)
    ensures InOrder(Delivered(s, items).0.phase, Delivered(s, items).1)
    ensures Delivered(s, items).0.posted + DataOf(Delivered(s, items).1) == s.posted + DataOf(items)
    ensures PhaseAfter(Delivered(s, items).0.phase, Delivered(s, items).1) == PhaseAfter(s.phase, items)
    decreases |items|
  {
    if items != [] && !Refuses(s, items[0]) {
      ArrivedKeeps(s, items[0]);
      DeliveredKeeps(Arrived(s, items[0]), items[1..]);
      Regroup(s.posted, Payload(items[0]), DataOf(items[1..]));
    }
  }

  lemma AllPutBack(left: seq<Item>, script: seq<seq<Item>>)
    ensures All(PutBack(left, script)) == left + All(script)
  {
    if left != [] && script != [] {
      var r := PutBack(left, script);
      assert r[0] == left + script[0] && r[1..] == script[1..];
    }
  }

  lemma AwaitedKeeps(s: Rx, script: seq<seq<Item>>, due: (seq<byte>, Phase))
    requires Inv(s) && Expecting(s, script, due)
    ensures Inv(Awaited(s, script).0) && OnlyArrivals(s, Awaited(s, script).0)
    ensures Expecting(Awaited(s, script).0, Awaited(s, script).1, due)
  {
    if script != [] {
      var later := All(script[1..]);
      var d := Delivered(s, script[0]);
      InOrderAppend(s.phase, script[0], later);
      DataOfAppend(script[0], later);
      DeliveredKeeps(s, script[0]);
      AllPutBack(d.1, script[1..]);
      InOrderAppend(d.0.phase, d.1, later);
      DataOfAppend(d.1, later);
      Regroup(d.0.posted, DataOf(d.1), DataOf(later));
      Regroup(s.posted, DataOf(script[0]), DataOf(later));
    }
  }

  lemma {:induction false} WaitedKeeps(s: Rx, tryOnly: bool, script: seq<seq<Item>>, due: (seq<byte>, Phase))
    requires Inv(s) && Expecting(s, script, due)
    ensures Inv(Waited(s, tryOnly, script).0) && OnlyArrivals(s, Waited(s, tryOnly, script).0)
    ensures Expecting(Waited(s, tryOnly, script).0, Waited(s, tryOnly, script).1, due)
    decreases |script|
  {
    var r := Awaited(s, script);
    AwaitedKeeps(s, script, due);
    if r.0.mbox == [] && !tryOnly && r.1 != [] {
      WaitedKeeps(r.0, tryOnly, r.1, due);
    }
  }

  // ---- What a receive makes of what it found

  /** A received pbuf becomes lastdata. */
  function Kept(s: Rx, got: Received): Rx {
    if got.Bytes? then s.(lastdata := Some(got.pbuf)) else s
  }

  /** Taking a message or an error changes neither the logs nor what the core has done. */
  predicate OnlyTaken(s: Rx, s': Rx) {
    && s'.nonblocking == s.nonblocking && s'.credits == s.credits && s'.returned == s.returned
    && (s'.attached ==> s.attached)
  }

  /** Either a pbuf that is the next of the stream, or no byte is left. */
  ghost predicate Sound(s: Rx, got: Received, s': Rx, dontblock: bool) {
    && OnlyTaken(s, s') && Inv(Kept(s', got))
    && (!got.Bytes? ==> Remaining(s') == [])
    && (got == Refused(CLSD) ==> s'.phase != Streaming)
    && (got.NeverReturns? ==> !dontblock && s'.waitable && s'.mbox == [])
    && got != Refused(OK)
  }

  /** The oldest message is out of the mailbox. */
  lemma PopKeeps(s: Rx)
    requires Inv(s) && s.lastdata.None? && s.mbox != []
    ensures GoodItem(s.mbox[0])
    ensures s.mbox[0].Data? ==> Inv(s.(mbox := s.mbox[1..], lastdata := Some(s.mbox[0].bytes)))
    ensures !s.mbox[0].Data? ==>
              Inv(s.(mbox := s.mbox[1..])) && DataOf(s.mbox[1..]) == [] && s.phase != Streaming
  {
    var item := s.mbox[0];
    assert forall k :: 0 <= k < |s.mbox[1..]| ==> s.mbox[1..][k] == s.mbox[k + 1];
    EarlierAllows(Streaming, After(Streaming, item), s.mbox[1..]);
    if !item.Data? {
      NoDataAfterEnd(After(Streaming, item), s.mbox[1..]);
    }
  }

  lemma TakenSound(s: Rx, dontblock: bool, tryOnly: bool, nofin: bool)
    requires Inv(s) && s.lastdata.None? && s.waitable && !s.finPending && (dontblock ==> tryOnly)
    ensures var f := Taken(s, tryOnly);
            var t := FetchedTaken(f.0, f.1, nofin);
            Sound(s, t.1, t.0, dontblock) && t.0.posted == s.posted && t.0.phase == s.phase
  {
    if s.mbox != [] {
      PopKeeps(s);
      var s' := s.(mbox := s.mbox[1..]);
    }
  }

  lemma RecvDataSound(s: Rx, dontblock: bool, nofin: bool, script: seq<seq<Item>>, due: (seq<byte>, Phase))
    requires Inv(s) && s.lastdata.None? && Expecting(s, script, due)
    ensures var r := RecvData(s, dontblock, nofin, script);
            Sound(s, r.got, r.rx, dontblock) && Expecting(r.rx, r.rest, due)
  {
    if s.waitable && !s.finPending {
      var w := Waited(s, TryOnly(s, dontblock), script);
      WaitedKeeps(s, TryOnly(s, dontblock), script, due);
      TakenSound(w.0, dontblock, TryOnly(s, dontblock), nofin);
    }
  }

  lemma RefilledSound(s: Rx, dontblock: bool, nofin: bool, script: seq<seq<Item>>, due: (seq<byte>, Phase))
    requires Inv(s) && Expecting(s, script, due)
    ensures var r := Refilled(s, dontblock, nofin, script);
            && Sound(s, r.got, r.rx, dontblock) && Expecting(r.rx, r.rest, due)
            && (r.got.Bytes? ==> r.rx.lastdata == Some(r.got.pbuf))
  {
    if s.lastdata.None? {
      RecvDataSound(s, dontblock, nofin, script, due);
    }
  }

  lemma ConsumedKeeps(s: Rx, n: nat)
    requires Inv(s) && s.lastdata.Some? && n <= |s.lastdata.value|
    ensures Inv(Consumed(s, n))
    ensures forall script, due :: Expecting(s, script, due) ==> Expecting(Consumed(s, n), script, due)
  {
    var p := s.lastdata.value;
    assert p == p[..n] + p[n..];
    Regroup(p[..n], p[n..], DataOf(s.mbox));
    Regroup(s.returned, p[..n], p[n..] + DataOf(s.mbox));
  }

  /** One call without MSG_PEEK hands out the next bytes of the stream, all that it can, and
      waits only while it has none. */
  ghost predicate Gathers(s: Rx, left: nat, dontwait: bool, g: Gathered) {
    && Inv(g.rx) && g.rx.credits == s.credits && (g.rx.attached ==> s.attached)
    && g.rx.returned == s.returned + g.data && |g.data| <= left
    && (|g.data| < left ==> !g.last.Bytes?) && (!g.last.Bytes? ==> Remaining(g.rx) == [])
    && (g.last == Refused(CLSD) ==> g.rx.phase != Streaming)
    && (g.last.NeverReturns? ==> g.data == [] && !dontwait)
  }

  /** So does one turn, except that there may be more. */
  ghost predicate Turns(s: Rx, left: nat, dontwait: bool, t: Turned) {
    && Inv(t.rx) && t.rx.credits == s.credits && (t.rx.attached ==> s.attached)
    && t.rx.returned == s.returned + t.copied && |t.copied| <= left
    && (if t.last.Bytes? then left > 0 ==> t.copied != [] else t.copied == [] && Remaining(t.rx) == [])
    && (t.last == Refused(CLSD) ==> t.rx.phase != Streaming)
    && (t.last.NeverReturns? ==> !dontwait)
  }

  lemma TurnSound(s: Rx, left: nat, later: bool, dontwait: bool, script: seq<seq<Item>>, due: (seq<byte>, Phase))
    requires Inv(s) && Expecting(s, script, due)
    ensures Turns(s, left, dontwait || later, Turn(s, left, later, dontwait, script))
    ensures Expecting(Turn(s, left, later, dontwait, script).rx, Turn(s, left, later, dontwait, script).rest, due)
  {
    var r := Refilled(s, dontwait || later, later, script);
    RefilledSound(s, dontwait || later, later, script, due);
    if r.got.Bytes? {
      CopyTurns(s, left, dontwait || later, r, CopyLen(left, r.got.pbuf));
    } else {
      assert s.returned + [] == s.returned;
    }
  }

  lemma CopyTurns(s: Rx, left: nat, dontwait: bool, r: Looked, n: nat)
    requires r.got.Bytes? && Sound(s, r.got, r.rx, dontwait) && r.rx.lastdata == Some(r.got.pbuf)
    requires n == CopyLen(left, r.got.pbuf)
    ensures Turns(s, left, dontwait, Turned(Consumed(r.rx, n), r.got, r.got.pbuf[..n], r.rest))
    ensures forall script, due :: Expecting(r.rx, script, due) ==> Expecting(Consumed(r.rx, n), script, due)
  {
    ConsumedKeeps(r.rx, n);
  }

  lemma MoreGathers(s: Rx, left: nat, dontwait: bool, t: Turned, quiet: bool, more: Gathered)
    requires Turns(s, left, dontwait, t) && t.last.Bytes?
    requires quiet && Gathers(t.rx, left - |t.copied|, quiet, more)
    ensures Gathers(s, left, dontwait, Prefixed(t.copied, more))
  {
    Regroup(s.returned, t.copied, more.data);
  }

  predicate Stops(left: nat, t: Turned) {
    !t.last.Bytes? || |t.copied| == left || t.copied == []
  }

  lemma {:induction false} GatherSound(s: Rx, left: nat, later: bool, dontwait: bool, script: seq<seq<Item>>,
                                       due: (seq<byte>, Phase))
    requires Inv(s) && Expecting(s, script, due)
    ensures Gathers(s, left, dontwait || later, Gather(s, left, later, dontwait, script))
    ensures Expecting(Gather(s, left, later, dontwait, script).rx, Gather(s, left, later, dontwait, script).rest, due)
    decreases left
  {
    var t := Turn(s, left, later, dontwait, script);
    TurnSound(s, left, later, dontwait, script, due);
    if !Stops(left, t) {
      GatherSound(t.rx, left - |t.copied|, true, dontwait, t.rest, due);
      var more := Gather(t.rx, left - |t.copied|, true, dontwait, t.rest);
      MoreGathers(s, left, dontwait || later, t, dontwait || true, more);
    }
  }

  // ---- Opening the window

  function Sum(amounts: seq<nat>): nat {
    if amounts == [] then 0 else amounts[0] + Sum(amounts[1..])
  }

  lemma {:induction false} SumAppend(a: seq<nat>, b: seq<nat>)
    ensures Sum(a + b) == Sum(a) + Sum(b)
  {
    if a == [] {
      assert a + b == b;
    } else {
      SumAppend(a[1..], b);
      assert (a + b)[0] == a[0] && (a + b)[1..] == a[1..] + b;
    }
  }

  lemma {:induction false} StepsAddUp(n: nat)
    ensures Sum(Steps(n)) == n && forall k :: 0 <= k < |Steps(n)| ==> Steps(n)[k] <= U16_MAX
  {
    if n <= U16_MAX {
      assert [n][1..] == [];
    } else {
      StepsAddUp(n - U16_MAX);
      assert ([U16_MAX] + Steps(n - U16_MAX))[1..] == Steps(n - U16_MAX);
    }
  }

  /** `n` more bytes of window have been opened, in steps that fit a u16_t. */
  ghost predicate Credited(before: seq<nat>, after: seq<nat>, n: nat) {
    && before <= after
    && (forall k :: |before| <= k < |after| ==> after[k] <= U16_MAX)
    && Sum(after) == Sum(before) + n
  }

  // ---- One call

  /** What a call of lwip_recv_tcp answers: the next bytes of the stream, 0 for its end, -1
      for an error; it comes back with less than asked for only if nothing is left. */
  ghost predicate Answers(len: nat, peek: bool, dontwait: bool, o: Outcome) {
    && (if o.result > 0 then o.result == |o.data| <= len else o.data == [])
    && (o.result == 0 && len > 0 ==> Remaining(o.rx) == [] && o.rx.phase != Streaming)
    && (o.result > 0 && !peek && o.result < len && o.result < SSIZE_MAX ==> Remaining(o.rx) == [])
    && (o.result < 0 ==> Remaining(o.rx) == [])
    && (o.blocked ==> !dontwait && o.result == -1)
  }

  /** What it does to the stream: nothing is lost, duplicated or reordered, a peek moves
      nothing, and what is returned is credited as long as there is a pcb. */
  ghost predicate Conserves(s: Rx, peek: bool, script: seq<seq<Item>>, o: Outcome) {
    && Inv(o.rx) && (o.rx.attached ==> s.attached)
    && (peek ==> o.rx.returned == s.returned && o.rx.credits == s.credits && o.data <= Remaining(o.rx))
    && (peek ==> Remaining(o.rx) + DataOf(All(o.rest)) == Remaining(s) + DataOf(All(script)))
    && (!peek ==> o.rx.returned == s.returned + o.data)
    && (!peek ==> Credited(s.credits, o.rx.credits, if o.rx.attached then |o.data| else 0))
  }

  /** If nothing has been returned in between, what remains and what is due stay the same. */
  lemma SameRest(returned: seq<byte>, now: seq<byte>, due: seq<byte>, before: seq<byte>, dueBefore: seq<byte>)
    requires (returned + now) + due == (returned + before) + dueBefore
    ensures now + due == before + dueBefore
  {
    assert ((returned + now) + due)[|returned|..] == now + due;
    assert ((returned + before) + dueBefore)[|returned|..] == before + dueBefore;
  }

  lemma PeekConserves(s: Rx, script: seq<seq<Item>>, s': Rx, rest: seq<seq<Item>>, due: (seq<byte>, Phase))
    requires Inv(s) && Expecting(s, script, due) && Inv(s') && Expecting(s', rest, due) && s'.returned == s.returned
    ensures Remaining(s') + DataOf(All(rest)) == Remaining(s) + DataOf(All(script))
  {
    SameRest(s.returned, Remaining(s'), DataOf(All(rest)), Remaining(s), DataOf(All(script)));
  }

  lemma PeekAnswers(s: Rx, len: nat, dontwait: bool, r: Looked)
    requires Sound(s, r.got, r.rx, dontwait) && (r.got.Bytes? ==> r.rx.lastdata == Some(r.got.pbuf))
    ensures Answers(len, true, dontwait, Peeked(len, r)) && Peeked(len, r).data <= Remaining(r.rx)
  {
  }

  lemma PeekServes(s: Rx, len: nat, dontwait: bool, script: seq<seq<Item>>, due: (seq<byte>, Phase))
    requires Inv(s) && Expecting(s, script, due)
    ensures Answers(len, true, dontwait, Recv(s, len, true, dontwait, script))
    ensures Conserves(s, true, script, Recv(s, len, true, dontwait, script))
    ensures Expecting(Recv(s, len, true, dontwait, script).rx, Recv(s, len, true, dontwait, script).rest, due)
  {
    var r := Refilled(s, dontwait, false, script);
    RefilledSound(s, dontwait, false, script, due);
    PeekAnswers(s, len, dontwait, r);
    PeekConserves(s, script, r.rx, r.rest, due);
  }

  lemma TakeServes(s: Rx, len: nat, dontwait: bool, script: seq<seq<Item>>, due: (seq<byte>, Phase))
    requires Inv(s) && Expecting(s, script, due)
    ensures Answers(len, false, dontwait, Recv(s, len, false, dontwait, script))
    ensures Conserves(s, false, script, Recv(s, len, false, dontwait, script))
    ensures Expecting(Recv(s, len, false, dontwait, script).rx, Recv(s, len, false, dontwait, script).rest, due)
  {
    var g := Gather(s, Limit(len), false, dontwait, script);
    GatherSound(s, Limit(len), false, dontwait, script, due);
    StepsAddUp(|g.data|);
    SumAppend(g.rx.credits, Steps(|g.data|));
  }

  // ---- When a call waits

  /** There is nothing to return, nothing comes, and the call may wait for it. */
  predicate WaitsForEver(s: Rx, dontwait: bool, script: seq<seq<Item>>) {
    && s.lastdata.None? && s.waitable && !s.finPending && s.mbox == [] && All(script) == []
    && !dontwait && !s.nonblocking && !s.mboxClosed && s.pendingErr == OK
  }

  /** Waiting that brings nothing changes nothing. */
  lemma {:induction false} NothingComes(s: Rx, tryOnly: bool, script: seq<seq<Item>>)
    requires All(script) == []
    ensures Waited(s, tryOnly, script).0 == s && (!tryOnly && s.mbox == [] ==> Waited(s, tryOnly, script).1 == [])
    decreases |script|
  {
    if script != [] {
      assert script[0] == [] && All(script[1..]) == [];
      if s.mbox == [] && !tryOnly && script[1..] != [] {
        NothingComes(s, tryOnly, script[1..]);
      }
    }
  }

  lemma {:induction false} DeliveredGrows(s: Rx, items: seq<Item>)
    ensures |Delivered(s, items).0.mbox| >= |s.mbox|
    decreases |items|
  {
    if items != [] && !Refuses(s, items[0]) {
      DeliveredGrows(Arrived(s, items[0]), items[1..]);
    }
  }

  /** A waiting call that still finds nothing has met a script that brings nothing. */
  lemma {:induction false} SomethingComes(s: Rx, script: seq<seq<Item>>)
    requires s.waitable && Waited(s, false, script).0.mbox == []
    ensures s.mbox == [] && All(script) == []
    decreases |script|
  {
    if script != [] {
      if script[0] == [] {
        if script[1..] != [] { SomethingComes(s, script[1..]); }
      } else if s.mbox == [] {
        DeliveredGrows(Arrived(s, script[0][0]), script[0][1..]);
      } else {
        DeliveredGrows(s, script[0]);
      }
    }
  }

  lemma FirstLookWaits(s: Rx, dontwait: bool, script: seq<seq<Item>>)
    ensures Refilled(s, dontwait, false, script).got.NeverReturns? <==> WaitsForEver(s, dontwait, script)
  {
    if s.lastdata.None? && s.waitable && !s.finPending {
      var tryOnly := TryOnly(s, dontwait);
      if All(script) == [] { NothingComes(s, tryOnly, script); }
      if !tryOnly && Waited(s, tryOnly, script).0.mbox == [] { SomethingComes(s, script); }
    }
  }

  /** Once it has something, a call does not wait for more. */
  lemma {:induction false} LaterLooksDoNotWait(s: Rx, left: nat, dontwait: bool, script: seq<seq<Item>>)
    ensures !Gather(s, left, true, dontwait, script).last.NeverReturns?
    decreases left
  {
    FirstLookWaits(s, true, script);
    var t := Turn(s, left, true, dontwait, script);
    if !Stops(left, t) {
      LaterLooksDoNotWait(t.rx, left - |t.copied|, dontwait, t.rest);
    }
  }

  /** A call waits for ever if and only if nothing of the stream is left or comes, no FIN is
      kept, the mailbox is still there, the connection has not failed, and neither the socket
      nor the call is non-blocking. */
  lemma BlocksIffNothingComes(s: Rx, len: nat, peek: bool, dontwait: bool, script: seq<seq<Item>>)
    ensures Recv(s, len, peek, dontwait, script).blocked <==> WaitsForEver(s, dontwait, script)
  {
    FirstLookWaits(s, dontwait, script);
    var t := Turn(s, Limit(len), false, dontwait, script);
    if !peek && !Stops(Limit(len), t) {
      LaterLooksDoNotWait(t.rx, Limit(len) - |t.copied|, dontwait, t.rest);
    }
  }

  /** For every call, in every state, with any arrivals in between. */
  lemma RecvServes(s: Rx, len: nat, peek: bool, dontwait: bool, script: seq<seq<Item>>)
    requires Inv(s) && InOrder(s.phase, All(script))
    ensures Answers(len, peek, dontwait, Recv(s, len, peek, dontwait, script))
    ensures Conserves(s, peek, script, Recv(s, len, peek, dontwait, script))
    ensures Expecting(Recv(s, len, peek, dontwait, script).rx, Recv(s, len, peek, dontwait, script).rest,
        Due(s, script))
    ensures Recv(s, len, peek, dontwait, script).blocked <==> WaitsForEver(s, dontwait, script)
  {
    BlocksIffNothingComes(s, len, peek, dontwait, script);
    if peek {
      PeekServes(s, len, dontwait, script, Due(s, script));
    } else {
      TakeServes(s, len, dontwait, script, Due(s, script));
    }
  }

  // ---- Any sequence of calls

  /** A call, and what may arrive until the next one; what has not come in when it returns
      is carried over to that one. */
  datatype Call = Call(len: nat, peek: bool, dontwait: bool, arrivals: seq<seq<Item>>)

  /** `data` is what the calls without MSG_PEEK have returned, one after the other. */
  datatype Run = Run(rx: Rx, data: seq<byte>, rest: seq<seq<Item>>)

  function RecvOne(s: Rx, call: Call, carried: seq<seq<Item>>): Outcome {
    Recv(s, call.len, call.peek, call.dontwait, carried + call.arrivals)
  }

  function RecvMany(s: Rx, calls: seq<Call>, carried: seq<seq<Item>>): Run
    decreases |calls|
  {
    if calls == [] then Run(s, [], carried)
    else
      var o := RecvOne(s, calls[0], carried);
      var more := RecvMany(o.rx, calls[1..], o.rest);
      Further(if calls[0].peek then [] else o.data, more)
  }

  function Coming(calls: seq<Call>): seq<Item> {
    if calls == [] then [] else All(calls[0].arrivals) + Coming(calls[1..])
  }

  lemma {:induction false} AllAppend(a: seq<seq<Item>>, b: seq<seq<Item>>)
    ensures All(a + b) == All(a) + All(b)
  {
    if a == [] {
      assert a + b == b;
    } else {
      AllAppend(a[1..], b);
      assert (a + b)[0] == a[0] && (a + b)[1..] == a[1..] + b;
      assert a[0] + (All(a[1..]) + All(b)) == (a[0] + All(a[1..])) + All(b);
    }
  }

  /** `carried` and what comes with `calls` may come, and make up what is due. */
  ghost predicate Awaits(s: Rx, calls: seq<Call>, carried: seq<seq<Item>>, due: (seq<byte>, Phase)) {
    && InOrder(s.phase, All(carried) + Coming(calls))
    && (s.posted + DataOf(All(carried) + Coming(calls)), PhaseAfter(s.phase, All(carried) + Coming(calls))) == due
  }

  /** What the next call may meet, and what is left to come after that. */
  lemma MayComeIn(s: Rx, calls: seq<Call>, carried: seq<seq<Item>>, due: (seq<byte>, Phase))
    requires calls != [] && Awaits(s, calls, carried, due)
    ensures var script, later := carried + calls[0].arrivals, Coming(calls[1..]);
            && InOrder(s.phase, All(script)) && InOrder(Due(s, script).1, later)
            && due == (Due(s, script).0 + DataOf(later), PhaseAfter(Due(s, script).1, later))
  {
    var script, later := carried + calls[0].arrivals, Coming(calls[1..]);
    AllAppend(carried, calls[0].arrivals);
    assert All(carried) + Coming(calls) == All(script) + later;
    InOrderAppend(s.phase, All(script), later);
    DataOfAppend(All(script), later);
    Regroup(s.posted, DataOf(All(script)), DataOf(later));
  }

  lemma StillToCome(s: Rx, calls: seq<Call>, rest: seq<seq<Item>>, mid: (seq<byte>, Phase), due: (seq<byte>, Phase))
    requires Expecting(s, rest, mid) && InOrder(mid.1, Coming(calls))
    requires due == (mid.0 + DataOf(Coming(calls)), PhaseAfter(mid.1, Coming(calls)))
    ensures Awaits(s, calls, rest, due)
  {
    InOrderAppend(s.phase, All(rest), Coming(calls));
    DataOfAppend(All(rest), Coming(calls));
    Regroup(s.posted, DataOf(All(rest)), DataOf(Coming(calls)));
  }

  lemma RecvOneServes(s: Rx, calls: seq<Call>, carried: seq<seq<Item>>, due: (seq<byte>, Phase))
    requires Inv(s) && calls != [] && Awaits(s, calls, carried, due)
    ensures Conserves(s, calls[0].peek, carried + calls[0].arrivals, RecvOne(s, calls[0], carried))
    ensures Awaits(RecvOne(s, calls[0], carried).rx, calls[1..], RecvOne(s, calls[0], carried).rest, due)
  {
    var script, o := carried + calls[0].arrivals, RecvOne(s, calls[0], carried);
    MayComeIn(s, calls, carried, due);
    RecvServes(s, calls[0].len, calls[0].peek, calls[0].dontwait, script);
    StillToCome(o.rx, calls[1..], o.rest, Due(s, script), due);
  }

  /** What any calls together promise. */
  ghost predicate Delivers(s: Rx, r: Run) {
    && Inv(r.rx) && (r.rx.attached ==> s.attached)
    && r.rx.returned == s.returned + r.data
    && (r.rx.attached ==> Sum(r.rx.credits) == Sum(s.credits) + |r.data|)
  }

  /** The answers of earlier calls, in front of those of later ones. */
  function Further(data: seq<byte>, r: Run): Run {
    r.(data := data + r.data)
  }

  lemma {:induction false} RecvManyDelivers(s: Rx, calls: seq<Call>, carried: seq<seq<Item>>, due: (seq<byte>, Phase))
    requires Inv(s) && Awaits(s, calls, carried, due)
    ensures Delivers(s, RecvMany(s, calls, carried))
    ensures Awaits(RecvMany(s, calls, carried).rx, [], RecvMany(s, calls, carried).rest, due)
    decreases |calls|
  {
    if calls == [] {
      assert s.returned + [] == s.returned;
    } else {
      var o := RecvOne(s, calls[0], carried);
      RecvOneServes(s, calls, carried, due);
      RecvManyDelivers(o.rx, calls[1..], o.rest, due);
      Then(s, calls[0].peek, carried + calls[0].arrivals, o, RecvMany(o.rx, calls[1..], o.rest));
    }
  }

  lemma Then(s: Rx, peek: bool, script: seq<seq<Item>>, o: Outcome, more: Run)
    requires Conserves(s, peek, script, o) && Delivers(o.rx, more)
    ensures Delivers(s, Further(if peek then [] else o.data, more))
  {
    Regroup(s.returned, o.data, more.data);
    assert [] + more.data == more.data;
  }

  lemma Together(s: Rx, r: Run, due: (seq<byte>, Phase))
    requires Delivers(s, r) && Awaits(r.rx, [], r.rest, due)
    ensures s.returned == [] ==> r.data + (Remaining(r.rx) + DataOf(All(r.rest))) == due.0
    ensures s.credits == [] && r.rx.attached ==> Sum(r.rx.credits) == |r.data|
  {
    assert All(r.rest) + Coming([]) == All(r.rest);
    assert [] + r.data == r.data;
    Regroup(r.rx.returned, Remaining(r.rx), DataOf(All(r.rest)));
  }

  /** Any sequence of receive calls on a new socket, peeking or not, interleaved with any
      arrivals: what the calls that do not peek have returned, lastdata and the mailbox, and
      what is still to come, are together exactly what the core delivers; every byte
      returned while the connection lasts has been credited. */
  lemma {:induction false} StreamIsFaithful(s: Rx, calls: seq<Call>)
    requires s == NEW_SOCKET && InOrder(Streaming, Coming(calls))
    ensures var r := RecvMany(s, calls, []);
            && r.data + (Remaining(r.rx) + DataOf(All(r.rest))) == DataOf(Coming(calls))
            && (r.rx.attached ==> Sum(r.rx.credits) == |r.data|)
  {
    var due := (DataOf(Coming(calls)), PhaseAfter(Streaming, Coming(calls)));
    assert All([]) + Coming(calls) == Coming(calls);
    assert [] + DataOf(Coming(calls)) == DataOf(Coming(calls));
    RecvManyDelivers(s, calls, [], due);
    Together(s, RecvMany(s, calls, []), due);
  }
}
