/** Receiving on a TCP socket as the code does it, field by field: lwip_recv_tcp of
    lwip_client/ta/sockets.c, netconn_recv_data_tcp and netconn_recv_data of
    lwip_client/ta/api_lib.c, netconn_tcp_recvd with lwip_netconn_do_recv, recv_tcp and
    err_tcp of lwip_client/ta/api_msg.c. RecvSpec says what each of them computes.

    A method ends in the state, and returns the values, that the function of RecvSpec with
    its name or its participle has for the state it started in; the loops are proved against
    the recursion there. */
module RecvTcp {
  import opened Common
  import Mailbox
  import Spec = RecvSpec
  import opened RecvSpec

  /** With a message taken out of the mailbox put back. */
  function WithHead(s: Rx, item: Item): Rx {
    s.(mbox := [item] + s.mbox)
  }

  /** Fetching waits for ever exactly if nothing is there or comes, and it may wait. */
  lemma WhenFetchWaits(s: Rx, dontblock: bool, script: seq<seq<Item>>)
    requires s.waitable
    ensures var w := Waited(s, TryOnly(s, dontblock), script);
      Taken(w.0, TryOnly(s, dontblock)).1.Blocks? <==>
        s.mbox == [] && All(script) == [] && !dontblock && !s.nonblocking && !s.mboxClosed && s.pendingErr == OK
  {
    var tryOnly := TryOnly(s, dontblock);
    if All(script) == [] { NothingComes(s, tryOnly, script); }
    if !tryOnly && Waited(s, tryOnly, script).0.mbox == [] { SomethingComes(s, script); }
  }

  class Socket {
    var lastdata: Option<seq<byte>>
    var mbox: seq<Item>
    var waitable: bool
    var finPending: bool    // NETCONN_FIN_RX_PENDING
    var mboxClosed: bool    // NETCONN_FLAG_MBOXCLOSED
    var pendingErr: Err
    var attached: bool      // conn->pcb.tcp != NULL
    var nonblocking: bool
    var credits: seq<nat>   // tcp_recved, in order
    // for the theorems only
    ghost var phase: Phase
    ghost var returned: seq<byte>
    ghost var posted: seq<byte>

    ghost function View(): Rx
      reads this
    {
      Rx(lastdata, mbox, waitable, finPending, mboxClosed, pendingErr, attached, nonblocking, phase,
         credits, returned, posted)
    }

    ghost predicate Valid()
      reads this
    {
      Inv(View())
    }

    constructor ()
      ensures Valid() && View() == NEW_SOCKET
    {
      lastdata, mbox, waitable, finPending, mboxClosed := None, [], true, false, false;
      pendingErr, attached, nonblocking, credits := OK, true, false, [];
      phase, returned, posted := Streaming, [], [];
    }

    /** sys_mbox_trypost. */
    method TryPost(item: Item) returns (err: Err)
      modifies this`mbox
      ensures err == if MboxFull(old(mbox)) then MEM else OK
      ensures mbox == if err == OK then old(mbox) + [item] else old(mbox)
      ensures err == OK ==> |mbox| < Mailbox.SIZE
    {
      if |mbox| >= Mailbox.SIZE - 1 {
        return MEM;
      }
      mbox := mbox + [item];
      return OK;
    }

    /** recv_tcp: if the mailbox is full, the core is told to present the pbuf, or the FIN,
        again. */
    method OnRecv(item: Item) returns (err: Err)
      requires !item.Failure?
      modifies this`mbox, this`phase, this`posted
      ensures err == if Refuses(old(View()), item) then MEM else OK
      ensures View() == if err == OK then Arrived(old(View()), item) else old(View())
    {
      err := OK;
      if waitable {
        err := TryPost(item);
        if err != OK {
          return;
        }
      }
      phase, posted := After(phase, item), posted + Payload(item);
    }

    /** err_tcp, as far as it concerns receiving: into a full mailbox goes no message. */
    method OnErr(err: Err)
      modifies this`mbox, this`mboxClosed, this`pendingErr, this`attached, this`phase, this`posted
      ensures View() == Arrived(old(View()), Failure(err))
    {
      pendingErr, attached, mboxClosed := err, false, true;
      if waitable {
        var _ := TryPost(Failure(err));
      }
      phase, posted := Failed, posted + [];
    }

    /** What the core has for this connection next. */
    method Arrive(item: Item) returns (err: Err)
      requires Valid() && GoodItem(item) && MayCome(phase, item)
      modifies this`mbox, this`mboxClosed, this`pendingErr, this`attached, this`phase, this`posted
      ensures err == if Refuses(old(View()), item) then MEM else OK
      ensures View() == if err == OK then Arrived(old(View()), item) else old(View())
      ensures Valid()
    {
      if !Refuses(View(), item) {
        ArrivedKeeps(View(), item);
      }
      if item.Failure? {
        OnErr(item.err);
        err := OK;
      } else {
        err := OnRecv(item);
      }
    }

    /** A batch of arrivals, as far as it is not refused. */
    method Deliver(items: seq<Item>) returns (left: seq<Item>)
      requires Valid() && InOrder(phase, items)
      modifies this`mbox, this`mboxClosed, this`pendingErr, this`attached, this`phase, this`posted
      ensures Valid() && (View(), left) == Delivered(old(View()), items)
    {
      left := items;
      var err := OK;
      while left != [] && err == OK
        invariant Valid() && InOrder(phase, left)
        invariant Delivered(View(), left) == Delivered(old(View()), items)
        invariant err != OK ==> left != [] && Refuses(View(), left[0])
        decreases |left|, err == OK
      {
        err := Arrive(left[0]);
        if err == OK {
          left := left[1..];
        }
      }
    }

    /** What arrives before the next look into the mailbox. */
    method Await(script: seq<seq<Item>>) returns (rest: seq<seq<Item>>)
      requires Valid() && InOrder(phase, All(script))
      modifies this`mbox, this`mboxClosed, this`pendingErr, this`attached, this`phase, this`posted
      ensures Valid() && (View(), rest) == Awaited(old(View()), script)
      ensures Expecting(View(), rest, old(Due(View(), script)))
    {
      AwaitedKeeps(View(), script, Due(View(), script));
      rest := script;
      if rest != [] {
        InOrderAppend(phase, script[0], All(script[1..]));
        var left := Deliver(script[0]);
        rest := PutBack(left, script[1..]);
      }
    }

    /** netconn_err: the pending error, once. */
    method TakePendingErr() returns (err: Err)
      modifies this`pendingErr
      ensures err == old(pendingErr) && pendingErr == OK
    {
      err := pendingErr;
      pendingErr := OK;
    }

    /** The error of an empty mailbox. */
    method FindEmpty() returns (err: Err)
      requires Valid()
      modifies this`pendingErr
      ensures err == EmptyErr(old(View())) && err != OK && View() == old(View().(pendingErr := OK))
      ensures Valid()
    {
      err := TakePendingErr();
      if err == OK {
        err := if mboxClosed then CONN else WOULDBLOCK;
      }
    }

    /** The wait for a message: none, if it must not wait; until there is one, if it may. */
    method WaitForMessage(tryOnly: bool, script: seq<seq<Item>>) returns (rest: seq<seq<Item>>)
      requires Valid() && InOrder(phase, All(script))
      modifies this`mbox, this`mboxClosed, this`pendingErr, this`attached, this`phase, this`posted
      ensures Valid() && (View(), rest) == Waited(old(View()), tryOnly, script)
      ensures Expecting(View(), rest, old(Due(View(), script)))
    {
      rest := Await(script);
      while mbox == [] && !tryOnly && rest != []
        invariant Valid() && Expecting(View(), rest, old(Due(View(), script)))
        invariant Waited(old(View()), tryOnly, script)
               == if mbox == [] && !tryOnly && rest != [] then Waited(View(), tryOnly, rest) else (View(), rest)
        decreases mbox == [], |rest|
      {
        rest := Await(rest);
      }
    }

    method TakeOldest() returns (item: Item)
      requires mbox != []
      modifies this`mbox
      ensures item == old(mbox[0]) && View() == old(View().(mbox := mbox[1..]))
      ensures WithHead(View(), item) == old(View())
    {
      assert [mbox[0]] + mbox[1..] == mbox;
      item := mbox[0];
      mbox := mbox[1..];
    }

    /** What it finds in the end. */
    method TakeMessage(tryOnly: bool) returns (r: Fetched)
      requires Valid()
      modifies this`mbox, this`pendingErr
      ensures (View(), r) == Taken(old(View()), tryOnly)
      ensures if r.Got? then WithHead(View(), r.item) == old(View()) else Valid() && mbox == []
      ensures r.Nothing? ==> r.err != OK
      ensures r.Blocks? ==> !tryOnly
    {
      if mbox != [] {
        var item := TakeOldest();
        r := Got(item);
      } else if tryOnly {
        var err := FindEmpty();
        r := Nothing(err);
      } else {
        r := Blocks;
      }
    }

    /** netconn_recv_data up to having a message in hand; `rest` is what is still to arrive. */
    method Fetch(dontblock: bool, script: seq<seq<Item>>) returns (r: Fetched, rest: seq<seq<Item>>)
      requires Valid() && InOrder(phase, All(script))
      modifies this`mbox, this`mboxClosed, this`pendingErr, this`attached, this`phase, this`posted
      ensures var w := Waited(old(View()), TryOnly(old(View()), dontblock), script);
              (View(), r) == Taken(w.0, TryOnly(old(View()), dontblock)) && rest == w.1
      ensures if r.Got? then Inv(WithHead(View(), r.item)) else Valid() && mbox == []
      ensures r.Nothing? ==> r.err != OK
      ensures old(waitable) ==>
                (r.Blocks? <==> old(mbox) == [] && All(script) == [] && !dontblock && !nonblocking
                                && !old(mboxClosed) && old(pendingErr) == OK)
    {
      if waitable { WhenFetchWaits(View(), dontblock, script); }
      var tryOnly := nonblocking || dontblock || mboxClosed || pendingErr != OK;
      rest := WaitForMessage(tryOnly, script);
      r := TakeMessage(tryOnly);
    }

    /** The end of netconn_recv_data_tcp when a FIN is handled. */
    method HandleFin() returns (err: Err)
      modifies this`mbox, this`pendingErr, this`waitable
      ensures (View(), err) == FinHandled(old(View())) && err != OK
    {
      if !attached {
        err := TakePendingErr();
        return if err != OK then err else RST;
      }
      waitable, mbox := false, [];
      return CLSD;
    }

    /** What netconn_recv_data_tcp makes of the message it fetched. */
    method TakeItem(item: Item, nofin: bool) returns (r: Received)
      modifies this`mbox, this`pendingErr, this`finPending, this`waitable
      ensures (View(), r) == ItemTaken(old(View()), item, nofin)
    {
      if item.Data? {
        return Bytes(item.bytes);
      }
      if item.Failure? && item.err != CLSD {
        return Refused(item.err);
      }
      if nofin {
        finPending := true;
        return Refused(WOULDBLOCK);
      }
      var err := HandleFin();
      return Refused(err);
    }

    /** netconn_recv_data_tcp with NETCONN_NOAUTORCVD: a pbuf, or an error. A FIN that the
        caller cannot handle is kept for later. */
    method RecvData(dontblock: bool, nofin: bool, script: seq<seq<Item>>) returns (r: Received, rest: seq<seq<Item>>)
      requires Valid() && lastdata.None? && InOrder(phase, All(script))
      modifies this`mbox, this`mboxClosed, this`pendingErr, this`attached, this`phase, this`posted,
               this`finPending, this`waitable
      ensures Looked(View(), r, rest) == Spec.RecvData(old(View()), dontblock, nofin, script)
      ensures Sound(old(View()), r, View(), dontblock) && Expecting(View(), rest, old(Due(View(), script)))
    {
      RecvDataSound(View(), dontblock, nofin, script, Due(View(), script));
      rest := script;
      if !waitable {
        r := Refused(CONN);
      } else if finPending {
        finPending := false;
        var err := HandleFin();
        r := Refused(err);
      } else {
        var fetched: Fetched;
        fetched, rest := Fetch(dontblock, script);
        match fetched {
          case Blocks => r := NeverReturns;
          case Nothing(err) => r := Refused(err);
          case Got(item) => r := TakeItem(item, nofin);
        }
      }
    }

    /** netconn_tcp_recvd and lwip_netconn_do_recv: the window is opened in 16-bit steps. */
    method TcpRecvd(len: nat)
      modifies this`credits
      ensures credits == if attached then old(credits) + Steps(len) else old(credits)
      ensures Credited(old(credits), credits, if attached then len else 0)
    {
      if !attached {
        return;
      }
      StepsAddUp(len);
      SumAppend(credits, Steps(len));
      var remaining: nat := len;
      var again := true;
      while again
        invariant old(credits) + Steps(len) == if again then credits + Steps(remaining) else credits
        decreases again, remaining
      {
        var recved: nat := if remaining > U16_MAX then U16_MAX else remaining;
        credits := credits + [recved];
        remaining := remaining - recved;
        again := remaining != 0;
      }
    }

    /** Make sure there is something in lastdata. */
    method Refill(dontblock: bool, nofin: bool, script: seq<seq<Item>>) returns (r: Received, rest: seq<seq<Item>>)
      requires Valid() && InOrder(phase, All(script))
      modifies this`lastdata, this`mbox, this`mboxClosed, this`pendingErr, this`attached, this`phase,
               this`posted, this`finPending, this`waitable
      ensures Looked(View(), r, rest) == Refilled(old(View()), dontblock, nofin, script)
      ensures Valid() && Expecting(View(), rest, old(Due(View(), script)))
      ensures if r.Bytes? then lastdata == Some(r.pbuf) else Remaining(View()) == []
    {
      RefilledSound(View(), dontblock, nofin, script, Due(View(), script));
      if lastdata.Some? {
        return Bytes(lastdata.value), script;
      }
      r, rest := RecvData(dontblock, nofin, script);
      if r.Bytes? {
        lastdata := Some(r.pbuf);
      }
    }

    /** Copy out, and hide or free what has been copied. */
    method Consume(n: nat) returns (copied: seq<byte>)
      requires Valid() && lastdata.Some? && n <= |lastdata.value|
      modifies this`lastdata, this`returned
      ensures copied == old(lastdata.value)[..n] && View() == Consumed(old(View()), n)
      ensures Valid() && returned == old(returned) + copied
    {
      ConsumedKeeps(View(), n);
      var p := lastdata.value;
      copied := p[..n];
      returned := returned + copied;
      lastdata := if |p| - n > 0 then Some(p[n..]) else None;
    }

    /** One turn of that loop without MSG_PEEK. */
    method GatherOne(left: nat, later: bool, dontwait: bool, script: seq<seq<Item>>)
      returns (last: Received, copied: seq<byte>, rest: seq<seq<Item>>)
      requires Valid() && InOrder(phase, All(script))
      modifies this
      ensures Turned(View(), last, copied, rest) == Turn(old(View()), left, later, dontwait, script)
      ensures Valid() && Expecting(View(), rest, old(Due(View(), script)))
      ensures |copied| <= left && if last.Bytes? then left > 0 ==> copied != [] else copied == []
    {
      // once there is something to return, neither wait nor take a FIN
      last, rest := Refill(dontwait || later, later, script);
      ghost var found := Looked(View(), last, rest);
      copied := [];
      if last.Bytes? {
        var copylen := if left > |last.pbuf| then |last.pbuf| else left % 0x1_0000;
        copied := Consume(copylen);
      }
      assert Turned(View(), last, copied, rest) == Copied(left, found);
    }

    /** The do-while loop. */
    method Gather(limit: nat, dontwait: bool, script: seq<seq<Item>>)
      returns (last: Received, data: seq<byte>, rest: seq<seq<Item>>)
      requires Valid() && InOrder(phase, All(script))
      modifies this
      ensures Gathered(View(), last, data, rest) == Spec.Gather(old(View()), limit, false, dontwait, script)
      ensures Valid() && Expecting(View(), rest, old(Due(View(), script)))
      ensures Gathers(old(View()), limit, dontwait, Gathered(View(), last, data, rest))
    {
      ghost var start, due := View(), Due(View(), script);
      ghost var whole := Spec.Gather(start, limit, false, dontwait, script);
      last, data, rest := Bytes([]), [], script;
      var again := true;
      NothingYet(start, limit, last, dontwait, script);
      GatherSound(start, limit, false, dontwait, script, due);
      while again
        invariant Valid() && Expecting(View(), rest, due)
        invariant Gathering(whole, View(), limit, again, last, data, dontwait, rest)
        decreases again, limit - |data|
      {
        ghost var before, coming := View(), rest;
        var copied: seq<byte>;
        last, copied, rest := GatherOne(limit - |data|, data != [], dontwait, rest);
        TurnGathers(whole, before, limit, data, dontwait, coming, Turned(View(), last, copied, rest));
        data := data + copied;
        again := last.Bytes? && |data| < limit;
      }
    }

    /** lwip_recv_tcp with MSG_PEEK: one turn, nothing consumed, so the stream is left as it
        is; RecvPeek says what becomes of its end. */
    method Peek(len: nat, dontwait: bool, script: seq<seq<Item>>)
      returns (last: Received, data: seq<byte>, rest: seq<seq<Item>>)
      requires Valid() && InOrder(phase, All(script))
      modifies this`lastdata, this`mbox, this`mboxClosed, this`pendingErr, this`attached, this`phase,
               this`posted, this`finPending, this`waitable
      ensures Looked(View(), last, rest) == Refilled(old(View()), dontwait, false, script)
      ensures data == if last.Bytes? then last.pbuf[..CopyLen(Limit(len), last.pbuf)] else []
      ensures Valid() && Expecting(View(), rest, old(Due(View(), script)))
      ensures data <= Remaining(View()) && |data| <= len && (!last.Bytes? ==> Remaining(View()) == [])
      ensures Remaining(View()) + DataOf(All(rest)) == old(Remaining(View())) + DataOf(All(script))
    {
      last, rest := Refill(dontwait, false, script);
      PeekConserves(old(View()), script, View(), rest, old(Due(View(), script)));
      data := [];
      if last.Bytes? {
        var recvLeft := if len <= SSIZE_MAX then len else SSIZE_MAX;
        var copylen := if recvLeft > |last.pbuf| then |last.pbuf| else recvLeft % 0x1_0000;
        data := last.pbuf[..copylen];
      }
    }

    /** What lwip_recv_tcp returns after its loop. */
    static method Result(last: Received, data: seq<byte>, ghost s: Rx, ghost rest: seq<seq<Item>>)
      returns (result: int, blocked: bool)
      ensures Outcome(s, result, data, blocked, rest) == Concluded(s, last, data, rest)
    {
      if |data| > 0 || last.Bytes? {
        return |data|, false;
      }
      if last == Refused(CLSD) {
        return 0, false;
      }
      return -1, last.NeverReturns?;
    }

    /** lwip_recv_tcp without it: gather, then open the window. */
    method Take(len: nat, dontwait: bool, script: seq<seq<Item>>)
      returns (last: Received, data: seq<byte>, rest: seq<seq<Item>>)
      requires Valid() && InOrder(phase, All(script))
      modifies this
      ensures var g := Spec.Gather(old(View()), Limit(len), false, dontwait, script);
              (View(), last, data, rest) == (Recvd(g.rx, |g.data|), g.last, g.data, g.rest)
    {
      var recvLeft := if len <= SSIZE_MAX then len else SSIZE_MAX;
      last, data, rest := Gather(recvLeft, dontwait, script);
      if |data| > 0 {
        TcpRecvd(|data|);
      }
    }

    /** lwip_recv_tcp. `result` is -1 for an error; with `blocked` the call is still waiting
        when everything in the script has arrived. */
    method Recv(len: nat, peek: bool, dontwait: bool, script: seq<seq<Item>>)
      returns (result: int, data: seq<byte>, blocked: bool, rest: seq<seq<Item>>)
      requires Valid() && InOrder(phase, All(script))
      modifies this
      ensures Outcome(View(), result, data, blocked, rest) == Spec.Recv(old(View()), len, peek, dontwait, script)
      ensures Answers(len, peek, dontwait, Outcome(View(), result, data, blocked, rest))
      ensures Conserves(old(View()), peek, script, Outcome(View(), result, data, blocked, rest))
      ensures Valid() && Expecting(View(), rest, old(Due(View(), script)))
      ensures blocked <==> old(WaitsForEver(View(), dontwait, script))
    {
      RecvServes(View(), len, peek, dontwait, script);
      var last: Received;
      if peek {
        last, data, rest := Peek(len, dontwait, script);
      } else {
        last, data, rest := Take(len, dontwait, script);
      }
      result, blocked := Result(last, data, View(), rest);
    }

    /** One call of a sequence. */
    method RecvCall(call: Call, carried: seq<seq<Item>>) returns (data: seq<byte>, rest: seq<seq<Item>>)
      requires Valid() && InOrder(phase, All(carried + call.arrivals))
      modifies this
      ensures var o := RecvOne(old(View()), call, carried);
              (View(), data, rest) == (o.rx, if call.peek then [] else o.data, o.rest)
      ensures Valid()
    {
      var result, got, blocked;
      result, got, blocked, rest := Recv(call.len, call.peek, call.dontwait, carried + call.arrivals);
      data := if call.peek then [] else got;
    }

    /** Any sequence of receive calls; what has not come in when one returns is carried over
        to the next. */
    method RecvMany(calls: seq<Call>) returns (data: seq<byte>, rest: seq<seq<Item>>)
      requires Valid() && InOrder(phase, Coming(calls))
      modifies this
      ensures Run(View(), data, rest) == Spec.RecvMany(old(View()), calls, [])
      ensures Valid() && returned == old(returned) + data && (attached ==> old(attached))
      ensures attached ==> Sum(credits) == Sum(old(credits)) + |data|
      ensures posted + DataOf(All(rest)) == old(posted) + DataOf(Coming(calls))
    {
      ghost var start, whole := View(), Spec.RecvMany(View(), calls, []);
      ghost var due := (posted + DataOf(Coming(calls)), PhaseAfter(phase, Coming(calls)));
      NoneAnswered(start, calls, due);
      RecvManyDelivers(start, calls, [], due);
      data, rest := [], [];
      var k := 0;
      while k < |calls|
        invariant k <= |calls| && Valid() && Awaits(View(), calls[k..], rest, due)
        invariant Answered(whole, View(), calls[k..], data, rest)
      {
        RecvOneServes(View(), calls[k..], rest, due);
        MayComeIn(View(), calls[k..], rest, due);
        CallAnswered(whole, View(), calls[k..], data, rest, RecvOne(View(), calls[k], rest));
        var got: seq<byte>;
        got, rest := RecvCall(calls[k], rest);
        data, k := data + got, k + 1;
      }
      assert All(rest) + Coming([]) == All(rest);
    }
  }

  /** The loop has gathered `data` of the `whole` that the call will return, and goes on from
      `s`, or has ended there. */
  ghost predicate Gathering(whole: Gathered, s: Rx, limit: nat, again: bool, last: Received, data: seq<byte>,
                            dontwait: bool, rest: seq<seq<Item>>) {
    && |data| <= limit && (again && data != [] ==> |data| < limit)
    && whole == if again then Prefixed(data, Spec.Gather(s, limit - |data|, data != [], dontwait, rest))
                else Gathered(s, last, data, rest)
  }

  lemma NothingYet(s: Rx, limit: nat, last: Received, dontwait: bool, script: seq<seq<Item>>)
    ensures Gathering(Spec.Gather(s, limit, false, dontwait, script), s, limit, true, last, [], dontwait, script)
  {
    var g := Spec.Gather(s, limit, false, dontwait, script);
    assert [] + g.data == g.data;
  }

  lemma GoesOn(whole: Gathered, s: Rx, limit: nat, last: Received, data: seq<byte>, dontwait: bool,
      rest: seq<seq<Item>>, left: nat, later: bool)
    requires left == limit - |data| && later == (data != []) && (later ==> |data| < limit)
    requires whole == Prefixed(data, Spec.Gather(s, left, later, dontwait, rest))
    ensures Gathering(whole, s, limit, true, last, data, dontwait, rest)
  {
  }

  /** What one turn leaves to the next. */
  lemma TurnGathers(whole: Gathered, s: Rx, limit: nat, data: seq<byte>, dontwait: bool, script: seq<seq<Item>>,
      t: Turned)
    requires Gathering(whole, s, limit, true, t.last, data, dontwait, script)
    requires t == Turn(s, limit - |data|, data != [], dontwait, script)
    requires |t.copied| <= limit - |data|
    requires if t.last.Bytes? then limit > |data| ==> t.copied != [] else t.copied == []
    ensures Gathering(whole, t.rx, limit, t.last.Bytes? && |data + t.copied| < limit, t.last, data + t.copied,
              dontwait, t.rest)
  {
    var left := limit - |data|;
    if !Stops(left, t) {
      Regroup(data, t.copied, Spec.Gather(t.rx, left - |t.copied|, true, dontwait, t.rest).data);
      GoesOn(whole, t.rx, limit, t.last, data + t.copied, dontwait, t.rest, left - |t.copied|, true);
    }
  }

  /** The calls before `calls` have returned `data`. */
  ghost predicate Answered(whole: Run, s: Rx, calls: seq<Call>, data: seq<byte>, carried: seq<seq<Item>>) {
    whole == Further(data, Spec.RecvMany(s, calls, carried))
  }

  lemma {:induction false} NoneAnswered(s: Rx, calls: seq<Call>, due: (seq<byte>, Phase))
    requires InOrder(s.phase, Coming(calls))
        && due == (s.posted + DataOf(Coming(calls)), PhaseAfter(s.phase, Coming(calls)))
    ensures Answered(Spec.RecvMany(s, calls, []), s, calls, [], []) && Awaits(s, calls, [], due) && calls[0..] == calls
  {
    var r := Spec.RecvMany(s, calls, []);
    assert [] + r.data == r.data;
    assert All([]) + Coming(calls) == Coming(calls);
  }

  /** What one call leaves to the next. */
  lemma CallAnswered(whole: Run, s: Rx, calls: seq<Call>, data: seq<byte>, carried: seq<seq<Item>>, o: Outcome)
    requires calls != [] && Answered(whole, s, calls, data, carried) && o == RecvOne(s, calls[0], carried)
    ensures Answered(whole, o.rx, calls[1..], data + if calls[0].peek then [] else o.data, o.rest)
  {
    var got := if calls[0].peek then [] else o.data;
    Regroup(data, got, Spec.RecvMany(o.rx, calls[1..], o.rest).data);
  }
}
