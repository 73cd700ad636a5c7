/** The callback-driven echo server (lwip_client/ta/tcpecho_raw.c): one connection, its
    chain of received buffers still to be echoed, and the callbacks that move it. Each
    callback is proved to do to the abstract view what EchoSpec says. */
module EchoServer {
  import opened Common
  import opened EchoSpec

  // Buffers live in an explicit heap with reference counts. Reading the heap needs the
  // buffer to be allocated, so a use after free would be a verification error.

  /** The identity of a buffer; no two allocations share one. */
  type Ref = nat

  datatype Pbuf = Pbuf(payload: seq<byte>, next: Option<Ref>, refs: nat)

  type Heap = map<Ref, Pbuf>

  /** The heap holds the buffers of `chain`, linked in that order from `p`, each referenced
      exactly once, and nothing else. */
  ghost predicate Exactly(heap: Heap, p: Option<Ref>, chain: seq<Ref>) {
    if chain == [] then p == None && heap == map[]
    else
      && p == Some(chain[0])
      && chain[0] in heap
      && heap[chain[0]].refs == 1
      && Exactly(heap - {chain[0]}, heap[chain[0]].next, chain[1..])
  }

  ghost function Payloads(heap: Heap, chain: seq<Ref>): seq<seq<byte>> {
    if chain == [] || chain[0] !in heap then []
    else [heap[chain[0]].payload] + Payloads(heap - {chain[0]}, chain[1..])
  }

  /** pbuf_free may be called on `q`: everything it will touch is allocated. */
  ghost predicate Freeable(heap: Heap, q: Option<Ref>)
    decreases heap.Keys
  {
    q.Some? ==>
      && q.value in heap
      && heap[q.value].refs > 0
      && (heap[q.value].refs == 1 ==> Freeable(heap - {q.value}, heap[q.value].next))
  }

  /** The contract of pbuf_free: drop one reference; a buffer that loses its last one is
      deallocated, and the reference it held on its successor is dropped in turn. */
  ghost function AfterFree(heap: Heap, q: Option<Ref>): Heap
    requires Freeable(heap, q)
    decreases heap.Keys
  {
    if q.None? then heap
    else if heap[q.value].refs == 1 then AfterFree(heap - {q.value}, heap[q.value].next)
    else heap[q.value := heap[q.value].(refs := heap[q.value].refs - 1)]
  }

  /** The buffers pbuf_free deallocates, in order. */
  ghost function Deallocated(heap: Heap, q: Option<Ref>): seq<Ref>
    requires Freeable(heap, q)
    decreases heap.Keys
  {
    if q.None? || heap[q.value].refs != 1 then []
    else [q.value] + Deallocated(heap - {q.value}, heap[q.value].next)
  }

  /** Freeing a whole chain deallocates each of its buffers once and leaves the rest alone. */
  lemma {:induction false} FreeWholeChain(part: Heap, p: Option<Ref>, chain: seq<Ref>, rest: Heap)
    requires Exactly(part, p, chain) && part.Keys !! rest.Keys
    ensures Freeable(part + rest, p)
    ensures AfterFree(part + rest, p) == rest && Deallocated(part + rest, p) == chain
    decreases |chain|
  {
    if chain == [] {
      assert part + rest == rest;
    } else {
      assert part + rest - {chain[0]} == (part - {chain[0]}) + rest;
      FreeWholeChain(part - {chain[0]}, part[chain[0]].next, chain[1..], rest);
    }
  }

  /** Taking a reference on the second buffer and freeing the first leaves the tail. */
  lemma FreeHead(heap: Heap, chain: seq<Ref>)
    requires chain != [] && Exactly(heap, Some(chain[0]), chain)
    ensures var next := heap[chain[0]].next;
      && (next.Some? ==> next.value in heap && next.value != chain[0])
      && var held :=
           if next.Some? then heap[next.value := heap[next.value].(refs := heap[next.value].refs + 1)] else heap;
      && Freeable(held, Some(chain[0]))
      && AfterFree(held, Some(chain[0])) == heap - {chain[0]}
      && Deallocated(held, Some(chain[0])) == [chain[0]]
  {
    var tail := heap - {chain[0]};
    if chain[1..] != [] {
      var n := chain[1..][0];
      assert n in tail && tail[n].refs == 1;
      var held := heap[n := heap[n].(refs := heap[n].refs + 1)];
      assert (held - {chain[0]})[n := heap[n]] == tail;
    }
  }

  lemma {:induction false} ChainKeys(heap: Heap, p: Option<Ref>, chain: seq<Ref>)
    requires Exactly(heap, p, chain)
    ensures forall x :: x in heap <==> x in chain
    ensures |Payloads(heap, chain)| == |chain|
    decreases |chain|
  {
    if chain != [] {
      ChainKeys(heap - {chain[0]}, heap[chain[0]].next, chain[1..]);
      assert forall x :: x in chain <==> x == chain[0] || x in chain[1..];
    }
  }

  ghost function Refs(base: Ref, n: nat): (s: seq<Ref>)
    ensures |s| == n && forall k :: 0 <= k < n ==> s[k] == base + k
  {
    seq(n, k => base + k)
  }

  /** The buffers of a segment chain as the TCP core delivers it, linked from `base` on. */
  function Fresh(content: seq<seq<byte>>, base: Ref): Heap {
    if content == [] then map[]
    else Fresh(content[1..], base + 1)[base :=
      Pbuf(content[0], if |content| > 1 then Some(base + 1) else None, 1)]
  }

  lemma {:induction false} FreshChain(content: seq<seq<byte>>, base: Ref)
    ensures Exactly(Fresh(content, base), if content == [] then None else Some(base), Refs(base, |content|))
    ensures Payloads(Fresh(content, base), Refs(base, |content|)) == content
    ensures forall x :: x in Fresh(content, base) <==> base <= x < base + |content|
  {
    if content != [] {
      FreshChain(content[1..], base + 1);
      assert Refs(base, |content|)[1..] == Refs(base + 1, |content| - 1);
      assert Fresh(content, base) - {base} == Fresh(content[1..], base + 1);
    }
  }

  ghost function Joined(h: Heap, chain: seq<Ref>, tail: Heap, q: Ref): Heap
    requires chain != []
  {
    var last := chain[|chain| - 1];
    if last in h then (h + tail)[last := h[last].(next := Some(q))] else h + tail
  }

  /** pbuf_cat: the last buffer of the first chain takes over the second one. */
  lemma {:induction false} JoinChains(h: Heap, p: Option<Ref>, chain: seq<Ref>, tail: Heap, q: Ref, more: seq<Ref>)
    requires Exactly(h, p, chain) && chain != []
    requires Exactly(tail, Some(q), more) && h.Keys !! tail.Keys
    ensures chain[|chain| - 1] in h
    ensures Exactly(Joined(h, chain, tail, q), p, chain + more)
    ensures Payloads(Joined(h, chain, tail, q), chain + more) == Payloads(h, chain) + Payloads(tail, more)
    decreases |chain|
  {
    var c := chain[0];
    if |chain| == 1 {
      assert h == map[c := h[c]];
      assert Joined(h, chain, tail, q) - {c} == tail;
      assert (chain + more)[1..] == more;
    } else {
      var last := chain[|chain| - 1];
      JoinChains(h - {c}, h[c].next, chain[1..], tail, q, more);
      assert (chain + more)[1..] == chain[1..] + more;
      assert Joined(h, chain, tail, q) - {c} == Joined(h - {c}, chain[1..], tail, q);
    }
  }

  lemma {:induction false} ChainAt(heap: Heap, p: Option<Ref>, chain: seq<Ref>, i: nat)
    requires Exactly(heap, p, chain) && i < |chain|
    ensures chain[i] in heap
    ensures heap[chain[i]].next == if i + 1 < |chain| then Some(chain[i + 1]) else None
    decreases |chain|
  {
    if i > 0 {
      ChainAt(heap - {chain[0]}, heap[chain[0]].next, chain[1..], i - 1);
    } else if |chain| > 1 {
      assert Exactly(heap - {chain[0]}, heap[chain[0]].next, chain[1..]);
    }
  }

  class Connection {
    var heap: Heap
    /** Identity of the next buffer. */
    var nextRef: Ref
    /** struct tcpecho_raw_state, and whether it is still registered with the pcb. */
    var life: Life
    var state: State
    var p: Option<Ref>
    /** What has crossed the interface with the TCP core. */
    var received: seq<byte>
    var written: seq<byte>
    var credited: nat
    var trashed: nat

    /** The buffers still to be echoed; how many arrived before the FIN; and the ones
        deallocated after being echoed or dropped with the connection, in order. */
    ghost var chain: seq<Ref>
    ghost var arrived: nat
    ghost var freed: seq<Ref>

    /** Between callbacks the allocated buffers are exactly the pending chain, each
        referenced once; every buffer that arrived was freed once or is still pending. */
    ghost predicate Valid()
      reads this
    {
      && Exactly(heap, p, chain)
      && freed + chain == Refs(0, arrived)
      && arrived <= nextRef
      && (state != Closing ==> arrived == nextRef)
      && (life != Open ==> chain == [])
    }

    ghost function View(): View
      reads this
    {
      EchoSpec.View(life, state, received, written, Payloads(heap, chain), credited, trashed)
    }

    constructor ()
      ensures Valid() && View() == INITIAL && arrived == 0
    {
      heap, nextRef, life, state, p := map[], 0, Open, Accepted, None;
      received, written, credited, trashed := [], [], 0, 0;
      chain, arrived, freed := [], 0, [];
    }

    method PbufFree(head: Ref) returns (ghost order: seq<Ref>)
      requires Freeable(heap, Some(head))
      modifies this`heap
      ensures heap == AfterFree(old(heap), Some(head)) && order == Deallocated(old(heap), Some(head))
    {
      var q := Some(head);
      order := [];
      while q.Some?
        invariant Freeable(heap, q)
        invariant AfterFree(heap, q) == AfterFree(old(heap), Some(head))
        invariant order + Deallocated(heap, q) == Deallocated(old(heap), Some(head))
        decreases q.Some?, heap.Keys
      {
        var cell := heap[q.value];
        if cell.refs == 1 {
          order := order + [q.value];
          heap := heap - {q.value};
          q := cell.next;
        } else {
          heap := heap[q.value := cell.(refs := cell.refs - 1)];
          q := None;
        }
      }
    }

    /** pbuf_cat on the pending chain: walk to its last buffer and link `q` behind it. */
    method PbufCat(q: Ref, ghost tail: Heap, ghost more: seq<Ref>, ghost mine: Heap)
      requires Exactly(mine, p, chain) && chain != []
      requires Exactly(tail, Some(q), more) && mine.Keys !! tail.Keys && heap == mine + tail
      modifies this`heap
      ensures heap == Joined(mine, chain, tail, q)
    {
      var cursor := p.value;
      ghost var i := 0;
      ChainAt(mine, p, chain, 0);
      while heap[cursor].next.Some?
        invariant 0 <= i < |chain| && cursor == chain[i] && cursor in mine
        invariant heap == mine + tail
        invariant heap[cursor].next == if i + 1 < |chain| then Some(chain[i + 1]) else None
        decreases |chain| - i
      {
        cursor := heap[cursor].next.value;
        i := i + 1;
        ChainAt(mine, p, chain, i);
      }
      heap := heap[cursor := heap[cursor].(next := Some(q))];
    }

    /** The body of the send loop once tcp_write has accepted the head buffer: take a
        reference on the next buffer, then free the head. */
    method SendOne(ptr: Ref)
      requires Valid() && life == Open && p == Some(ptr)
      modifies this`heap, this`p, this`written, this`credited, this`freed, this`chain
      ensures Valid()
      ensures chain == old(chain)[1..] && freed == old(freed) + [ptr]
      ensures old(View()).pending != [] && View() == HeadSent(old(View()))
    {
      FreeHead(heap, chain);
      var plen := |heap[ptr].payload|;
      written := written + heap[ptr].payload;
      p := heap[ptr].next;
      if p.Some? {
        heap := heap[p.value := heap[p.value].(refs := heap[p.value].refs + 1)];
      }
      ghost var order := PbufFree(ptr);
      credited := credited + plen;
      chain, freed := chain[1..], freed + order;
      assert freed + chain == old(freed + chain);
    }

    /** tcpecho_raw_send: stops at the first buffer that does not fit the send buffer or
        that tcp_write refuses. */
    method Send(core: nat -> Probe)
      requires Valid() && life == Open
      modifies this`heap, this`p, this`written, this`credited, this`freed, this`chain
      ensures Valid() && View() == EchoSpec.Send(old(View()), core)
    {
      var attempt := 0;
      var err := OK;
      while err == OK && p.Some? && |heap[p.value].payload| <= core(attempt).sndbuf
        invariant Valid()
        invariant err == OK ==> SendFrom(View(), core, attempt) == EchoSpec.Send(old(View()), core)
        invariant err != OK ==> View() == EchoSpec.Send(old(View()), core)
        decreases |chain|, err == OK
      {
        SendStep(View(), core, attempt);
        var ptr := p.value;
        err := core(attempt).write;
        attempt := attempt + 1;
        if err == OK {
          SendOne(ptr);
        }
      }
      SendStep(View(), core, attempt);
    }

    /** tcpecho_raw_free: the connection goes away with whatever it still holds. */
    method Free(how: Life)
      requires Valid() && life == Open && how != Open
      modifies this`heap, this`life, this`p, this`freed, this`chain
      ensures Valid() && heap == map[]
      ensures View() == EchoSpec.Close(old(View()), how)
      ensures freed == old(freed + chain)
    {
      if p.Some? {
        FreeWholeChain(heap, p, chain, map[]);
        assert heap + map[] == heap;
        ghost var order := PbufFree(p.value);
      }
      freed := freed + chain;
      life, p, chain := how, None, [];
    }

    /** tcpecho_raw_close, reached only once the pending chain is empty. */
    method Close()
      requires Valid() && life == Open && p == None
      modifies this`heap, this`life, this`p, this`freed, this`chain
      ensures Valid() && heap == map[]
      ensures View() == EchoSpec.Close(old(View()), Closed)
    {
      Free(Closed);
    }

    /** The TCP core delivers a segment chain: allocate it behind everything so far. */
    method Deliver(content: seq<seq<byte>>) returns (head: Ref, ghost part: Heap)
      requires Valid() && content != []
      modifies this`heap, this`nextRef
      ensures heap == old(heap) + part && part.Keys !! old(heap).Keys
      ensures head == old(nextRef) && nextRef == head + |content|
      ensures Exactly(part, Some(head), Refs(head, |content|))
      ensures Payloads(part, Refs(head, |content|)) == content
    {
      head, part := nextRef, Fresh(content, nextRef);
      FreshChain(content, nextRef);
      ChainKeys(heap, p, chain);
      assert forall x :: x in chain ==> x < nextRef by {
        assert forall x :: x in chain ==> x in freed + chain;
      }
      heap := heap + Fresh(content, nextRef);
      nextRef := nextRef + |content|;
    }

    /** tcpecho_raw_recv with data. */
    method RecvData(content: seq<seq<byte>>, core: nat -> Probe)
      requires Valid() && EchoSpec.Faithful(View()) && life == Open && content != []
      modifies this
      ensures Valid() && View() == Step(old(View()), Data(content), core)
    {
      ChainKeys(heap, p, chain);
      assert p == None ==> View().pending + content == content;
      match state
      case Accepted =>
        state := Received;
        Start(content, core);
      case Received =>
        if p == None {
          Start(content, core);
        } else {
          Append(content);
        }
      case Closing =>
        Trash(content);
    }

    /** Something is pending: the delivered chain goes behind it, and nothing is sent yet. */
    method Append(content: seq<seq<byte>>)
      requires Valid() && life == Open && p.Some? && content != []
      requires arrived == nextRef
      modifies this`heap, this`nextRef, this`received, this`chain, this`arrived
      ensures Valid() && received == old(received) + Flatten(content)
      ensures Payloads(heap, chain) == old(Payloads(heap, chain)) + content
    {
      var head, part := Deliver(content);
      ghost var links := Refs(head, |content|);
      JoinChains(old(heap), p, chain, part, head, links);
      PbufCat(head, part, links, old(heap));
      Adopt(content, links);
    }

    /** Nothing is pending: the delivered chain becomes the pending one and is sent at once. */
    method Start(content: seq<seq<byte>>, core: nat -> Probe)
      requires Valid() && life == Open && state == Received && p == None && content != []
      requires arrived == nextRef
      modifies this`heap, this`nextRef, this`p, this`received, this`written, this`credited,
               this`chain, this`arrived, this`freed
      ensures Valid()
      ensures View() == EchoSpec.Send(
                old(View()).(received := old(received) + Flatten(content), pending := content), core)
    {
      var head, part := Deliver(content);
      ghost var links := Refs(head, |content|);
      assert heap == part && chain + links == links;
      p := Some(head);
      Adopt(content, links);
      assert View() == old(View()).(received := old(received) + Flatten(content), pending := content);
      Send(core);
    }

    /** Data in an unexpected state is credited to the window and dropped. */
    method Trash(content: seq<seq<byte>>)
      requires Valid() && life == Open && state == Closing && content != []
      modifies this`heap, this`nextRef, this`credited, this`trashed
      ensures Valid() && heap == old(heap)
      ensures credited == old(credited) + |Flatten(content)| && trashed == old(trashed) + |Flatten(content)|
    {
      var head, part := Deliver(content);
      credited, trashed := credited + |Flatten(content)|, trashed + |Flatten(content)|;
      assert old(heap) + part == part + old(heap);
      FreeWholeChain(part, Some(head), Refs(head, |content|), old(heap));
      ghost var order := PbufFree(head);
    }

    /** The connection now owns the delivered buffers too. */
    method Adopt(content: seq<seq<byte>>, ghost links: seq<Ref>)
      requires Exactly(heap, p, chain + links)
      requires arrived <= nextRef && links == Refs(arrived, nextRef - arrived)
      requires freed + chain == Refs(0, arrived) && life == Open
      modifies this`received, this`chain, this`arrived
      ensures Valid() && arrived == nextRef && chain == old(chain) + links
      ensures received == old(received) + Flatten(content)
    {
      received := received + Flatten(content);
      assert freed + (chain + links) == (freed + chain) + links;
      assert Refs(0, arrived) + links == Refs(0, nextRef);
      chain, arrived := chain + links, nextRef;
    }

    /** tcpecho_raw_recv with the remote end's FIN. */
    method RecvFin(core: nat -> Probe)
      requires Valid() && life == Open
      modifies this
      ensures Valid() && View() == Step(old(View()), Fin, core)
      ensures life != Open ==> heap == map[]
    {
      ChainKeys(heap, p, chain);
      state := Closing;
      if p == None {
        Close();
      } else {
        Send(core);
      }
    }

    /** tcpecho_raw_sent; the TCP core calls it only while the state is registered. */
    method SentCallback(core: nat -> Probe)
      requires Valid() && life == Open
      modifies this
      ensures Valid() && View() == Step(old(View()), Sent, core)
      ensures life != Open ==> heap == map[]
    {
      ChainKeys(heap, p, chain);
      if p.Some? {
        Send(core);
      } else if state == Closing {
        Close();
      }
    }

    /** tcpecho_raw_poll: without a connection state it aborts the pcb. */
    method PollCallback(core: nat -> Probe) returns (err: Err)
      requires Valid()
      modifies this
      ensures Valid() && View() == Step(old(View()), Poll, core)
      ensures err == if old(life) == Open then OK else ABRT
      ensures life != Open ==> heap == map[]
    {
      ChainKeys(heap, p, chain);
      if life != Open {
        return ABRT;
      }
      if p.Some? {
        Send(core);
      } else if state == Closing {
        Close();
      }
      return OK;
    }

    /** tcpecho_raw_error: the pcb is already gone. */
    method ErrorCallback()
      requires Valid() && life == Open
      modifies this
      ensures Valid() && forall core :: View() == Step(old(View()), Error, core)
      ensures heap == map[] && freed == Refs(0, arrived)
    {
      Free(Failed);
    }

    /** Any run of callbacks on a fresh connection does what the specification's run does,
        and once the connection is gone no received buffer remains allocated. */
    method Run(calls: seq<Callback>)
      requires Valid() && View() == INITIAL
      requires forall k :: 0 <= k < |calls| ==> calls[k].event.Data? ==> calls[k].event.content != []
      modifies this
      ensures Valid() && View() == EchoSpec.Run(calls)
      ensures life != Open ==> heap == map[] && freed == Refs(0, arrived)
    {
      for k := 0 to |calls|
        invariant Valid() && View() == EchoSpec.Run(calls[..k])
      {
        EchoIsFaithful(calls[..k]);
        assert calls[..k + 1][..k] == calls[..k];
        Dispatch(calls[k]);
      }
      assert calls[..|calls|] == calls;
      assert life != Open ==> freed == freed + chain;
    }

    /** The TCP core calls back only into a registered connection, except that poll copes. */
    method Dispatch(call: Callback)
      requires Valid() && EchoSpec.Faithful(View())
      requires call.event.Data? ==> call.event.content != []
      modifies this
      ensures Valid() && View() == Step(old(View()), call.event, call.core)
    {
      if life != Open {
        if call.event.Poll? {
          var _ := PollCallback(call.core);
        }
        return;
      }
      match call.event
      case Data(content) => RecvData(content, call.core);
      case Fin => RecvFin(call.core);
      case Sent => SentCallback(call.core);
      case Poll => var _ := PollCallback(call.core);
      case Error => ErrorCallback();
    }
  }
}
