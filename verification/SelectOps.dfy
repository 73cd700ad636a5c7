/** The data structures of select as the code changes them. */
module SelectOps {
  import opened Common
  import opened SocketTable
  import opened SocketThreads
  import opened SelectCall

  // The doubly linked select_cb_list with its generation counter, and the scan over the descriptor
  // table. The protected sections of SocketThreads are the effects these methods are proved to have.

  /** struct lwip_select_cb, as a list node; it lives on the stack of `owner`. */
  class SelectCb {
    const owner: Tid
    var next: SelectCb?
    var prev: SelectCb?

    constructor (owner: Tid)
      ensures this.owner == owner && next == null && prev == null
    {
      this.owner := owner;
      next, prev := null, null;
    }
  }

  function Nth(nodes: seq<SelectCb>, k: int): SelectCb? {
    if 0 <= k < |nodes| then nodes[k] else null
  }

  predicate LinkedUp(nodes: seq<SelectCb>)
    reads nodes
  {
    && (forall k {:trigger nodes[k].next} :: 0 <= k < |nodes| ==> nodes[k].next == Nth(nodes, k + 1))
    && (forall k {:trigger nodes[k].prev} :: 0 <= k < |nodes| ==> nodes[k].prev == Nth(nodes, k - 1))
  }

  /** The neighbours of node `k` point past it: the others are a list. */
  lemma Relinked(was: seq<SelectCb>, k: nat)
    requires Distinct(was) && k < |was|
    requires forall o {:trigger was[o].next} :: 0 <= o < |was| ==>
      was[o].next == (if o == k - 1 then Nth(was, k + 1) else Nth(was, o + 1))
    requires forall o {:trigger was[o].prev} :: 0 <= o < |was| ==>
      was[o].prev == (if o == k + 1 then Nth(was, k - 1) else Nth(was, o - 1))
    ensures Distinct(was[..k] + was[k + 1..]) && LinkedUp(was[..k] + was[k + 1..])
  {
    var rest := was[..k] + was[k + 1..];
    forall j | 0 <= j < |rest| ensures rest[j].next == Nth(rest, j + 1) && rest[j].prev == Nth(rest, j - 1) {
      assert rest[j] == was[if j < k then j else j + 1];
    }
  }

  class SelectCbList {
    var first: SelectCb?
    var ctr: nat
    ghost var nodes: seq<SelectCb>

    ghost predicate Valid()
      reads this, nodes
    {
      && Distinct(nodes)
      && first == Nth(nodes, 0)
      && LinkedUp(nodes)
    }

    constructor ()
      ensures Valid() && nodes == []
    {
      first, ctr, nodes := null, 0, [];
    }

    /** lwip_link_select_cb: on top of the list. */
    method Link(cb: SelectCb)
      requires Valid() && cb.prev == null && cb !in nodes
      modifies this, nodes, cb
      ensures Valid() && nodes == [cb] + old(nodes) && ctr == old(ctr) + 1
    {
      cb.next := first;
      if first != null {
        first.prev := cb;
      }
      first := cb;
      ctr := ctr + 1;
      nodes := [cb] + nodes;
    }

    /** lwip_unlink_select_cb: out of wherever it is. */
    method Unlink(cb: SelectCb, ghost k: nat)
      requires Valid() && k < |nodes| && nodes[k] == cb
      modifies this, nodes
      ensures Valid() && nodes == old(nodes)[..k] + old(nodes)[k + 1..] && ctr == old(ctr) + 1
    {
      ghost var was := nodes;
      var next, prev := cb.next, cb.prev;
      if next != null {
        next.prev := prev;
      }
      if first == cb {
        assert prev == null;
        first := next;
      } else {
        assert prev == was[k - 1] && next != prev;
        prev.next := next;
      }
      ctr := ctr + 1;
      nodes := was[..k] + was[k + 1..];
      Relinked(was, k);
    }
  }

  function Owners(nodes: seq<SelectCb>): (r: seq<Tid>)
    ensures |r| == |nodes| && forall i :: 0 <= i < |r| ==> r[i] == nodes[i].owner
  {
    seq(|nodes|, i requires 0 <= i < |nodes| => nodes[i].owner)
  }

  /** Seen through the owning threads, the list is the machine's: a link of the machine puts the
      thread where the code puts its node, in front, and an unlink takes it out, and both change
      the generation. */
  lemma ListRefinesWaiters(s: State, t: Tid, pc: Pc, nodes: seq<SelectCb>, cb: SelectCb, k: nat)
    requires t < |s.threads| && s.waiters == Owners(nodes) && cb.owner == t && k < |nodes| && Distinct(Owners(nodes))
    ensures Perform(s, t, Move(Link, pc)).waiters == Owners([cb] + nodes)
    ensures nodes[k] == cb ==> Perform(s, t, Move(Unlink, pc)).waiters == Owners(nodes[..k] + nodes[k + 1..])
    ensures Perform(s, t, Move(Link, pc)).ctr == s.ctr + 1 && Perform(s, t, Move(Unlink, pc)).ctr == s.ctr + 1
  {
    assert Owners([cb] + nodes) == [cb.owner] + Owners(nodes);
    assert Owners(nodes)[k] == nodes[k].owner;
    var j := IndexOf(Owners(nodes), nodes[k].owner);
    assert j == k;
    assert Owners(nodes[..k] + nodes[k + 1..]) == Without(Owners(nodes), nodes[k].owner);
  }

  /** What a scan of the descriptors below `max` finds. */
  ghost predicate ExactlyReady(c: Sel, slots: seq<Slot>, k: nat, f: Found) {
    && FoundOk(c, k, f)
    && forall i: nat :: i < k && i < |slots| ==>
      && (i in f.readset <==> i in c.readset && (slots[i].lastdata || slots[i].rcvevent > 0))
      && (i in f.writeset <==> i in c.writeset && slots[i].sendevent)
      && (i in f.exceptset <==> i in c.exceptset && slots[i].errevent)
  }

  lemma OneMore(c: Sel, slots: seq<Slot>, k: nat, f: Found)
    requires ExactlyReady(c, slots, k, f)
    ensures !Interest(c, k) ==> ExactlyReady(c, slots, k + 1, f)
    ensures k < |slots| ==> ExactlyReady(c, slots, k + 1, Scanned(c, slots[k], k, f))
  {
    if k < |slots| {
      ScannedOk(c, slots[k], k, f);
    }
  }

  /** Getting a descriptor and releasing it again leaves the table as it was. */
  method Peek(table: Sockets, i: nat) returns (slot: Option<Slot>)
    requires i < table.slots.Length && table.slots[i].fdUsed < U8_MAX
    modifies table.slots
    ensures table.slots[..] == old(table.slots[..])
    ensures slot == if table.slots[i].pending.Pending? then None
                    else Some(table.slots[i].(fdUsed := table.slots[i].fdUsed + 1))
  {
    ghost var was := table.slots[..];
    var granted := table.SockIncUsed(i);
    if !granted {
      return None;
    }
    assert table.slots[i] == table.slots[..][i];
    slot := Some(table.slots[i]);
    var freed, conn := table.DoneSocket(i);
    assert table.slots[..] == was;
    assert table.slots[i] == was[i];
  }

  ghost predicate AnyClosing(c: Sel, slots: seq<Slot>, k: nat) {
    exists i: nat :: i < k && i < |slots| && Interest(c, i) && slots[i].pending.Pending?
  }

  /** lwip_selscan, run without interference: the exact ready subsets and their size, or -1
      if a descriptor of interest is being closed. */
  method Selscan(table: Sockets, c: Sel) returns (nready: int, found: Found)
    requires forall i: nat :: i < c.max && Interest(c, i) ==> i < table.slots.Length && table.slots[i].fdUsed < U8_MAX
    modifies table.slots
    ensures table.slots[..] == old(table.slots[..])
    ensures nready == -1 <==> AnyClosing(c, old(table.slots[..]), c.max)
    ensures nready != -1 ==> nready == found.nready && ExactlyReady(c, old(table.slots[..]), c.max, found)
  {
    ghost var slots := table.slots[..];
    var i: nat := 0;
    found := NOTHING_FOUND;
    while i < c.max
      invariant i <= c.max && table.slots[..] == slots
      invariant !AnyClosing(c, slots, i)
      invariant ExactlyReady(c, slots, i, found)
    {
      OneMore(c, slots, i, found);
      if Interest(c, i) {
        assert table.slots[i] == slots[i];
        var slot := Peek(table, i);
        if slot.None? {
          return -1, NOTHING_FOUND;
        }
        found := Scanned(c, slot.value, i, found);
      }
      i := i + 1;
    }
    nready := found.nready;
  }
}
