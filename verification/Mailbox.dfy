/** The binary semaphore and the mailbox ring buffer of lwip_client/ta/sys_arch.c. */
module Mailbox {
  import opened Common

  // These are the sections that run under their mutexes. `first` and `last` are taken as unbounded:
  // their overflow as C ints is not part of this model.

  type Msg = nat

  const SIZE := 128

  /** struct sys_sem: a signal saturates at one token. */
  class SysSem {
    var c: nat

    constructor (count: nat)
      ensures c == count
    {
      c := count;
    }

    /** sys_sem_signal. */
    method Signal()
      modifies this
      ensures c == 1
    {
      c := c + 1;
      if c > 1 {
        c := 1;
      }
    }

    /** sys_arch_sem_wait once the count is positive; otherwise the caller blocks. */
    method Poll() returns (taken: bool)
      modifies this
      ensures taken <==> old(c) > 0
      ensures c == if taken then old(c) - 1 else old(c)
    {
      if c <= 0 {
        return false;
      }
      c := c - 1;
      return true;
    }
  }

  /** The live messages between `first` and `last`, oldest first. */
  function Live(msgs: seq<Msg>, first: nat, last: nat): (r: seq<Msg>)
    requires |msgs| == SIZE && first <= last
    ensures |r| == last - first
    ensures forall k :: 0 <= k < |r| ==> r[k] == msgs[(first + k) % SIZE]
    decreases last - first
  {
    if first == last then [] else [msgs[first % SIZE]] + Live(msgs, first + 1, last)
  }

  lemma {:induction false} LiveAppend(msgs: seq<Msg>, first: nat, last: nat, m: Msg)
    requires |msgs| == SIZE && first <= last < first + SIZE
    ensures Live(msgs[last % SIZE := m], first, last + 1) == Live(msgs, first, last) + [m]
  {
    var after := Live(msgs[last % SIZE := m], first, last + 1);
    forall k | 0 <= k < last - first ensures after[k] == Live(msgs, first, last)[k] {
    }
    assert after[last - first] == m;
  }

  /** The bounded queue a mailbox is: one slot of the ring always stays free. */
  predicate Full(queue: seq<Msg>) {
    |queue| >= SIZE - 1
  }

  class SysMbox {
    var first: nat
    var last: nat
    const msgs: array<Msg>
    var waitSend: nat

    ghost predicate Valid()
      reads this
    {
      msgs.Length == SIZE && first <= last < first + SIZE
    }

    ghost function Contents(): (q: seq<Msg>)
      requires Valid()
      reads this, msgs
      ensures |q| < SIZE
    {
      Live(msgs[..], first, last)
    }

    /** sys_mbox_new. */
    constructor ()
      ensures Valid() && Contents() == [] && waitSend == 0 && fresh(msgs)
    {
      first, last, waitSend := 0, 0, 0;
      msgs := new Msg[SIZE];
    }

    /** The test that sys_mbox_post loops on and sys_mbox_trypost fails on. */
    method IsFull() returns (full: bool)
      requires Valid()
      ensures full <==> Full(Contents())
    {
      full := last + 1 >= first + SIZE;
    }

    /** The part sys_mbox_post and sys_mbox_trypost share, after the test. */
    method Enqueue(m: Msg) returns (wasEmpty: bool)
      requires Valid() && !Full(Contents())
      modifies this`last, msgs
      ensures Valid() && Contents() == old(Contents()) + [m]
      ensures wasEmpty <==> old(Contents()) == []
    {
      LiveAppend(msgs[..], first, last, m);
      msgs[last % SIZE] := m;
      wasEmpty := last == first;
      last := last + 1;
      assert msgs[..] == old(msgs[..])[old(last) % SIZE := m];
    }

    /** sys_mbox_trypost between locking and unlocking the mailbox. */
    method TryPost(m: Msg, notEmpty: SysSem) returns (err: Err)
      requires Valid()
      modifies this`last, msgs, notEmpty
      ensures Valid()
      ensures err == if Full(old(Contents())) then MEM else OK
      ensures Contents() == if err == OK then old(Contents()) + [m] else old(Contents())
      ensures notEmpty.c == if err == OK && old(Contents()) == [] then 1 else old(notEmpty.c)
    {
      var full := IsFull();
      if full {
        return MEM;
      }
      var wasEmpty := Enqueue(m);
      if wasEmpty {
        notEmpty.Signal();
      }
      return OK;
    }

    /** The part sys_arch_mbox_fetch and sys_arch_mbox_tryfetch share: take the oldest
        message, and let one blocked poster know there is room. */
    method Dequeue(notFull: SysSem) returns (m: Msg)
      requires Valid() && Contents() != []
      modifies this`first, notFull
      ensures Valid() && old(Contents()) == [m] + Contents()
      ensures notFull.c == if waitSend > 0 then 1 else old(notFull.c)
    {
      m := msgs[first % SIZE];
      first := first + 1;
      if waitSend > 0 {
        notFull.Signal();
      }
    }

    /** sys_arch_mbox_tryfetch between locking and unlocking the mailbox. */
    method TryFetch(notFull: SysSem) returns (m: Option<Msg>)
      requires Valid()
      modifies this`first, notFull
      ensures Valid()
      ensures m.None? <==> old(Contents()) == []
      ensures old(Contents()) == (if m.Some? then [m.value] else []) + Contents()
      ensures notFull.c == if m.Some? && waitSend > 0 then 1 else old(notFull.c)
    {
      if first == last {
        return None;
      }
      var oldest := Dequeue(notFull);
      return Some(oldest);
    }
  }
}
