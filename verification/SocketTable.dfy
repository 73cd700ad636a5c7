/** The descriptor table of lwip_client/ta/sockets.c (LWIP_NETCONN_FULLDUPLEX): the
    reference count of a descriptor, its deferred release, and the event fields that
    select looks at. Each function below is the effect of one SYS_ARCH_PROTECT section
    on the slot it touches; class Sockets performs those sections on the global array. */
module SocketTable {
  import opened Common

  type ConnId = nat

  datatype FreePending = NotPending | Pending(isTcp: bool)

  datatype Slot = Slot(
    conn: Option<ConnId>, lastdata: bool,
    fdUsed: nat, pending: FreePending,
    rcvevent: int, sendevent: bool, errevent: bool, selectWaiting: nat)

  datatype Event = RcvPlus | RcvMinus | SendPlus | SendMinus | ErrorEvent

  /** fd_used and select_waiting are u8_t. */
  const U8_MAX := 255

  /** Conversion to s16_t. */
  function S16(x: int): (r: int)
    ensures -0x8000 <= r < 0x8000 && (r - x) % 0x1_0000 == 0
    ensures -0x8000 <= x < 0x8000 ==> r == x
  {
    (x + 0x8000) % 0x1_0000 - 0x8000
  }

  /** free_socket_locked: what is left of the slot, and the netconn to delete if this was
      the last use. */
  function FreeLocked(s: Slot, isTcp: bool): (r: (Slot, Option<ConnId>))
    requires s.fdUsed > 0
  {
    if s.fdUsed > 1 then (s.(fdUsed := s.fdUsed - 1, pending := Pending(isTcp)), None)
    else (s.(fdUsed := 0, lastdata := false, conn := None), s.conn)
  }

  /** The protected section of done_socket. */
  function DoneLocked(s: Slot): (r: (Slot, Option<ConnId>))
    requires s.fdUsed > 0
  {
    if s.fdUsed == 1 && s.pending.Pending? then FreeLocked(s, s.pending.isTcp)
    else (s.(fdUsed := s.fdUsed - 1), None)
  }

  /** What alloc_socket does to a slot in its protected section. */
  function TakenBy(s: Slot, conn: ConnId): Slot {
    s.(conn := Some(conn), fdUsed := 1, pending := NotPending)
  }

  /** The stores it makes after leaving the section; `writable` is set for accepted and
      non-TCP sockets. Between the first and the second, it asserts that select_waiting is 0. */
  function Stored(s: Slot, writable: bool, k: nat): Slot {
    match k
    case 0 => s.(lastdata := false)
    case 1 => s.(rcvevent := 0)
    case 2 => s.(sendevent := writable)
    case _ => s.(errevent := false)
  }

  /** A slot after all of alloc_socket. */
  function NewSlot(conn: ConnId, writable: bool, selectWaiting: nat): Slot {
    Slot(Some(conn), false, 1, NotPending, 0, writable, false, selectWaiting)
  }

  predicate Available(s: Slot) {
    s.conn.None? && s.fdUsed == 0
  }

  function Posted(s: Slot, e: Event): Slot {
    match e
    case RcvPlus => s.(rcvevent := S16(s.rcvevent + 1))
    case RcvMinus => s.(rcvevent := S16(s.rcvevent - 1))
    case SendPlus => s.(sendevent := true)
    case SendMinus => s.(sendevent := false)
    case ErrorEvent => s.(errevent := true)
  }

  /** Whether event_callback goes on to look for select waiters. */
  predicate ChecksWaiters(s: Slot, e: Event) {
    match e
    case RcvPlus => Posted(s, e).rcvevent <= 1
    case RcvMinus => false
    case SendPlus => !s.sendevent
    case SendMinus => false
    case ErrorEvent => true
  }

  const EMPTY_SLOT := Slot(None, false, 0, NotPending, 0, false, false, 0)

  class Sockets {
    const slots: array<Slot>

    constructor (n: nat)
      ensures fresh(slots) && slots.Length == n
      ensures forall i :: 0 <= i < n ==> slots[i] == EMPTY_SLOT
    {
      slots := new Slot[n](_ => EMPTY_SLOT);
    }

    /** sock_inc_used: no new use once a release is pending. */
    method SockIncUsed(i: nat) returns (granted: bool)
      requires i < slots.Length && slots[i].fdUsed < U8_MAX
      modifies slots
      ensures granted <==> old(slots[i]).pending.NotPending?
      ensures slots[..] == if granted
                           then old(slots[..])[i := old(slots[i]).(fdUsed := old(slots[i]).fdUsed + 1)]
                           else old(slots[..])
    {
      if slots[i].pending.Pending? {
        return false;
      }
      slots[i] := slots[i].(fdUsed := slots[i].fdUsed + 1);
      return true;
    }

    /** free_socket_locked. */
    method FreeSocketLocked(i: nat, isTcp: bool) returns (freed: bool, conn: Option<ConnId>)
      requires i < slots.Length && slots[i].fdUsed > 0
      modifies slots
      ensures slots[..] == old(slots[..])[i := FreeLocked(old(slots[i]), isTcp).0]
      ensures conn == FreeLocked(old(slots[i]), isTcp).1
      ensures freed <==> old(slots[i]).fdUsed == 1
    {
      slots[i] := slots[i].(fdUsed := slots[i].fdUsed - 1);
      if slots[i].fdUsed > 0 {
        slots[i] := slots[i].(pending := Pending(isTcp));
        return false, None;
      }
      slots[i] := slots[i].(lastdata := false);
      conn := slots[i].conn;
      slots[i] := slots[i].(conn := None);
      freed := true;
    }

    /** done_socket, up to leaving the protected section. */
    method DoneSocket(i: nat) returns (freed: bool, conn: Option<ConnId>)
      requires i < slots.Length && slots[i].fdUsed > 0
      modifies slots
      ensures slots[..] == old(slots[..])[i := DoneLocked(old(slots[i])).0]
      ensures conn == DoneLocked(old(slots[i])).1
      ensures freed <==> old(slots[i]).fdUsed == 1 && old(slots[i]).pending.Pending?
    {
      freed, conn := false, None;
      slots[i] := slots[i].(fdUsed := slots[i].fdUsed - 1);
      if slots[i].fdUsed == 0 {
        if slots[i].pending.Pending? {
          slots[i] := slots[i].(fdUsed := 1);
          freed, conn := FreeSocketLocked(i, slots[i].pending.isTcp);
        }
      }
    }

    /** alloc_socket, run without interference: the first slot that has neither a netconn
        nor a user, or none if every slot is taken. */
    method AllocSocket(newconn: ConnId, writable: bool) returns (fd: int)
      modifies slots
      ensures -1 <= fd < slots.Length
      ensures forall k :: 0 <= k < (if fd == -1 then slots.Length else fd) ==> !Available(old(slots[k]))
      ensures fd == -1 ==> slots[..] == old(slots[..])
      ensures fd >= 0 ==> Available(old(slots[fd]))
      ensures fd >= 0 ==> slots[..] == old(slots[..])[fd := NewSlot(newconn, writable, old(slots[fd]).selectWaiting)]
    {
      var i := 0;
      while i < slots.Length
        invariant 0 <= i <= slots.Length
        invariant slots[..] == old(slots[..])
        invariant forall k :: 0 <= k < i ==> !Available(slots[k])
      {
        if slots[i].conn.None? {
          if slots[i].fdUsed == 0 {
            slots[i] := TakenBy(slots[i], newconn);
            slots[i] := Stored(slots[i], writable, 0);
            slots[i] := Stored(slots[i], writable, 1);
            slots[i] := Stored(slots[i], writable, 2);
            slots[i] := Stored(slots[i], writable, 3);
            return i;
          }
        }
        i := i + 1;
      }
      return -1;
    }

    /** The protected section of event_callback. */
    method PostEvent(i: nat, e: Event) returns (walk: bool)
      requires i < slots.Length
      modifies slots
      ensures slots[..] == old(slots[..])[i := Posted(old(slots[i]), e)]
      ensures walk <==> old(slots[i]).selectWaiting > 0 && ChecksWaiters(old(slots[i]), e)
    {
      var checkWaiters := true;
      match e {
        case RcvPlus =>
          slots[i] := slots[i].(rcvevent := S16(slots[i].rcvevent + 1));
          if slots[i].rcvevent > 1 { checkWaiters := false; }
        case RcvMinus =>
          slots[i] := slots[i].(rcvevent := S16(slots[i].rcvevent - 1));
          checkWaiters := false;
        case SendPlus =>
          if slots[i].sendevent { checkWaiters := false; }
          slots[i] := slots[i].(sendevent := true);
        case SendMinus =>
          slots[i] := slots[i].(sendevent := false);
          checkWaiters := false;
        case ErrorEvent =>
          slots[i] := slots[i].(errevent := true);
      }
      walk := slots[i].selectWaiting > 0 && checkWaiters;
    }
  }
}
