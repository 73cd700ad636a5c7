/** Receive events around lwip_accept (lwip_client/ta/sockets.c). */
module AcceptReplay {
  import opened Common
  import opened SocketTable

  // As long as a new connection has no descriptor, event_callback counts RCVPLUS events in the
  // negative callback_arg.socket; lwip_accept then stores the descriptor and replays them.

  // Any number of event_callback invocations are in flight while lwip_accept runs; each
  // reads callback_arg.socket without protection first, as the code does.

  /** An event_callback invocation: it has been entered, has seen a negative number, knows
      the descriptor, or holds the socket; `plus` tells RCVPLUS from RCVMINUS. */
  datatype Call = Entered(plus: bool) | SawNone(plus: bool) | Knows(plus: bool) | Holds(plus: bool)

  datatype Accept = Before | Replaying(left: nat)

  /** `exact` is the receive count without the wrap-around of its s16_t; the four counters
      are logs: events issued, and events that reached no socket. */
  datatype State = State(cb: int, accept: Accept, open: bool, rcvevent: int, calls: seq<Call>, exact: int,
                         plus: nat, minus: nat, lostPlus: nat, lostMinus: nat)

  datatype Action =
    | Issue(plus: bool)
    | Proceed(k: nat)
    | Handover(newsock: nat)
    | Replay
    | SetOpen(open: bool)

  function Remove(calls: seq<Call>, k: nat): seq<Call>
    requires k < |calls|
  {
    calls[..k] + calls[k + 1..]
  }

  function Sign(plus: bool): int {
    if plus then 1 else -1
  }

  /** Events counted below -1. */
  function Counted(cb: int): nat {
    if cb < 0 then -1 - cb else 0
  }

  /** What lwip_accept replays for `n` counted events: `(s16_t)n`, if positive. */
  function Replays(n: nat): nat {
    if S16(n) > 0 then S16(n) else 0
  }

  /** The event reached no socket. */
  function Dropped(s: State, k: nat): State
    requires k < |s.calls|
  {
    s.(calls := Remove(s.calls, k),
       lostPlus := if s.calls[k].plus then s.lostPlus + 1 else s.lostPlus,
       lostMinus := if s.calls[k].plus then s.lostMinus else s.lostMinus + 1)
  }

  /** The next section of invocation `k`. */
  function CallStep(s: State, k: nat): State
    requires k < |s.calls|
  {
    match s.calls[k]
    case Entered(plus) => s.(calls := s.calls[k := if s.cb < 0 then SawNone(plus) else Knows(plus)])
    case SawNone(plus) =>
      if s.cb >= 0 then s.(calls := s.calls[k := Knows(plus)])
      else if plus then s.(calls := Remove(s.calls, k), cb := s.cb - 1)
      else Dropped(s, k)
    case Knows(plus) => if s.open then s.(calls := s.calls[k := Holds(plus)]) else Dropped(s, k)
    case Holds(plus) =>
      s.(calls := Remove(s.calls, k), rcvevent := S16(s.rcvevent + Sign(plus)), exact := s.exact + Sign(plus))
  }

  function Step(s: State, a: Action): Option<State> {
    match a
    case Issue(plus) =>
      Some(s.(calls := s.calls + [Entered(plus)],
              plus := if plus then s.plus + 1 else s.plus, minus := if plus then s.minus else s.minus + 1))
    case Proceed(k) => if k < |s.calls| then Some(CallStep(s, k)) else None
    case Handover(newsock) =>
      if s.accept.Replaying? then None
      else
        var n := Counted(s.cb);
        Some(s.(cb := newsock, accept := Replaying(Replays(n)), lostPlus := s.lostPlus + (n - Replays(n))))
    case Replay =>
      if s.accept.Before? || s.accept.left == 0 then None
      else Some(s.(accept := Replaying(s.accept.left - 1), calls := s.calls + [Entered(true)]))
    case SetOpen(open) => Some(s.(open := open))
  }

  /** netconn->socket starts at -1, and the receive count at 0. */
  const INIT := State(-1, Before, true, 0, [], 0, 0, 0, 0, 0)

  predicate Next(p: State, a: Action, s: State) {
    Step(p, a) == Some(s)
  }

  ghost predicate Reaches(actions: seq<Action>, s: State)
    decreases |actions|, 1
  {
    if actions == [] then s == INIT else exists p :: LastStep(actions, p, s)
  }

  /** The last step of `actions` leads to `s` from `p`, which the others reach. */
  ghost predicate LastStep(actions: seq<Action>, p: State, s: State)
    requires actions != []
    decreases |actions|, 0
  {
    var last := actions[|actions| - 1];
    Reaches(actions[..|actions| - 1], p) && Next(p, last, s)
  }

  function InFlight(calls: seq<Call>): int {
    if calls == [] then 0 else Sign(calls[0].plus) + InFlight(calls[1..])
  }

  lemma {:induction false} InFlightAppend(calls: seq<Call>, c: Call)
    ensures InFlight(calls + [c]) == InFlight(calls) + Sign(c.plus)
  {
    if calls == [] {
      assert [] + [c] == [c];
      assert InFlight([c]) == Sign(c.plus) + InFlight([]);
    } else {
      InFlightAppend(calls[1..], c);
      assert (calls + [c])[1..] == calls[1..] + [c];
    }
  }

  lemma {:induction false} InFlightAt(calls: seq<Call>, k: nat, c: Call)
    requires k < |calls|
    ensures InFlight(Remove(calls, k)) == InFlight(calls) - Sign(calls[k].plus)
    ensures c.plus == calls[k].plus ==> InFlight(calls[k := c]) == InFlight(calls)
  {
    if k == 0 {
      assert Remove(calls, k) == calls[1..];
      assert calls[0 := c][1..] == calls[1..];
    } else {
      InFlightAt(calls[1..], k - 1, c);
      assert Remove(calls, k)[0] == calls[0] && Remove(calls, k)[1..] == Remove(calls[1..], k - 1);
      assert calls[k := c][1..] == calls[1..][k - 1 := c];
    }
  }

  function ToReplay(a: Accept): nat {
    if a.Before? then 0 else a.left
  }

  /** Every event issued is in one place: counted, to be replayed, in flight, in the receive
      count, or written off. */
  predicate Conserved(s: State) {
    s.plus - s.minus ==
    Counted(s.cb) + ToReplay(s.accept) + InFlight(s.calls) + s.exact + s.lostPlus - s.lostMinus
  }

  predicate Inv(s: State) {
    Conserved(s) && s.rcvevent == S16(s.exact) && (s.cb < 0 <==> s.accept.Before?)
  }

  /** The replay is complete if and only if the count fits into an s16_t. */
  lemma ReplaysAll(n: nat)
    ensures Replays(n) <= n
    ensures Replays(n) == n <==> n <= 0x7fff
  {
    if n > 0x7fff {
      assert S16(n) <= 0x7fff;
    }
  }

  lemma CallStepInv(s: State, k: nat)
    requires Inv(s) && k < |s.calls|
    ensures Inv(CallStep(s, k))
  {
    var plus := s.calls[k].plus;
    InFlightAt(s.calls, k, SawNone(plus));
    InFlightAt(s.calls, k, Knows(plus));
    InFlightAt(s.calls, k, Holds(plus));
  }

  lemma StepInv(s: State, a: Action)
    requires Inv(s) && Step(s, a).Some?
    ensures Inv(Step(s, a).value)
  {
    match a
    case Issue(plus) => InFlightAppend(s.calls, Entered(plus));
    case Proceed(k) => CallStepInv(s, k);
    case Handover(_) => ReplaysAll(Counted(s.cb));
    case Replay => InFlightAppend(s.calls, Entered(true));
    case SetOpen(_) =>
  }

  lemma {:induction false} ReachableInv(actions: seq<Action>, s: State)
    requires Reaches(actions, s)
    ensures Inv(s)
    decreases |actions|
  {
    if actions != [] {
      var init, last := actions[..|actions| - 1], actions[|actions| - 1];
      var p :| LastStep(actions, p, s);
      ReachableInv(init, p);
      StepInv(p, last);
    }
  }

  /** Receive events around accept are neither lost nor duplicated, for any interleaving: in
      every state those counted below -1, those still to be replayed, those in flight and
      those in the receive count sum up to the events issued, but for the ones written off. */
  lemma EventsConserved(actions: seq<Action>, s: State)
    requires Reaches(actions, s)
    ensures s.plus - s.minus - s.lostPlus + s.lostMinus
            == Counted(s.cb) + ToReplay(s.accept) + InFlight(s.calls) + s.exact
    ensures -0x8000 <= s.exact < 0x8000 ==> s.rcvevent == s.exact
  {
    ReachableInv(actions, s);
  }

  /** A step writes off a RCVPLUS exactly if it hands over more events than an s16_t holds,
      or finds the socket closing; and a RCVMINUS exactly if there is no socket for it yet,
      which the code does not count up, or the socket is closing. */
  lemma WrittenOff(s: State, a: Action)
    requires Step(s, a).Some?
    ensures Step(s, a).value.lostPlus > s.lostPlus <==>
      || (a.Handover? && Counted(s.cb) > 0x7fff)
      || (a.Proceed? && s.calls[a.k] == Knows(true) && !s.open)
    ensures Step(s, a).value.lostMinus > s.lostMinus <==>
      a.Proceed? && ((s.calls[a.k] == Knows(false) && !s.open) || (s.calls[a.k] == SawNone(false) && s.cb < 0))
  {
    if a.Handover? { ReplaysAll(Counted(s.cb)); }
  }

  /** The steps of a well-behaved environment: the socket stays open, a RCVMINUS comes only
      from a thread that knows the descriptor, and no more events are counted than an s16_t
      holds when lwip_accept takes them over. */
  predicate Gentle(s: State, a: Action) {
    match a
    case Issue(plus) => plus || s.cb >= 0
    case Handover(_) => Counted(s.cb) <= 0x7fff
    case SetOpen(open) => open
    case _ => true
  }

  ghost predicate ReachesGently(actions: seq<Action>, s: State)
    ensures ReachesGently(actions, s) ==> Reaches(actions, s)
    decreases |actions|, 1
  {
    if actions == [] then s == INIT else exists p :: LastGently(actions, p, s)
  }

  ghost predicate LastGently(actions: seq<Action>, p: State, s: State)
    requires actions != []
    ensures LastGently(actions, p, s) ==> LastStep(actions, p, s)
    decreases |actions|, 0
  {
    var last := actions[|actions| - 1];
    ReachesGently(actions[..|actions| - 1], p) && Next(p, last, s) && Gentle(p, last)
  }

  /** Nothing has been written off, and a RCVMINUS in flight has a socket to go to. */
  predicate NothingLost(s: State) {
    && s.open && s.lostPlus == 0 && s.lostMinus == 0
    && (s.cb < 0 ==> forall k :: 0 <= k < |s.calls| ==> s.calls[k].plus)
  }

  lemma {:induction false} GentlyNothingLost(actions: seq<Action>, s: State)
    requires ReachesGently(actions, s)
    ensures NothingLost(s)
    decreases |actions|
  {
    if actions != [] {
      var init, last := actions[..|actions| - 1], actions[|actions| - 1];
      var p :| LastGently(actions, p, s);
      GentlyNothingLost(init, p);
      ReachableInv(init, p);
      WrittenOff(p, last);
    }
  }

  /** Receive events around accept are neither lost nor duplicated, for any interleaving of a
      well-behaved environment: the events issued are those counted below -1, those still to
      be replayed, those in flight, and those in the receive count; and once everything has
      settled, rcvevent is their number. */
  lemma EventsAllArrive(actions: seq<Action>, s: State)
    requires ReachesGently(actions, s)
    ensures s.plus - s.minus == Counted(s.cb) + ToReplay(s.accept) + InFlight(s.calls) + s.exact
    ensures s.calls == [] && s.accept == Replaying(0) ==> s.rcvevent == S16(s.plus - s.minus)
  {
    ReachableInv(actions, s);
    GentlyNothingLost(actions, s);
  }

  /** The oldest invocation in flight takes up to `n` steps. */
  function Drained(s: State, n: nat): State
    decreases n
  {
    if n == 0 || s.calls == [] then s else Drained(CallStep(s, 0), n - 1)
  }

  /** One event_callback invocation with a RCVPLUS that nothing interferes with. */
  function Alone(s: State): State {
    Drained(Step(s, Issue(true)).value, 4)
  }

  /** And one made by the replay. */
  function ReplayedOne(s: State): State
    requires s.accept.Replaying? && s.accept.left > 0
  {
    Drained(Step(s, Replay).value, 4)
  }

  /** Alone, a RCVPLUS is counted without a socket, and received with one. */
  lemma DrainsPlus(s: State)
    requires s.calls == [Entered(true)] && s.open
    ensures Drained(s, 4) ==
      if s.cb < 0 then s.(cb := s.cb - 1, calls := [])
      else s.(rcvevent := S16(s.rcvevent + 1), exact := s.exact + 1, calls := [])
  {
    var s1 := CallStep(s, 0);
    var s2 := CallStep(s1, 0);
    if s.cb < 0 {
      assert s1.calls == [SawNone(true)] && s2.calls == [];
      assert Drained(s, 4) == Drained(s1, 3) == Drained(s2, 2) == s2;
    } else {
      assert s1.calls == [Knows(true)] && s2.calls == [Holds(true)];
      var s3 := CallStep(s2, 0);
      assert s3.calls == [];
      assert Drained(s, 4) == Drained(s1, 3) == Drained(s2, 2) == Drained(s3, 1) == s3;
    }
  }

  lemma {:induction false} DrainedInv(s: State, n: nat)
    requires Inv(s)
    ensures Inv(Drained(s, n))
    decreases n
  {
    if n > 0 && s.calls != [] {
      CallStepInv(s, 0);
      DrainedInv(CallStep(s, 0), n - 1);
    }
  }

  /** The numbers lwip_accept and event_callback share for one new connection, and the state
      of the machine that they are part of when no invocation is in flight. */
  class NewConn {
    var cb: int
    var rcvevent: int
    ghost var machine: State

    ghost predicate Valid()
      reads this
    {
      Inv(machine) && machine.cb == cb && machine.rcvevent == rcvevent && machine.calls == [] && machine.open
    }

    constructor ()
      ensures Valid() && machine == INIT
    {
      cb, rcvevent := -1, 0;
      machine := INIT;
    }

    /** event_callback with a RCVPLUS: one more event is known to the connection, in the one
        of the two places that its descriptor decides. */
    method ReceivePlus()
      requires Valid()
      modifies this
      ensures Valid() && machine == Alone(old(machine))
      ensures Counted(cb) + machine.exact == Counted(old(cb)) + old(machine.exact) + 1
      ensures old(cb) < 0 ==> cb < 0 && machine.exact == old(machine.exact)
    {
      ghost var issued := Step(machine, Issue(true)).value;
      StepInv(machine, Issue(true));
      assert issued.calls == [Entered(true)];
      DrainsPlus(issued);
      DrainedInv(issued, 4);
      machine := Drained(issued, 4);
      if cb < 0 {
        cb := cb - 1;
      } else {
        rcvevent := S16(rcvevent + 1);
      }
    }

    /** The callback that lwip_accept makes for each event it replays. */
    method ReplayCallback()
      requires Valid() && machine.accept.Replaying? && machine.accept.left > 0
      modifies this
      ensures Valid() && machine == ReplayedOne(old(machine)) && cb == old(cb)
      ensures machine.accept == Replaying(old(machine.accept.left) - 1) && machine.exact == old(machine.exact) + 1
      ensures machine.lostPlus == old(machine.lostPlus)
    {
      ghost var replayed := Step(machine, Replay).value;
      StepInv(machine, Replay);
      assert replayed.calls == [Entered(true)];
      DrainsPlus(replayed);
      DrainedInv(replayed, 4);
      machine := Drained(replayed, 4);
      rcvevent := S16(rcvevent + 1);
    }

    /** The end of lwip_accept: the events counted so far are all received, if an s16_t can
        hold their number, and nothing is counted any more. */
    method FinishAccept(newsock: nat)
      requires Valid() && cb < 0
      modifies this
      ensures Valid() && cb == newsock && machine.accept == Replaying(0)
      ensures var n := Counted(old(cb));
        machine.exact == old(machine.exact) + Replays(n) && machine.lostPlus == old(machine.lostPlus) + (n - Replays(n))
      ensures Counted(old(cb)) <= 0x7fff && old(machine.exact) == 0 ==> rcvevent == Counted(old(cb))
    {
      ghost var n := Counted(cb);
      ReplaysAll(n);
      StepInv(machine, Handover(newsock));
      machine := Step(machine, Handover(newsock)).value;
      var recvevent := S16(-1 - cb);
      cb := newsock;
      while recvevent > 0
        invariant Valid() && cb == newsock && machine.accept.Replaying?
        invariant machine.accept.left == if recvevent > 0 then recvevent else 0
        invariant machine.exact + machine.accept.left == old(machine.exact) + Replays(n)
        invariant machine.lostPlus == old(machine.lostPlus) + (n - Replays(n))
      {
        recvevent := recvevent - 1;
        ReplayCallback();
      }
    }
  }
}
