/** Threads posting to and fetching from one mailbox of lwip_client/ta/sys_arch.c, with
    every operation on its three semaphores a step of its own: the mutex, the edge-triggered
    not_empty and the not_full that wait_send governs. */
module MailboxThreads {
  import opened Common
  import opened Mailbox

  datatype Fetch = Try | Timed | Forever

  /** Where a thread is. In the comments, [M] marks the positions that hold the mutex. */
  datatype Pc =
    | Idle
    | PostLock(m: Msg, tryOnly: bool, counted: bool)  // waits for the mutex; counted: after not_full
    | PostHold(m: Msg, tryOnly: bool)                 // [M] about to look for room
    | PostRelease(m: Msg)                             // [M] found it full, counted in wait_send
    | PostWait(m: Msg)                                // waits for not_full
    | PostSignal                                      // [M] made it non-empty
    | PostUnlock                                      // [M]
    | FetchLock(kind: Fetch)
    | FetchHold(kind: Fetch)                          // [M] about to look for a message
    | FetchRelease(kind: Fetch)                       // [M] found it empty
    | FetchWait(kind: Fetch)                          // waits for not_empty
    | FetchSignal                                     // [M] took one while posters wait
    | FetchUnlock                                     // [M]

  /** `fetchers` are the threads that ever fetch; `posted` and `fetched` log the messages
      put into and taken out of the ring. */
  datatype State = State(mutex: nat, notEmpty: nat, notFull: nat, waitSend: nat, queue: seq<Msg>,
                         pcs: seq<Pc>, fetchers: set<Tid>, posted: seq<Msg>, fetched: seq<Msg>)

  datatype Action =
    | Go
    | Post(m: Msg, tryOnly: bool)
    | Receive(kind: Fetch)
    | Expire

  /** One step by a thread at `pc`, before its own position is updated. */
  function Act(s: State, t: Tid, pc: Pc, a: Action): Option<(State, Pc)> {
    match pc
    case Idle =>
      (match a
       case Post(m, tryOnly) => Some((s, PostLock(m, tryOnly, false)))
       case Receive(kind) => if t in s.fetchers then Some((s, FetchLock(kind))) else None
       case _ => None)
    case PostLock(m, tryOnly, counted) =>
      if s.mutex == 0 then None
      else Some((s.(mutex := s.mutex - 1, waitSend := if counted && s.waitSend > 0 then s.waitSend - 1 else s.waitSend),
                 PostHold(m, tryOnly)))
    case PostHold(m, tryOnly) =>
      if Full(s.queue) then
        if tryOnly then Some((s, PostUnlock)) else Some((s.(waitSend := s.waitSend + 1), PostRelease(m)))
      else
        Some((s.(queue := s.queue + [m], posted := s.posted + [m]), if s.queue == [] then PostSignal else PostUnlock))
    case PostRelease(m) => Some((s.(mutex := 1), PostWait(m)))
    case PostWait(m) => if s.notFull == 0 then None else Some((s.(notFull := s.notFull - 1), PostLock(m, false, true)))
    case PostSignal => Some((s.(notEmpty := 1), PostUnlock))
    case PostUnlock => Some((s.(mutex := 1), Idle))
    case FetchLock(kind) => if s.mutex == 0 then None else Some((s.(mutex := s.mutex - 1), FetchHold(kind)))
    case FetchHold(kind) =>
      if s.queue == [] then Some((s, if kind.Try? then FetchUnlock else FetchRelease(kind)))
      else Some((s.(queue := s.queue[1..], fetched := s.fetched + [s.queue[0]]),
                 if s.waitSend > 0 then FetchSignal else FetchUnlock))
    case FetchRelease(kind) => Some((s.(mutex := 1), FetchWait(kind)))
    case FetchWait(kind) =>
      if a == Expire then if kind.Timed? then Some((s, Idle)) else None
      else if s.notEmpty == 0 then None
      else Some((s.(notEmpty := s.notEmpty - 1), FetchLock(kind)))
    case FetchSignal => Some((s.(notFull := 1), FetchUnlock))
    case FetchUnlock => Some((s.(mutex := 1), Idle))
  }

  predicate Next(s: State, t: Tid, a: Action, s': State) {
    && t < |s.pcs|
    && var r := Act(s, t, s.pcs[t], a);
    && r.Some? && s' == r.value.0.(pcs := s.pcs[t := r.value.1])
  }

  /** sys_mbox_new: mutex 1, both conditions 0. */
  predicate Init(s: State) {
    && s.mutex == 1 && s.notEmpty == 0 && s.notFull == 0 && s.waitSend == 0 && s.queue == []
    && (forall t :: 0 <= t < |s.pcs| ==> s.pcs[t] == Idle)
    && s.posted == [] && s.fetched == []
  }

  ghost predicate Reaches(schedule: seq<(Tid, Action)>, s: State)
    decreases |schedule|, 1
  {
    if schedule == [] then Init(s) else exists p :: LastStep(schedule, p, s)
  }

  /** The last step of `schedule` leads to `s` from `p`, which the others reach. */
  ghost predicate LastStep(schedule: seq<(Tid, Action)>, p: State, s: State)
    requires schedule != []
    decreases |schedule|, 0
  {
    var last := schedule[|schedule| - 1];
    Reaches(schedule[..|schedule| - 1], p) && Next(p, last.0, last.1, s)
  }

  // ---- Counting positions

  predicate HoldsMutex(pc: Pc) {
    || pc.PostHold? || pc.PostRelease? || pc.PostSignal? || pc.PostUnlock?
    || pc.FetchHold? || pc.FetchRelease? || pc.FetchSignal? || pc.FetchUnlock?
  }

  predicate Counted(pc: Pc) {
    pc.PostRelease? || pc.PostWait? || (pc.PostLock? && pc.counted)
  }

  predicate Blocked(pc: Pc) {
    pc.PostRelease? || pc.PostWait?
  }

  /** About to put a message in, to find the mailbox full, or to signal not_full. */
  predicate Coming(pc: Pc) {
    (pc.PostLock? && pc.counted) || pc.PostHold? || pc.FetchSignal?
  }

  predicate Fetching(pc: Pc) {
    || pc.FetchLock? || pc.FetchHold? || pc.FetchRelease? || pc.FetchWait? || pc.FetchSignal? || pc.FetchUnlock?
  }

  function Count(pcs: seq<Pc>, p: Pc -> bool): nat {
    if pcs == [] then 0 else Is1(p(pcs[0])) + Count(pcs[1..], p)
  }

  lemma {:induction false} CountUpdate(pcs: seq<Pc>, t: Tid, pc: Pc, p: Pc -> bool)
    requires t < |pcs|
    ensures Count(pcs[t := pc], p) == Count(pcs, p) - Is1(p(pcs[t])) + Is1(p(pc))
    ensures Is1(p(pcs[t])) <= Count(pcs, p)
  {
    if t > 0 {
      assert pcs[t := pc][1..] == pcs[1..][t - 1 := pc];
      CountUpdate(pcs[1..], t - 1, pc, p);
    }
  }

  lemma {:induction false} CountMonotone(pcs: seq<Pc>, p: Pc -> bool, q: Pc -> bool)
    requires forall pc :: p(pc) ==> q(pc)
    ensures Count(pcs, p) <= Count(pcs, q)
  {
    if pcs != [] {
      CountMonotone(pcs[1..], p, q);
    }
  }

  lemma {:induction false} CountZero(pcs: seq<Pc>, p: Pc -> bool)
    ensures Count(pcs, p) == 0 <==> forall t :: 0 <= t < |pcs| ==> !p(pcs[t])
  {
    if pcs != [] {
      CountZero(pcs[1..], p);
      assert forall t :: 1 <= t < |pcs| ==> pcs[t] == pcs[1..][t - 1];
    }
  }

  // ---- Invariants for any number of posters and fetchers

  ghost predicate Inv(s: State) {
    TokensOk(s) && FifoOk(s) && PostersOk(s)
  }

  ghost predicate TokensOk(s: State) {
    && s.mutex + Count(s.pcs, HoldsMutex) == 1
    && s.waitSend == Count(s.pcs, Counted)
    && s.notEmpty <= 1 && s.notFull <= 1
  }

  ghost predicate FifoOk(s: State) {
    && InOrder(s)
    && (forall t :: 0 <= t < |s.pcs| && Fetching(s.pcs[t]) ==> t in s.fetchers)
  }

  /** A poster that waits for room can rely on the fetcher, on a token, or on a thread that
      is about to put a message in or to leave a token. */
  ghost predicate PostersOk(s: State) {
    Count(s.pcs, Blocked) > 0 ==> s.queue != [] || s.notFull == 1 || Count(s.pcs, Coming) > 0
  }

  /** What a step does to the mutex and to wait_send. */
  lemma ActTokens(s: State, t: Tid, pc: Pc, a: Action)
    requires Act(s, t, pc, a).Some? && s.notEmpty <= 1 && s.notFull <= 1
    requires s.mutex <= 1 && (HoldsMutex(pc) ==> s.mutex == 0) && (Counted(pc) ==> s.waitSend > 0)
    ensures var (s', pc') := Act(s, t, pc, a).value;
      && s'.mutex + Is1(HoldsMutex(pc')) == s.mutex + Is1(HoldsMutex(pc))
      && s'.waitSend + Is1(Counted(pc)) == s.waitSend + Is1(Counted(pc'))
      && s'.notEmpty <= 1 && s'.notFull <= 1
  {
  }

  lemma TokensStep(s: State, t: Tid, a: Action, s': State)
    requires TokensOk(s) && Next(s, t, a, s')
    ensures TokensOk(s')
  {
    CountUpdate(s.pcs, t, s'.pcs[t], HoldsMutex);
    CountUpdate(s.pcs, t, s'.pcs[t], Counted);
    ActTokens(s, t, s.pcs[t], a);
  }

  predicate InOrder(s: State) {
    |s.queue| < SIZE && s.fetched + s.queue == s.posted
  }

  lemma ActInOrder(s: State, t: Tid, pc: Pc, a: Action)
    requires InOrder(s) && Act(s, t, pc, a).Some?
    ensures InOrder(Act(s, t, pc, a).value.0)
  {
    if pc.PostHold? && !Full(s.queue) {
      assert s.fetched + (s.queue + [pc.m]) == (s.fetched + s.queue) + [pc.m];
    }
    if pc.FetchHold? && s.queue != [] {
      assert s.queue == [s.queue[0]] + s.queue[1..];
      assert (s.fetched + [s.queue[0]]) + s.queue[1..] == s.fetched + ([s.queue[0]] + s.queue[1..]);
    }
  }

  lemma PostersStep(s: State, t: Tid, a: Action, s': State)
    requires TokensOk(s) && PostersOk(s) && Next(s, t, a, s')
    ensures PostersOk(s')
  {
    CountUpdate(s.pcs, t, s'.pcs[t], Blocked);
    CountUpdate(s.pcs, t, s'.pcs[t], Coming);
    CountMonotone(s.pcs, Blocked, Counted);
  }

  lemma FifoStep(s: State, t: Tid, a: Action, s': State)
    requires FifoOk(s) && Next(s, t, a, s')
    ensures FifoOk(s')
  {
    ActInOrder(s, t, s.pcs[t], a);
  }

  lemma InvStep(s: State, t: Tid, a: Action, s': State)
    requires Inv(s) && Next(s, t, a, s')
    ensures Inv(s')
  {
    TokensStep(s, t, a, s');
    FifoStep(s, t, a, s');
    PostersStep(s, t, a, s');
  }

  // ---- And with a single fetcher

  /** While fetcher `f` is on its way to waiting or waits, a message in the ring means a
      token for it, or a poster that is about to leave one. */
  ghost predicate WakesFetcher(s: State, f: Tid) {
    f < |s.pcs| ==>
      && (s.pcs[f].FetchRelease? ==> s.queue == [])
      && (s.pcs[f].FetchWait? && s.queue != [] ==> s.notEmpty == 1 || Count(s.pcs, pc => pc == PostSignal) > 0)
  }

  lemma OneHolder(s: State, t: Tid, u: Tid)
    requires Inv(s) && t < |s.pcs| && u < |s.pcs| && HoldsMutex(s.pcs[t]) && HoldsMutex(s.pcs[u])
    ensures t == u
  {
    if t != u {
      CountUpdate(s.pcs, t, Idle, HoldsMutex);
      CountUpdate(s.pcs[t := Idle], u, Idle, HoldsMutex);
    }
  }

  lemma WakesStep(s: State, t: Tid, a: Action, s': State, f: Tid)
    requires Inv(s) && s.fetchers == {f} && WakesFetcher(s, f) && Next(s, t, a, s')
    ensures s'.fetchers == {f} && WakesFetcher(s', f)
  {
    if f < |s.pcs| {
      CountUpdate(s.pcs, t, s'.pcs[t], pc => pc == PostSignal);
      if t != f {
        if HoldsMutex(s.pcs[t]) && HoldsMutex(s.pcs[f]) { OneHolder(s, t, f); }
        assert !Fetching(s.pcs[t]);
      }
    }
  }

  lemma InitInv(s: State, f: Tid)
    requires Init(s)
    ensures Inv(s) && WakesFetcher(s, f)
  {
    CountZero(s.pcs, HoldsMutex);
    CountZero(s.pcs, Counted);
    CountZero(s.pcs, Blocked);
  }

  lemma {:induction false} ReachableInv(schedule: seq<(Tid, Action)>, s: State)
    requires Reaches(schedule, s)
    ensures Inv(s)
    decreases |schedule|
  {
    if schedule == [] {
      InitInv(s, 0);
    } else {
      var init, last := schedule[..|schedule| - 1], schedule[|schedule| - 1];
      var p :| LastStep(schedule, p, s);
      ReachableInv(init, p);
      InvStep(p, last.0, last.1, s);
    }
  }

  lemma {:induction false} ReachableWakes(schedule: seq<(Tid, Action)>, s: State, f: Tid)
    requires Reaches(schedule, s) && s.fetchers == {f}
    ensures WakesFetcher(s, f)
    decreases |schedule|
  {
    if schedule == [] {
      InitInv(s, f);
    } else {
      var init, last := schedule[..|schedule| - 1], schedule[|schedule| - 1];
      var p :| LastStep(schedule, p, s);
      ReachableInv(init, p);
      ReachableWakes(init, p, f);
      WakesStep(p, last.0, last.1, s, f);
    }
  }

  // ---- The promises

  /** The mailbox is a bounded FIFO whoever posts and fetches: what came out is a prefix of
      what went in, the rest is in the ring, and one slot stays free. */
  lemma BoundedFifo(schedule: seq<(Tid, Action)>, s: State)
    requires Reaches(schedule, s)
    ensures s.fetched + s.queue == s.posted && |s.queue| <= SIZE - 1
  {
    ReachableInv(schedule, s);
  }

  /** The mutex token and its holders are always one in all, so a signal of the mutex is
      never swallowed by the saturation of its semaphore. */
  lemma MutexIsNeverLost(schedule: seq<(Tid, Action)>, s: State, t: Tid)
    requires Reaches(schedule, s) && t < |s.pcs|
    ensures s.mutex + Count(s.pcs, HoldsMutex) == 1
    ensures HoldsMutex(s.pcs[t]) ==> s.mutex == 0
    ensures forall u :: 0 <= u < |s.pcs| && HoldsMutex(s.pcs[t]) && HoldsMutex(s.pcs[u]) ==> t == u
  {
    ReachableInv(schedule, s);
    CountUpdate(s.pcs, t, s.pcs[t], HoldsMutex);
    forall u | 0 <= u < |s.pcs| && HoldsMutex(s.pcs[t]) && HoldsMutex(s.pcs[u]) ensures t == u {
      OneHolder(s, t, u);
    }
  }

  /** With the mutex free and one fetcher: if it sleeps, the mailbox is empty; if a poster
      sleeps and none has been woken, it is not. The two sides never sleep on each other. */
  lemma NeverBothStuck(schedule: seq<(Tid, Action)>, s: State, f: Tid, p: Tid)
    requires Reaches(schedule, s) && s.fetchers == {f} && f < |s.pcs| && p < |s.pcs|
    requires s.mutex == 1
    ensures s.pcs[f].FetchWait? && s.notEmpty == 0 ==> s.queue == []
    ensures s.pcs[p].PostWait? && s.notFull == 0 &&
            (forall u :: 0 <= u < |s.pcs| ==> !(s.pcs[u].PostLock? && s.pcs[u].counted))
            ==> s.queue != []
  {
    ReachableInv(schedule, s);
    ReachableWakes(schedule, s, f);
    CountZero(s.pcs, HoldsMutex);
    CountZero(s.pcs, Blocked);
    CountZero(s.pcs, Coming);
    CountZero(s.pcs, pc => pc == PostSignal);
  }

  /** Nobody can take a step without starting a new call or running into a timeout. */
  ghost predicate Stuck(s: State) {
    forall t :: 0 <= t < |s.pcs| && s.pcs[t] != Idle ==> Act(s, t, s.pcs[t], Go).None?
  }

  /** What each position that cannot move is missing. */
  predicate StuckAt(s: State, pc: Pc) {
    match pc
    case Idle => true
    case PostLock(_, _, _) => s.mutex == 0
    case FetchLock(_) => s.mutex == 0
    case PostWait(_) => s.notFull == 0
    case FetchWait(_) => s.notEmpty == 0
    case _ => false
  }

  /** No deadlock with one fetcher. When nothing moves, every thread is between calls,
      except that either the fetcher waits for mail and there is none, or posters wait for
      room that only the fetcher, which is not fetching then, can make. */
  lemma NoDeadlock(schedule: seq<(Tid, Action)>, s: State, f: Tid)
    requires Reaches(schedule, s) && s.fetchers == {f} && f < |s.pcs| && Stuck(s)
    ensures s.mutex == 1
    ensures forall t :: 0 <= t < |s.pcs| ==>
      || s.pcs[t] == Idle
      || (t == f && s.pcs[t].FetchWait? && s.queue == [])
      || (s.pcs[t].PostWait? && s.queue != [])
  {
    ReachableInv(schedule, s);
    ReachableWakes(schedule, s, f);
    forall t | 0 <= t < |s.pcs| ensures StuckAt(s, s.pcs[t]) {
    }
    CountZero(s.pcs, HoldsMutex);
    StuckLeft(s, f);
  }

  lemma StuckLeft(s: State, f: Tid)
    requires Inv(s) && s.mutex == 1 && s.fetchers == {f} && f < |s.pcs| && WakesFetcher(s, f)
    requires forall t :: 0 <= t < |s.pcs| ==> StuckAt(s, s.pcs[t])
    ensures forall t :: 0 <= t < |s.pcs| ==>
      || s.pcs[t] == Idle
      || (t == f && s.pcs[t].FetchWait? && s.queue == [])
      || (s.pcs[t].PostWait? && s.queue != [])
  {
    CountZero(s.pcs, Blocked);
    CountZero(s.pcs, Coming);
    CountZero(s.pcs, pc => pc == PostSignal);
    forall t | 0 <= t < |s.pcs|
      ensures s.pcs[t] == Idle || (t == f && s.pcs[t].FetchWait? && s.queue == [])
              || (s.pcs[t].PostWait? && s.queue != [])
    {
      assert StuckAt(s, s.pcs[t]);
    }
  }

  // ---- What a single post or fetch comes to

  predicate Posting(pc: Pc) {
    pc.PostLock? || pc.PostHold? || pc.PostRelease? || pc.PostWait?
  }

  /** A post that may give up. */
  predicate MayGiveUp(pc: Pc) {
    (pc.PostLock? || pc.PostHold?) && pc.tryOnly
  }

  /** It looks for room, and either puts its message in, or is refused if it may be, or goes on. */
  lemma PostStep(s: State, t: Tid, a: Action, s': State)
    requires Next(s, t, a, s') && Posting(s.pcs[t])
    ensures var pc, pc' := s.pcs[t], s'.pcs[t];
      if pc.PostHold? && !Full(s.queue) then
        s'.posted == s.posted + [pc.m] && s'.queue == s.queue + [pc.m] && (pc'.PostSignal? || pc'.PostUnlock?)
      else
        && s'.posted == s.posted && s'.queue == s.queue
        && if pc.PostHold? && pc.tryOnly then pc'.PostUnlock?
           else Posting(pc') && pc'.m == pc.m && (MayGiveUp(pc') <==> MayGiveUp(pc))
  {
  }

  predicate Fetches(pc: Pc) {
    pc.FetchLock? || pc.FetchHold? || pc.FetchRelease? || pc.FetchWait?
  }

  /** A fetch looks for a message, and either takes the oldest, or leaves with none if it only
      tries, or goes on until its time is up. */
  lemma FetchStep(s: State, t: Tid, a: Action, s': State)
    requires Next(s, t, a, s') && Fetches(s.pcs[t])
    ensures var pc, pc' := s.pcs[t], s'.pcs[t];
      if pc.FetchHold? && s.queue != [] then
        s'.fetched == s.fetched + [s.queue[0]] && s.queue == [s.queue[0]] + s'.queue
        && (pc'.FetchSignal? || pc'.FetchUnlock?)
      else
        && s'.fetched == s.fetched && s'.queue == s.queue
        && if pc.FetchHold? && pc.kind.Try? then pc'.FetchUnlock?
           else if pc.FetchWait? && pc.kind.Timed? && a == Expire then pc'.Idle?
           else Fetches(pc') && pc'.kind == pc.kind
  {
    if s.queue != [] { assert s.queue == [s.queue[0]] + s.queue[1..]; }
  }

  predicate StepOf(steps: seq<(Tid, Action)>, states: seq<State>, k: nat) {
    k < |steps| && k + 1 < |states| && Next(states[k], steps[k].0, steps[k].1, states[k + 1])
  }

  /** Some steps of the machine, from wherever it is. */
  ghost predicate IsRun(steps: seq<(Tid, Action)>, states: seq<State>) {
    |states| == |steps| + 1 && forall k: nat :: k < |steps| ==> StepOf(steps, states, k)
  }

  /** Some steps that leave thread `t` in a call from state `p` up to state `n`. */
  ghost predicate InCall(states: seq<State>, t: Tid, p: nat, n: nat) {
    && p < n < |states| && (forall k :: p <= k <= n ==> t < |states[k].pcs|) && states[n].pcs[t] == Idle
    && forall k :: p <= k < n ==> states[k].pcs[t] != Idle
  }

  /** The step of `t` that puts its message in, or finds the mailbox full and gives up. */
  predicate PostsAt(states: seq<State>, steps: seq<(Tid, Action)>, t: Tid, j: nat, m: Msg, tryOnly: bool) {
    && j < |steps| && j + 1 < |states| && steps[j].0 == t
    && t < |states[j].pcs| && states[j].pcs[t] == PostHold(m, tryOnly)
    && if Full(states[j].queue) then tryOnly && states[j + 1].posted == states[j].posted
       else states[j + 1].posted == states[j].posted + [m]
  }

  /** `t` posts nothing in any of its other steps. */
  ghost predicate PostsNothing(states: seq<State>, steps: seq<(Tid, Action)>, t: Tid, p: nat, n: nat, j: nat)
    requires n <= |steps| < |states|
  {
    forall i :: p <= i < n && i != j && steps[i].0 == t ==> states[i + 1].posted == states[i].posted
  }

  lemma OthersPosts(s: State, u: Tid, a: Action, s': State, t: Tid)
    requires Next(s, u, a, s') && t < |s.pcs| && u != t
    ensures t < |s'.pcs| && s'.pcs[t] == s.pcs[t]
  {
  }

  lemma EndStep(s: State, t: Tid, a: Action, s': State)
    requires Next(s, t, a, s') && (s.pcs[t].PostSignal? || s.pcs[t].PostUnlock?)
    ensures s'.posted == s.posted && (s'.pcs[t].PostUnlock? || s'.pcs[t].Idle?)
  {
  }

  lemma {:induction false} PostEnds(steps: seq<(Tid, Action)>, states: seq<State>, t: Tid, p: nat, n: nat, j: nat)
    requires IsRun(steps, states) && InCall(states, t, p, n) && j < p
    requires states[p].pcs[t].PostSignal? || states[p].pcs[t].PostUnlock?
    ensures PostsNothing(states, steps, t, p, n, j)
    decreases n - p
  {
    var step := steps[p];
    assert StepOf(steps, states, p);
    if step.0 == t { EndStep(states[p], t, step.1, states[p + 1]); }
    else { OthersPosts(states[p], step.0, step.1, states[p + 1], t); }
    if p + 1 < n { PostEnds(steps, states, t, p + 1, n, j); }
  }

  /** A call of sys_mbox_post or sys_mbox_trypost that is over has put its message into the
      mailbox, or, if it only tries, has found it full; this it has done in one step, and its
      other steps post nothing. */
  lemma {:induction false} PostIsOver(steps: seq<(Tid, Action)>, states: seq<State>, t: Tid, p: nat, n: nat)
    returns (j: nat)
    requires IsRun(steps, states) && InCall(states, t, p, n) && Posting(states[p].pcs[t])
    ensures p <= j < n && PostsAt(states, steps, t, j, states[p].pcs[t].m, MayGiveUp(states[p].pcs[t]))
    ensures PostsNothing(states, steps, t, p, n, j)
    decreases n - p
  {
    var step := steps[p];
    assert StepOf(steps, states, p);
    j := p;
    if step.0 != t {
      OthersPosts(states[p], step.0, step.1, states[p + 1], t);
      j := PostIsOver(steps, states, t, p + 1, n);
    } else {
      PostStep(states[p], t, step.1, states[p + 1]);
      if Posting(states[p + 1].pcs[t]) {
        j := PostIsOver(steps, states, t, p + 1, n);
      } else if p + 1 < n {
        PostEnds(steps, states, t, p + 1, n, p);
      }
    }
  }

  // ---- Why one fetcher: a run with two in which mail arrives and a fetcher sleeps on

  lemma Extend(schedule: seq<(Tid, Action)>, p: State, t: Tid, a: Action, s: State) returns (longer: seq<(Tid, Action)>)
    requires Reaches(schedule, p) && Next(p, t, a, s)
    ensures Reaches(longer, s)
  {
    longer := schedule + [(t, a)];
    assert longer[..|longer| - 1] == schedule;
    var last := longer[|longer| - 1];
    assert LastStep(longer, p, s);
  }

  /** `s` with thread `t` at `pc`. */
  function At(s: State, t: Tid, pc: Pc): State
    requires t < |s.pcs|
  {
    s.(pcs := s.pcs[t := pc])
  }

  lemma Moves(schedule: seq<(Tid, Action)>, s: State, t: Tid, pc: Pc, a: Action) returns (longer: seq<(Tid, Action)>)
    requires t < |s.pcs| && Reaches(schedule, At(s, t, pc)) && Act(s, t, pc, a).Some?
    ensures var r := Act(s, t, pc, a).value; Reaches(longer, At(r.0, t, r.1))
  {
    var r := Act(s, t, pc, a).value;
    assert s.pcs[t := pc][t := r.1] == s.pcs[t := r.1];
    longer := Extend(schedule, At(s, t, pc), t, a, At(r.0, t, r.1));
  }

  lemma FallsAsleep(schedule: seq<(Tid, Action)>, s: State, t: Tid) returns (longer: seq<(Tid, Action)>)
    requires t < |s.pcs| && Reaches(schedule, At(s, t, Idle)) && t in s.fetchers && s.mutex == 1 && s.queue == []
    ensures Reaches(longer, At(s, t, FetchWait(Forever)))
  {
    longer := Moves(schedule, s, t, Idle, Receive(Forever));
    longer := Moves(longer, s, t, FetchLock(Forever), Go);
    longer := Moves(longer, s.(mutex := 0), t, FetchHold(Forever), Go);
    longer := Moves(longer, s.(mutex := 0), t, FetchRelease(Forever), Go);
    assert s.(mutex := 0).(mutex := 1) == s;
  }

  lemma PutsIn(schedule: seq<(Tid, Action)>, s: State, t: Tid, m: Msg) returns (longer: seq<(Tid, Action)>)
    requires t < |s.pcs| && Reaches(schedule, At(s, t, Idle)) && s.mutex == 1 && !Full(s.queue)
    ensures Reaches(longer, At(s.(queue := s.queue + [m], posted := s.posted + [m],
                                  notEmpty := if s.queue == [] then 1 else s.notEmpty), t, Idle))
  {
    longer := Moves(schedule, s, t, Idle, Post(m, false));
    longer := Moves(longer, s, t, PostLock(m, false, false), Go);
    longer := Moves(longer, s.(mutex := 0), t, PostHold(m, false), Go);
    var after := s.(mutex := 0, queue := s.queue + [m], posted := s.posted + [m]);
    if s.queue == [] {
      longer := Moves(longer, after, t, PostSignal, Go);
      longer := Moves(longer, after.(notEmpty := 1), t, PostUnlock, Go);
    } else {
      longer := Moves(longer, after, t, PostUnlock, Go);
    }
  }

  lemma WakesAndTakes(schedule: seq<(Tid, Action)>, s: State, t: Tid) returns (longer: seq<(Tid, Action)>)
    requires t < |s.pcs| && Reaches(schedule, At(s, t, FetchWait(Forever))) && s.mutex == 1 && s.notEmpty == 1
    requires s.queue != [] && s.waitSend == 0
    ensures Reaches(longer, At(s.(queue := s.queue[1..], fetched := s.fetched + [s.queue[0]], notEmpty := 0), t, Idle))
  {
    longer := Moves(schedule, s, t, FetchWait(Forever), Go);
    longer := Moves(longer, s.(notEmpty := 0), t, FetchLock(Forever), Go);
    longer := Moves(longer, s.(notEmpty := 0, mutex := 0), t, FetchHold(Forever), Go);
    longer := Moves(longer, s.(notEmpty := 0, mutex := 0, queue := s.queue[1..], fetched := s.fetched + [s.queue[0]]),
                    t, FetchUnlock, Go);
  }

  function Scene(notEmpty: nat, queue: seq<Msg>, first: Pc, second: Pc, posted: seq<Msg>, fetched: seq<Msg>): State {
    State(1, notEmpty, 0, 0, queue, [first, second, Idle], {0, 1}, posted, fetched)
  }

  const SLEEPING := FetchWait(Forever)

  lemma BothAsleep() returns (run: seq<(Tid, Action)>)
    ensures Reaches(run, Scene(0, [], SLEEPING, SLEEPING, [], []))
  {
    var none := Scene(0, [], Idle, Idle, [], []);
    assert Reaches([], none) && At(none, 0, Idle) == none;
    run := FallsAsleep([], none, 0);
    var one := Scene(0, [], SLEEPING, Idle, [], []);
    assert At(none, 0, SLEEPING) == one == At(one, 1, Idle);
    run := FallsAsleep(run, one, 1);
    assert At(one, 1, SLEEPING) == Scene(0, [], SLEEPING, SLEEPING, [], []);
  }

  lemma MailArrives(sofar: seq<(Tid, Action)>) returns (run: seq<(Tid, Action)>)
    requires Reaches(sofar, Scene(0, [], SLEEPING, SLEEPING, [], []))
    ensures Reaches(run, Scene(1, [1, 2], SLEEPING, SLEEPING, [1, 2], []))
  {
    var none := Scene(0, [], SLEEPING, SLEEPING, [], []);
    assert At(none, 2, Idle) == none;
    run := PutsIn(sofar, none, 2, 1);
    var one := Scene(1, [1], SLEEPING, SLEEPING, [1], []);
    assert [] + [1] == [1];
    assert At(none.(queue := [] + [1], posted := [] + [1], notEmpty := 1), 2, Idle) == one == At(one, 2, Idle);
    run := PutsIn(run, one, 2, 2);
    assert [1] + [2] == [1, 2];
    assert At(one.(queue := [1] + [2], posted := [1] + [2]), 2, Idle)
           == Scene(1, [1, 2], SLEEPING, SLEEPING, [1, 2], []);
  }

  /** Fetchers 0 and 1 sleep; thread 2 posts twice, and only the first post signals; fetcher
      0 takes the first message. Fetcher 1 sleeps on without a token, the mutex is free,
      everybody else is done, and a message is waiting. */
  lemma TwoFetchersCanStrandAMessage()
    ensures exists schedule, s: State :: Reaches(schedule, s) && s.fetchers == {0, 1} && Stuck(s)
              && |s.pcs| == 3 && s.pcs[1].FetchWait? && s.queue == [2]
  {
    var run := BothAsleep();
    run := MailArrives(run);
    var mails := Scene(1, [1, 2], SLEEPING, SLEEPING, [1, 2], []);
    assert At(mails, 0, SLEEPING) == mails;
    run := WakesAndTakes(run, mails, 0);
    var last := Scene(0, [2], Idle, SLEEPING, [1, 2], [1]);
    assert [1, 2][1..] == [2] && [] + [1] == [1];
    assert At(mails.(queue := [1, 2][1..], fetched := [] + [1], notEmpty := 0), 0, Idle) == last;
    assert Reaches(run, last) && Stuck(last);
  }
}
