/** sys_arch_protect and sys_arch_unprotect of lwip_client/ta/sys_arch.c. */
module LightweightProt {
  import opened Common

  // A recursive lock made of a plain mutex, an owner that is compared before the mutex is taken, and
  // a count. Threads nest sections as they like; each access to shared state is a step.

  datatype Pc =
    | Resting
    | Locking    // the owner was somebody else: waits for lwprot_mutex
    | Owning     // has the mutex, has not written the owner yet
    | Nesting    // the owner was itself: about to count up
    | Releasing  // the owner was itself: about to count down
    | Clearing   // counted down to 0: about to clear the owner
    | Unlocking  // cleared the owner: about to unlock

  /** `depth` is the thread's own view: sections entered minus sections left. */
  datatype Thread = Thread(pc: Pc, depth: nat)

  /** `holder` is the state of lwprot_mutex; `owner` and `count` are the two variables. */
  datatype State = State(holder: Option<Tid>, owner: Option<Tid>, count: int, threads: seq<Thread>)

  datatype Call = Protect | Unprotect

  function Step(s: State, t: Tid, th: Thread, call: Call): Option<(State, Thread)> {
    match th.pc
    case Resting =>
      if call == Protect then Some((s, th.(pc := if s.owner == Some(t) then Nesting else Locking)))
      else if s.owner == Some(t) then Some((s, th.(pc := Releasing)))
      else Some((s, th))
    case Locking => if s.holder.None? then Some((s.(holder := Some(t)), th.(pc := Owning))) else None
    case Owning => Some((s.(owner := Some(t), count := 1), Thread(Resting, th.depth + 1)))
    case Nesting => Some((s.(count := s.count + 1), Thread(Resting, th.depth + 1)))
    case Releasing =>
      var after := if th.depth > 0 then th.depth - 1 else 0;
      Some((s.(count := s.count - 1), Thread(if s.count - 1 == 0 then Clearing else Resting, after)))
    case Clearing => Some((s.(owner := None), th.(pc := Unlocking)))
    case Unlocking => Some((s.(holder := None), th.(pc := Resting)))
  }

  predicate Next(s: State, t: Tid, call: Call, s': State) {
    && t < |s.threads|
    && var r := Step(s, t, s.threads[t], call);
    && r.Some? && s' == r.value.0.(threads := s.threads[t := r.value.1])
  }

  predicate Init(s: State) {
    s.holder.None? && s.owner.None? && forall t :: 0 <= t < |s.threads| ==> s.threads[t] == Thread(Resting, 0)
  }

  ghost predicate Reaches(schedule: seq<(Tid, Call)>, s: State)
    decreases |schedule|, 1
  {
    if schedule == [] then Init(s) else exists p :: LastStep(schedule, p, s)
  }

  /** The last step of `schedule` leads to `s` from `p`, which the others reach. */
  ghost predicate LastStep(schedule: seq<(Tid, Call)>, p: State, s: State)
    requires schedule != []
    decreases |schedule|, 0
  {
    var last := schedule[|schedule| - 1];
    Reaches(schedule[..|schedule| - 1], p) && Next(p, last.0, last.1, s)
  }

  predicate HasMutex(th: Thread) {
    th.depth > 0 || th.pc.Owning? || th.pc.Clearing? || th.pc.Unlocking?
  }

  predicate IsOwner(th: Thread) {
    th.depth > 0 || th.pc.Clearing?
  }

  /** What a thread's own position says about the shared variables. */
  predicate Agrees(s: State, t: Tid, th: Thread) {
    && (HasMutex(th) <==> s.holder == Some(t))
    && (IsOwner(th) <==> s.owner == Some(t))
    && (th.depth > 0 ==> s.count == th.depth && (th.pc.Resting? || th.pc.Nesting? || th.pc.Releasing?))
    && (th.pc.Nesting? || th.pc.Releasing? ==> th.depth > 0)
  }

  ghost predicate Inv(s: State) {
    && (s.holder.Some? ==> s.holder.value < |s.threads|)
    && forall t :: 0 <= t < |s.threads| ==> Agrees(s, t, s.threads[t])
  }

  lemma OwnStep(s: State, t: Tid, th: Thread, call: Call)
    requires Agrees(s, t, th) && Step(s, t, th, call).Some?
    ensures var r := Step(s, t, th, call).value; Agrees(r.0, t, r.1)
  {
  }

  lemma InvStep(s: State, t: Tid, call: Call, s': State)
    requires Inv(s) && Next(s, t, call, s')
    ensures Inv(s')
  {
    OwnStep(s, t, s.threads[t], call);
    forall u | 0 <= u < |s'.threads| ensures Agrees(s', u, s'.threads[u]) {
    }
  }

  lemma {:induction false} ReachableInv(schedule: seq<(Tid, Call)>, s: State)
    requires Reaches(schedule, s)
    ensures Inv(s)
    decreases |schedule|
  {
    if schedule != [] {
      var init, last := schedule[..|schedule| - 1], schedule[|schedule| - 1];
      var p :| LastStep(schedule, p, s);
      ReachableInv(init, p);
      InvStep(p, last.0, last.1, s);
    }
  }

  /** Mutual exclusion with nesting, although the owner is read without the mutex: at most
      one thread is inside a section, and the count is the depth of its nesting. */
  lemma MutualExclusion(schedule: seq<(Tid, Call)>, s: State, t: Tid, u: Tid)
    requires Reaches(schedule, s) && t < |s.threads| && u < |s.threads|
    requires s.threads[t].depth > 0
    ensures s.threads[u].depth > 0 ==> t == u
    ensures s.count == s.threads[t].depth
  {
    ReachableInv(schedule, s);
    assert Agrees(s, t, s.threads[t]) && Agrees(s, u, s.threads[u]);
  }

  /** A section can be re-entered without blocking; who blocks, blocks on a thread that is
      entering, inside or leaving a section; and leaving the outermost section is what
      gives the lock away. */
  lemma Recursive(schedule: seq<(Tid, Call)>, s: State, t: Tid, call: Call)
    requires Reaches(schedule, s) && t < |s.threads|
    ensures s.threads[t].depth > 0 ==> Step(s, t, s.threads[t], call).Some?
    ensures Step(s, t, s.threads[t], call).None? ==>
      exists u :: 0 <= u < |s.threads| && u != t && HasMutex(s.threads[u])
    ensures s.threads[t].pc.Resting? ==>
      Step(s, t, s.threads[t], call).value.1.pc ==
        if s.threads[t].depth == 0 then (if call == Protect then Locking else Resting)
        else if call == Protect then Nesting else Releasing
    ensures s.threads[t].pc.Releasing?
        ==> (Step(s, t, s.threads[t], call).value.1.pc.Clearing? <==> s.threads[t].depth == 1)
  {
    ReachableInv(schedule, s);
    assert Agrees(s, t, s.threads[t]);
    if s.holder.Some? {
      assert Agrees(s, s.holder.value, s.threads[s.holder.value]);
    }
  }

  /** The lock as its functions change it, for a caller that does not have to wait. */
  class Lock {
    var holder: Option<Tid>
    var owner: Option<Tid>
    var count: int

    ghost predicate Valid()
      reads this
    {
      holder == owner && (owner.Some? ==> count > 0)
    }

    constructor ()
      ensures Valid() && owner.None?
    {
      holder, owner, count := None, None, 0;
    }

    /** sys_arch_protect. */
    method Protect(self: Tid)
      requires Valid() && (owner == Some(self) || holder.None?)
      modifies this
      ensures Valid() && owner == Some(self) && count == if old(owner) == Some(self) then old(count) + 1 else 1
    {
      if owner != Some(self) {
        holder := Some(self);
        owner := Some(self);
        count := 1;
      } else {
        count := count + 1;
      }
    }

    /** sys_arch_unprotect; without the lock it does nothing. */
    method Unprotect(self: Tid)
      requires Valid()
      modifies this
      ensures Valid()
      ensures old(owner) != Some(self) ==> owner == old(owner) && count == old(count)
      ensures old(owner) == Some(self)
          ==> count == old(count) - 1 && owner == if old(count) == 1 then None else Some(self)
    {
      if owner == Some(self) {
        count := count - 1;
        if count == 0 {
          owner := None;
          holder := None;
        }
      }
    }

    /** Nested sections, however deep, keep the lock until the outermost one is left. */
    method Nest(self: Tid, depth: nat)
      requires Valid() && (owner == Some(self) || holder.None?)
      modifies this
      ensures Valid() && owner == old(owner) && (owner.Some? ==> count == old(count))
      decreases depth
    {
      Protect(self);
      if depth > 0 {
        Nest(self, depth - 1);
      }
      Unprotect(self);
    }
  }
}
