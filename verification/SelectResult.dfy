/** What a select call returns, in every run: which scan its sets come from, what that scan
    saw, and why a call fails. */
module SelectResult {
  import opened Common
  import opened SocketTable
  import opened SocketThreads
  import opened SelectCall
  import opened SelectLog
  import SelectOps

  // ---- What a call returns

  /** The step leaves lwip_select. */
  predicate Returns(states: seq<State>, t: Tid, n: nat)
    requires Runs(states, t) && n + 1 < |states|
  {
    InSelect(At(states, t, n)) && !InSelect(At(states, t, n + 1))
  }

  lemma ReturnsFromRelease(run: seq<Scheduled>, states: seq<State>, t: Tid, n: nat)
    requires IsRun(run, states) && Runs(states, t) && n + 1 < |states| && Returns(states, t, n)
    ensures At(states, t, n).SelRelease?
  {
    OwnSelectMove(run, states, t, n);
    OnlyReleaseLeaves(states[n], states[n].threads[t], run[n].action);
  }

  /** In every run: a select call that returns -1 has met a reason to give up, and one that
      returns anything else returns what a scan of its own saw, descriptor by descriptor, none
      of which was being closed then. Without a timeout that is a scan made after the call has
      left the list, so 0 only means that such a scan saw nothing ready. */
  lemma ResultIsJustified(run: seq<Scheduled>, states: seq<State>, t: Tid, n: nat) returns (log: Log)
    requires IsRun(run, states) && Runs(states, t) && n + 1 < |states| && Returns(states, t, n)
    ensures At(states, t, n).SelRelease?
    ensures var pc := At(states, t, n);
      && Justified(states, t, 0, n, pc.sel, pc.ret, pc.found, log)
      && (pc.ret == 0 && pc.sel.timeout == Forever ==> log.phase == After)
  {
    ReturnsFromRelease(run, states, t, n);
    log := Knowing(run, states, t, 0, n);
  }

  /** A sleeping call takes its token, or a call about to sleep finds something after all. */
  predicate WakesUp(states: seq<State>, t: Tid, p: nat)
    requires Runs(states, t) && p + 1 < |states|
  {
    var pc := At(states, t, p);
    || (pc.SelWait? && states[p].threads[t].token && !states[p + 1].threads[t].token)
    || (pc.SelScan? && pc.phase == Rescan && pc.k >= pc.sel.max && pc.found.nready > 0 && At(states, t, p + 1) != pc)
  }

  lemma WokenUp(run: seq<Scheduled>, states: seq<State>, t: Tid, p: nat)
    requires IsRun(run, states) && Runs(states, t) && p + 1 < |states| && WakesUp(states, t, p)
    ensures var c := At(states, t, p).sel; At(states, t, p + 1) == SelUncount(c, 0, c.max, Proceed)
  {
    if At(states, t, p).SelWait? {
      assert StepOf(run, states, p);
      TokenTaken(states[p], run[p].thread, run[p].action, states[p + 1], t);
    } else {
      OwnSelectMove(run, states, t, p);
      FoundAfterAll(states[p], states[p].threads[t], run[p].action);
    }
  }

  ghost predicate StaysIn(states: seq<State>, t: Tid, p: nat, n: nat)
    requires Runs(states, t) && n < |states|
  {
    forall q :: p <= q <= n ==> InSelect(At(states, t, q))
  }

  lemma {:induction false} StaysLast(run: seq<Scheduled>, states: seq<State>, t: Tid, p: nat, n: nat)
    requires IsRun(run, states) && Runs(states, t) && p <= n < |states| && StaysIn(states, t, p, n)
    requires LastScan(At(states, t, p))
    ensures LastScan(At(states, t, n))
    decreases n
  {
    if n > p {
      StaysLast(run, states, t, p, n - 1);
      if At(states, t, n) != At(states, t, n - 1) {
        OwnSelectMove(run, states, t, n - 1);
        LastScanStep(states[n - 1], states[n - 1].threads[t], run[n - 1].action);
      }
    }
  }

  /** A call that has been woken up, or has found something after all, returns the sets of a
      scan that it makes after leaving the list; or -1, and only if that scan meets a
      descriptor that is gone or being closed. */
  lemma WokenReturnsFreshScan(run: seq<Scheduled>, states: seq<State>, t: Tid, p: nat, n: nat) returns (log: Log)
    requires IsRun(run, states) && Runs(states, t) && p < n && n + 1 < |states| && WakesUp(states, t, p)
    requires StaysIn(states, t, p, n) && Returns(states, t, n)
    ensures At(states, t, n).SelRelease?
    ensures var pc := At(states, t, n);
      if pc.ret == -1 then
        p < log.from < n && Within(states, t, log.from, n, pc.sel)
        && MeetsClosing(states[log.from], At(states, t, log.from))
      else
        log.phase == After && pc.ret == pc.found.nready
        && Saw(states, t, p + 1, n, pc.sel, pc.sel.max, pc.found, log)
  {
    ReturnsFromRelease(run, states, t, n);
    WokenUp(run, states, t, p);
    var earlier := Knowing(run, states, t, 0, p);
    log := Knowing(run, states, t, p + 1, n);
    StaysLast(run, states, t, p + 1, log.from);
  }

  /** From state `p` to state `n` nothing changes of what select looks at, and nothing the call
      asks for is gone or being closed. */
  ghost predicate Undisturbed(states: seq<State>, c: Sel, p: nat, n: nat)
    requires n < |states|
  {
    forall q, i: nat :: p <= q <= n && i < c.max && Interest(c, i) ==> Steady(states[q], states[n], i)
  }

  predicate Steady(s: State, end: State, i: nat) {
    && i < |s.slots| && i < |end.slots| && s.slots[i].pending.NotPending?
    && s.slots[i].lastdata == end.slots[i].lastdata && s.slots[i].rcvevent == end.slots[i].rcvevent
    && s.slots[i].sendevent == end.slots[i].sendevent && s.slots[i].errevent == end.slots[i].errevent
  }

  /** Undisturbed, it returns exactly the ready subsets of its sets and their size. */
  lemma WokenReturnsExactly(run: seq<Scheduled>, states: seq<State>, t: Tid, p: nat, n: nat)
    requires IsRun(run, states) && Runs(states, t) && p < n && n + 1 < |states| && WakesUp(states, t, p)
    requires StaysIn(states, t, p, n) && Returns(states, t, n) && Undisturbed(states, At(states, t, n).sel, p, n)
    ensures var pc := At(states, t, n);
      pc.SelRelease? && pc.ret == pc.found.nready
      && SelectOps.ExactlyReady(pc.sel, states[n].slots, pc.sel.max, pc.found)
  {
    var log := WokenReturnsFreshScan(run, states, t, p, n);
    var pc := At(states, t, n);
    if pc.ret == -1 {
      NothingCloses(states, t, p, n, pc.sel, log.from);
    } else {
      SeenIsThere(states, t, p, n, pc.sel, pc.found, log);
    }
  }

  lemma NothingCloses(states: seq<State>, t: Tid, p: nat, n: nat, c: Sel, w: nat)
    requires Runs(states, t) && n < |states| && Undisturbed(states, c, p, n) && p < w < n && Within(states, t, w, n, c)
    ensures !MeetsClosing(states[w], At(states, t, w))
  {
    var pc := At(states, t, w);
    assert SameCall(pc.sel, c);
    if pc.SelScan? && pc.k < pc.sel.max && Interest(pc.sel, pc.k) {
      assert Interest(c, pc.k) && pc.k < c.max;
      assert Steady(states[w], states[n], pc.k);
    }
  }

  lemma SeenIsThere(states: seq<State>, t: Tid, p: nat, n: nat, c: Sel, f: Found, log: Log)
    requires Runs(states, t) && n < |states| && Undisturbed(states, c, p, n)
    requires Saw(states, t, p + 1, n, c, c.max, f, log)
    ensures SelectOps.ExactlyReady(c, states[n].slots, c.max, f)
  {
    forall i: nat | i < c.max && i < |states[n].slots| ensures FoundThere(c, states[n].slots[i], i, f) {
      assert LookedAt(states, t, n, c, f, log, i);
      if Interest(c, i) { assert Steady(states[log.looks[i]], states[n], i); }
    }
  }

  predicate FoundThere(c: Sel, slot: Slot, i: nat, f: Found) {
    && (i in f.readset <==> i in c.readset && (slot.lastdata || slot.rcvevent > 0))
    && (i in f.writeset <==> i in c.writeset && slot.sendevent)
    && (i in f.exceptset <==> i in c.exceptset && slot.errevent)
  }

  // ---- The arguments of a call

  lemma {:induction false} StaysSame(run: seq<Scheduled>, states: seq<State>, t: Tid, p: nat, n: nat)
    requires IsRun(run, states) && Runs(states, t) && p <= n < |states| && StaysIn(states, t, p, n)
    ensures SameCall(At(states, t, p).sel, At(states, t, n).sel)
    decreases n
  {
    if n > p {
      StaysSame(run, states, t, p, n - 1);
      if At(states, t, n) != At(states, t, n - 1) {
        OwnSelectMove(run, states, t, n - 1);
        StaysTheCall(states[n - 1], states[n - 1].threads[t], run[n - 1].action);
      }
    }
  }

  /** A call that returns is the one that was made: its sets, its limit and its timeout are those
      of the last lwip_select its thread has entered. */
  lemma ReturnsWhatWasAsked(run: seq<Scheduled>, states: seq<State>, t: Tid, p: nat, n: nat)
    requires IsRun(run, states) && Runs(states, t) && p < n && n + 1 < |states| && run[p].thread == t
    requires states[p].threads[t].deleting.None? && At(states, t, p).Running? && run[p].action.Select?
    requires StaysIn(states, t, p + 1, n) && Returns(states, t, n)
    ensures var a, c := run[p].action, At(states, t, n).sel;
      && c.readset == a.readset && c.writeset == a.writeset && c.exceptset == a.exceptset
      && c.max == a.max && c.timeout == a.timeout && c.entry == states[p].threads[t].holds
  {
    assert StepOf(run, states, p);
    SelectStarts(states[p], states[p].threads[t], run[p].action);
    var m := OwnMove(states[p], t, run[p].action, states[p + 1]);
    StaysSame(run, states, t, p + 1, n);
  }

  // ---- Calls that fail or time out

  lemma {:induction false} StaysLeaving(run: seq<Scheduled>, states: seq<State>, t: Tid, p: nat, n: nat,
      outcome: Outcome)
    requires IsRun(run, states) && Runs(states, t) && p <= n < |states| && StaysIn(states, t, p, n)
    requires !outcome.Proceed? && Leaves(At(states, t, p), outcome)
    ensures Leaves(At(states, t, n), outcome)
    decreases n
  {
    if n > p {
      StaysLeaving(run, states, t, p, n - 1, outcome);
      if At(states, t, n) != At(states, t, n - 1) {
        OwnSelectMove(run, states, t, n - 1);
        LeavesStep(states[n - 1], states[n - 1].threads[t], run[n - 1].action, outcome);
      }
    }
  }

  /** A call that takes a step at a descriptor that is gone, being closed, or waited for by too
      many calls already, in any of its scans or in counting itself in, returns -1. */
  lemma MetReasonFails(run: seq<Scheduled>, states: seq<State>, t: Tid, p: nat, n: nat)
    requires IsRun(run, states) && Runs(states, t) && p < n && n + 1 < |states| && StaysIn(states, t, p, n)
    requires MeetsReason(states[p], At(states, t, p)) && At(states, t, p + 1) != At(states, t, p)
    requires Returns(states, t, n)
    ensures At(states, t, n).SelRelease? && At(states, t, n).ret == -1
  {
    ReturnsFromRelease(run, states, t, n);
    OwnSelectMove(run, states, t, p);
    GivingUp(states[p], states[p].threads[t], run[p].action);
    StaysLeaving(run, states, t, p + 1, n, Failed);
  }

  /** A sleeping call goes on without a token: its time is up. */
  predicate TimesOut(states: seq<State>, t: Tid, p: nat)
    requires Runs(states, t) && p + 1 < |states|
  {
    At(states, t, p).SelWait? && At(states, t, p + 1) != At(states, t, p) && !WakesUp(states, t, p)
  }

  lemma TimeIsUp(run: seq<Scheduled>, states: seq<State>, t: Tid, p: nat)
    requires IsRun(run, states) && Runs(states, t) && p + 1 < |states| && TimesOut(states, t, p)
    ensures var pc := At(states, t, p);
      pc.sel.timeout == Timed && Leaves(At(states, t, p + 1), TimedOut(pc.found))
  {
    assert StepOf(run, states, p);
    WaitExpires(states[p], run[p].thread, run[p].action, states[p + 1], t);
  }

  /** A call whose time is up, which only one with a timeout can be, returns 0 and no sets. */
  lemma TimedOutReturnsNothing(run: seq<Scheduled>, states: seq<State>, t: Tid, p: nat, n: nat)
    requires IsRun(run, states) && Runs(states, t) && p < n && n + 1 < |states| && StaysIn(states, t, p, n)
    requires TimesOut(states, t, p) && Returns(states, t, n)
    ensures At(states, t, p).sel.timeout == Timed && At(states, t, n).SelRelease? && At(states, t, n).ret == 0
    ensures var f := At(states, t, n).found; f.readset == {} && f.writeset == {} && f.exceptset == {}
  {
    ReturnsFromRelease(run, states, t, n);
    var found := At(states, t, p).found;
    TimeIsUp(run, states, t, p);
    StaysLeaving(run, states, t, p + 1, n, TimedOut(found));
    var log := Knowing(run, states, t, 0, p);
  }

  // ---- What a call is woken up for

  /** event_callback looks for waiters exactly if there are any and the event is an error, a
      RCVPLUS after which at most one message is counted, or a SENDPLUS on a socket that was
      not writable. */
  lemma LooksForWaiters(s: State, t: Tid, a: Action, s': State)
    requires Next(s, t, a, s') && s.threads[t].deleting.None? && s.threads[t].pc.EvApply?
    ensures var pc, pc' := s.threads[t].pc, s'.threads[t].pc;
      && pc.fd < |s.slots| && (pc'.EvWalkStart? || pc' == EvDone(pc.fd))
      && (pc'.EvWalkStart? <==>
            s.slots[pc.fd].selectWaiting > 0 && WorthTelling(s.slots[pc.fd], pc.event, s'.slots[pc.fd]))
  {
    var m := OwnMove(s, t, a, s');
    assert m.effect == Deliver(s.threads[t].pc.fd, s.threads[t].pc.event);
  }

  predicate WorthTelling(before: Slot, e: Event, after: Slot) {
    e.ErrorEvent? || (e.RcvPlus? && after.rcvevent <= 1) || (e.SendPlus? && !before.sendevent)
  }

  /** Where a walk comes from. */
  lemma WalkBefore(run: seq<Scheduled>, states: seq<State>, u: Tid, n: nat)
    requires IsRun(run, states) && Runs(states, u) && n + 1 < |states| && Walking(At(states, u, n + 1))
    ensures var pc, pc' := At(states, u, n), At(states, u, n + 1);
      if Walking(pc) then pc'.fd == pc.fd && pc'.flags == pc.flags
      else pc.EvApply? && pc'.fd == pc.fd < |states[n + 1].slots| && FlagsAre(pc'.flags, states[n + 1].slots[pc.fd])
  {
    assert StepOf(run, states, n);
    OwnStep(states[n], run[n].thread, run[n].action, states[n + 1], u);
    if At(states, u, n + 1) != At(states, u, n) {
      WalkStep(states[n], u, run[n].action, states[n + 1]);
    }
  }

  lemma {:induction false} FlagsWereReady(run: seq<Scheduled>, states: seq<State>, u: Tid, n: nat) returns (q: nat)
    requires IsRun(run, states) && Runs(states, u) && n < |states| && Walking(At(states, u, n))
    ensures q < n && At(states, u, q).EvApply? && At(states, u, q).fd == At(states, u, n).fd < |states[q + 1].slots|
    ensures FlagsAre(At(states, u, n).flags, states[q + 1].slots[At(states, u, n).fd])
    decreases n
  {
    assert n > 0;
    WalkBefore(run, states, u, n - 1);
    if Walking(At(states, u, n - 1)) {
      q := FlagsWereReady(run, states, u, n - 1);
    } else {
      q := n - 1;
    }
  }

  /** In every run, a select call is signalled only by an event on a descriptor that it asks
      for, which was ready in the way it asks for when the event had been recorded. */
  lemma SignalledForAReason(run: seq<Scheduled>, states: seq<State>, t: Tid, n: nat)
    returns (q: nat, u: Tid, i: nat, kind: Kind)
    requires IsRun(run, states) && Runs(states, t) && n + 1 < |states|
    requires !states[n].threads[t].signalled && states[n + 1].threads[t].signalled
    ensures Linked(At(states, t, n)) && InSet(At(states, t, n).sel, kind, i)
    ensures q < n && u < |states[q].threads| && states[q].threads[u].pc.EvApply? && states[q].threads[u].pc.fd == i
    ensures i < |states[q + 1].slots| && Ready(states[q + 1].slots[i], kind)
  {
    u := run[n].thread;
    assert StepOf(run, states, n);
    SignalIsWanted(states[n], u, run[n].action, states[n + 1], t);
    AllRun(run, states, u, n);
    q := FlagsWereReady(run, states, u, n);
    i := At(states, u, n).fd;
    var f, c := At(states, u, n).flags, At(states, t, n).sel;
    kind := if f.recv && i in c.readset then Read else if f.send && i in c.writeset then Write else Except;
  }

}
