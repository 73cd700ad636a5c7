/** What a thread knows while it is inside lwip_select, over runs with all their states: which of
    its scans it is in, which descriptors that has looked at and in which state, what it has found
    there, and why it has given up, if it has. Every step of the thread keeps this, and no step of
    another thread touches it; SelectResult says what follows for the result of the call.

    Another thread's step leaves a thread's position alone, so the whole history is followed along
    the thread's own steps. The scan before the call is linked, the one after it has been counted in
    and the one after it has left the list are told apart by where they start. A scan looks at one
    descriptor per step, and the log has the number of the state in which it did. */
module SelectLog {
  import opened Common
  import opened SocketTable
  import opened SocketThreads
  import opened SelectCall

  // ---- Runs with all their states

  /** The step `j` of a run leads from one of these states to the next. */
  predicate StepOf(run: seq<Scheduled>, states: seq<State>, j: nat) {
    j < |run| && j + 1 < |states| && Next(states[j], run[j].thread, run[j].action, states[j + 1])
  }

  /** `states` are those a run goes through. */
  ghost predicate IsRun(run: seq<Scheduled>, states: seq<State>) {
    && |states| == |run| + 1 && Init(states[0])
    && forall j: nat :: j < |run| ==> StepOf(run, states, j)
  }

  /** Every run of the machine is one of those. */
  lemma {:induction false} StatesOf(run: seq<Scheduled>, s: State) returns (states: seq<State>)
    requires Reaches(run, s)
    ensures IsRun(run, states) && states[|run|] == s
    decreases |run|
  {
    if run == [] {
      states := [s];
    } else {
      var init := run[..|run| - 1];
      var p :| LastStep(run, p, s);
      var before := StatesOf(init, p);
      states := before + [s];
      forall j: nat | j < |run| ensures StepOf(run, states, j) {
        if j < |init| { assert StepOf(init, before, j) && run[j] == init[j]; }
      }
    }
  }

  predicate Runs(states: seq<State>, t: Tid) {
    states != [] && forall j :: 0 <= j < |states| ==> t < |states[j].threads|
  }

  lemma {:induction false} Count(run: seq<Scheduled>, states: seq<State>, n: nat)
    requires IsRun(run, states) && n < |states|
    ensures |states[n].threads| == |states[0].threads|
    decreases n
  {
    if n > 0 {
      Count(run, states, n - 1);
      assert StepOf(run, states, n - 1);
    }
  }

  function At(states: seq<State>, t: Tid, n: nat): Pc
    requires Runs(states, t) && n < |states|
  {
    states[n].threads[t].pc
  }

  /** A step leaves a thread where it is, or is its own next one. */
  lemma OwnStep(s: State, u: Tid, a: Action, s': State, t: Tid)
    requires Next(s, u, a, s') && t < |s.threads|
    ensures |s'.threads| == |s.threads|
    ensures s'.threads[t].pc == s.threads[t].pc || (
      && u == t && s.threads[t].deleting.None?
      && s'.threads[t].pc == Decide(s, s.threads[t], a).value.pc)
  {
  }

  // ---- What a call has seen

  /** The same call, whatever it has marked or released. */
  predicate SameCall(c: Sel, d: Sel) {
    c.(used := {}) == d.(used := {})
  }

  /** A scan of one call: which of its three it is, the state it starts after, and the states
      in which it looks at the descriptors 0, 1, 2, ... A failure has only the state it starts
      after. */
  datatype Log = Log(phase: Phase, from: nat, looks: seq<nat>)

  /** Where a scan starts: having marked, having been counted in, or having left the list. */
  predicate Starts(pc: Pc, phase: Phase) {
    match phase
    case Before => pc.SelMark?
    case Rescan => pc.SelCount?
    case After => pc.SelUnlink? && pc.outcome == Proceed
  }

  /** What was found of descriptor `i` is what is there: it is not being closed, and it is in
      a set exactly if it is asked for and ready. */
  predicate Agrees(c: Sel, slots: seq<Slot>, i: nat, f: Found) {
    if Interest(c, i) then
      && i < |slots| && slots[i].pending.NotPending?
      && (i in f.readset <==> i in c.readset && (slots[i].lastdata || slots[i].rcvevent > 0))
      && (i in f.writeset <==> i in c.writeset && slots[i].sendevent)
      && (i in f.exceptset <==> i in c.exceptset && slots[i].errevent)
    else i !in f.readset && i !in f.writeset && i !in f.exceptset
  }

  /** Thread `t` has been in the call `c` from state `from` to state `n`. */
  predicate Within(states: seq<State>, t: Tid, from: nat, n: nat, c: Sel)
    requires Runs(states, t) && n < |states|
  {
    forall q :: from <= q <= n ==> InSelect(At(states, t, q)) && SameCall(At(states, t, q).sel, c)
  }

  predicate LookedAt(states: seq<State>, t: Tid, n: nat, c: Sel, f: Found, log: Log, i: nat)
    requires Runs(states, t) && n < |states| && i < |log.looks|
  {
    var w := log.looks[i];
    && log.from <= w < n && At(states, t, w).SelScan? && At(states, t, w).phase == log.phase && At(states, t, w).k == i
    && Agrees(c, states[w].slots, i, f)
  }

  /** Before state `n`, and not before state `p`, a scan of the call has looked at the first
      `k` descriptors, and `f` is what it has seen. */
  ghost predicate Saw(states: seq<State>, t: Tid, p: nat, n: nat, c: Sel, k: nat, f: Found, log: Log)
    requires Runs(states, t) && n < |states|
  {
    && p <= log.from < n && Within(states, t, log.from, n, c) && Starts(At(states, t, log.from), log.phase)
    && |log.looks| == k && FoundOk(c, k, f)
    && forall i :: 0 <= i < k ==> LookedAt(states, t, n, c, f, log, i)
  }

  /** Why a call gives up: a descriptor that is gone or being closed, too many calls counted in
      on one, or no semaphore. */
  predicate GivesUp(s: State, pc: Pc) {
    || ((pc.SelScan? || pc.SelCount?) && pc.k < pc.sel.max && Interest(pc.sel, pc.k)
        && (pc.k >= |s.slots| || s.slots[pc.k].pending.Pending?))
    || (pc.SelCount? && pc.k < |s.slots| && s.slots[pc.k].selectWaiting >= U8_MAX)
    || (pc.SelScan? && pc.phase == Before && pc.k >= pc.sel.max && pc.found.nready == 0 && pc.sel.timeout != Zero)
  }

  predicate GaveUp(states: seq<State>, t: Tid, p: nat, n: nat, c: Sel, log: Log)
    requires Runs(states, t) && n < |states|
  {
    p <= log.from < n && Within(states, t, log.from, n, c) && GivesUp(states[log.from], At(states, t, log.from))
  }

  /** A result: a failure with its reason, or what a scan saw: the one after leaving the list;
      the first one, if it found something or the call may not wait; or the one before waiting,
      if it found nothing and the time is up. */
  ghost predicate Justified(states: seq<State>, t: Tid, p: nat, n: nat, c: Sel, ret: int, f: Found, log: Log)
    requires Runs(states, t) && n < |states|
  {
    if ret == -1 then GaveUp(states, t, p, n, c, log)
    else
      && ret == f.nready && Saw(states, t, p, n, c, c.max, f, log)
      && match log.phase
         case Before => ret > 0 || c.timeout == Zero
         case Rescan => ret == 0 && c.timeout == Timed
         case After => c.timeout != Zero
  }

  ghost predicate Knows(states: seq<State>, t: Tid, p: nat, n: nat, log: Log)
    requires Runs(states, t) && n < |states|
  {
    match At(states, t, n)
    case SelScan(c, phase, k, f) =>
      && log.phase == phase && k <= c.max && Saw(states, t, p, n, c, k, f, log)
      && (phase != Before ==> c.timeout != Zero)
    case SelScanDone(c, phase, k, f) =>
      && log.phase == phase && k < c.max && Saw(states, t, p, n, c, k + 1, f, log)
      && (phase != Before ==> c.timeout != Zero)
    case SelLink(c) => c.timeout != Zero
    case SelCount(c, k) => c.timeout != Zero && k <= c.max
    case SelCountDone(c, k, overflow) =>
      c.timeout != Zero && k < c.max && (overflow ==> GaveUp(states, t, p, n, c, log))
    case SelWait(c, f) => Waits(states, t, p, n, c, f, log)
    case SelUncount(c, _, _, outcome) => Left(states, t, p, n, c, outcome, log)
    case SelUnlink(c, outcome) => Left(states, t, p, n, c, outcome, log)
    case SelRelease(c, _, ret, f) => Justified(states, t, p, n, c, ret, f, log)
    case _ => true
  }

  ghost predicate Waits(states: seq<State>, t: Tid, p: nat, n: nat, c: Sel, f: Found, log: Log)
    requires Runs(states, t) && n < |states|
  {
    c.timeout != Zero && f.nready == 0 && log.phase == Rescan && Saw(states, t, p, n, c, c.max, f, log)
  }

  ghost predicate Left(states: seq<State>, t: Tid, p: nat, n: nat, c: Sel, outcome: Outcome, log: Log)
    requires Runs(states, t) && n < |states|
  {
    && c.timeout != Zero
    && match outcome
       case Failed => GaveUp(states, t, p, n, c, log)
       case TimedOut(f) => c.timeout == Timed && Waits(states, t, p, n, c, f, log)
       case Proceed => true
  }

  // ---- One more step

  /** What was seen stays seen while the call goes on. */
  lemma SawLater(states: seq<State>, t: Tid, p: nat, n: nat, c: Sel, k: nat, f: Found, log: Log, d: Sel)
    requires Runs(states, t) && n + 1 < |states| && Saw(states, t, p, n, c, k, f, log)
    requires InSelect(At(states, t, n + 1)) && At(states, t, n + 1).sel == d && SameCall(c, d)
    ensures Saw(states, t, p, n + 1, d, k, f, log)
  {
    var later := n + 1;
    forall i | 0 <= i < k ensures LookedAt(states, t, later, d, f, log, i) {
      assert LookedAt(states, t, n, c, f, log, i);
    }
  }

  lemma GaveUpLater(states: seq<State>, t: Tid, p: nat, n: nat, c: Sel, log: Log, d: Sel)
    requires Runs(states, t) && n + 1 < |states| && GaveUp(states, t, p, n, c, log)
    requires InSelect(At(states, t, n + 1)) && At(states, t, n + 1).sel == d && SameCall(c, d)
    ensures GaveUp(states, t, p, n + 1, d, log)
  {
  }

  lemma JustifiedLater(states: seq<State>, t: Tid, p: nat, n: nat, c: Sel, ret: int, f: Found, log: Log, d: Sel)
    requires Runs(states, t) && n + 1 < |states| && Justified(states, t, p, n, c, ret, f, log)
    requires InSelect(At(states, t, n + 1)) && At(states, t, n + 1).sel == d && SameCall(c, d)
    ensures Justified(states, t, p, n + 1, d, ret, f, log)
  {
    if ret == -1 { GaveUpLater(states, t, p, n, c, log, d); } else { SawLater(states, t, p, n, c, c.max, f, log, d); }
  }

  lemma LeftLater(states: seq<State>, t: Tid, p: nat, n: nat, c: Sel, outcome: Outcome, log: Log)
    requires Runs(states, t) && n + 1 < |states| && Left(states, t, p, n, c, outcome, log)
    requires InSelect(At(states, t, n + 1)) && At(states, t, n + 1).sel == c
    ensures Left(states, t, p, n + 1, c, outcome, log)
  {
    match outcome
    case Failed => GaveUpLater(states, t, p, n, c, log, c);
    case TimedOut(f) => SawLater(states, t, p, n, c, c.max, f, log, c);
    case Proceed =>
  }

  /** A thread that stays where it is knows what it knew. */
  lemma KnowsStill(states: seq<State>, t: Tid, p: nat, n: nat, log: Log)
    requires Runs(states, t) && n + 1 < |states| && Knows(states, t, p, n, log)
    requires At(states, t, n + 1) == At(states, t, n)
    ensures Knows(states, t, p, n + 1, log)
  {
    match At(states, t, n)
    case SelScan(c, phase, k, f) => SawLater(states, t, p, n, c, k, f, log, c);
    case SelScanDone(c, phase, k, f) => SawLater(states, t, p, n, c, k + 1, f, log, c);
    case SelCountDone(c, k, overflow) => if overflow { GaveUpLater(states, t, p, n, c, log, c); }
    case SelWait(c, f) => SawLater(states, t, p, n, c, c.max, f, log, c);
    case SelUncount(c, _, _, outcome) => LeftLater(states, t, p, n, c, outcome, log);
    case SelUnlink(c, outcome) => LeftLater(states, t, p, n, c, outcome, log);
    case SelRelease(c, _, ret, f) => JustifiedLater(states, t, p, n, c, ret, f, log, c);
    case _ =>
  }

  /** A scan starts. */
  lemma ScanStarts(states: seq<State>, t: Tid, p: nat, n: nat, phase: Phase) returns (log: Log)
    requires Runs(states, t) && p <= n && n + 1 < |states|
    requires InSelect(At(states, t, n)) && Starts(At(states, t, n), phase)
    requires At(states, t, n + 1) == SelScan(At(states, t, n).sel, phase, 0, NOTHING_FOUND)
    ensures Saw(states, t, p, n + 1, At(states, t, n).sel, 0, NOTHING_FOUND, log) && log.phase == phase
  {
    log := Log(phase, n, []);
  }

  /** A scan looks at one more descriptor. */
  lemma ScanLooks(states: seq<State>, t: Tid, p: nat, n: nat, c: Sel, k: nat, f: Found, log: Log, g: Found)
    returns (longer: Log)
    requires Runs(states, t) && n + 1 < |states| && Saw(states, t, p, n, c, k, f, log)
    requires At(states, t, n) == SelScan(c, log.phase, k, f)
    requires InSelect(At(states, t, n + 1)) && At(states, t, n + 1).sel == c
    requires if Interest(c, k) then k < |states[n].slots| && states[n].slots[k].pending.NotPending?
                                    && g == Scanned(c, states[n].slots[k], k, f)
             else g == f
    ensures longer.phase == log.phase && Saw(states, t, p, n + 1, c, k + 1, g, longer)
  {
    longer := log.(looks := log.looks + [n]);
    if Interest(c, k) { ScannedOk(c, states[n].slots[k], k, f); }
    assert Agrees(c, states[n].slots, k, g);
    var later, all := n + 1, k + 1;
    forall i | 0 <= i < all ensures LookedAt(states, t, later, c, g, longer, i) {
      if i < k {
        assert longer.looks[i] == log.looks[i];
        assert LookedAt(states, t, n, c, f, log, i);
      }
    }
  }

  lemma CallFails(states: seq<State>, t: Tid, p: nat, n: nat, c: Sel) returns (log: Log)
    requires Runs(states, t) && p <= n && n + 1 < |states| && InSelect(At(states, t, n)) && At(states, t, n).sel == c
    requires GivesUp(states[n], At(states, t, n)) && InSelect(At(states, t, n + 1)) && At(states, t, n + 1).sel == c
    ensures GaveUp(states, t, p, n + 1, c, log)
  {
    log := Log(Before, n, []);
  }

  lemma ScanMoves(states: seq<State>, t: Tid, p: nat, n: nat, log: Log, a: Action) returns (next: Log)
    requires Runs(states, t) && p <= n && n + 1 < |states| && Knows(states, t, p, n, log)
    requires var pc := At(states, t, n);
      pc.SelScan? && ScanStep(states[n], pc.sel, pc.phase, pc.k, pc.found, a).Some?
      && At(states, t, n + 1) == ScanStep(states[n], pc.sel, pc.phase, pc.k, pc.found, a).value.pc
    ensures Knows(states, t, p, n + 1, next)
  {
    var pc := At(states, t, n);
    var c, k, f := pc.sel, pc.k, pc.found;
    next := log;
    if k >= c.max {
      SawLater(states, t, p, n, c, k, f, log, c);
      if At(states, t, n + 1).SelRelease? && At(states, t, n + 1).ret == -1 {
        next := CallFails(states, t, p, n, c);
      }
    } else if !Interest(c, k) {
      next := ScanLooks(states, t, p, n, c, k, f, log, f);
    } else if k >= |states[n].slots| || states[n].slots[k].pending.Pending? {
      next := CallFails(states, t, p, n, c);
    } else {
      next := ScanLooks(states, t, p, n, c, k, f, log, Scanned(c, states[n].slots[k], k, f));
    }
  }

  lemma CountMoves(states: seq<State>, t: Tid, p: nat, n: nat, log: Log) returns (next: Log)
    requires Runs(states, t) && p <= n && n + 1 < |states| && Knows(states, t, p, n, log)
    requires var pc := At(states, t, n);
      pc.SelCount? && CountStep(states[n], pc.sel, pc.k).Some?
      && At(states, t, n + 1) == CountStep(states[n], pc.sel, pc.k).value.pc
    ensures Knows(states, t, p, n + 1, next)
  {
    var pc := At(states, t, n);
    next := log;
    if pc.k >= pc.sel.max {
      next := ScanStarts(states, t, p, n, Rescan);
    } else if Interest(pc.sel, pc.k) && GivesUp(states[n], pc) {
      next := CallFails(states, t, p, n, pc.sel);
    }
  }

  /** The steps from the end of the wait to the end of the call. */
  lemma EndMoves(states: seq<State>, t: Tid, p: nat, n: nat, log: Log, m: Move) returns (next: Log)
    requires Runs(states, t) && p <= n && n + 1 < |states| && Knows(states, t, p, n, log)
    requires At(states, t, n + 1) == m.pc
    requires match At(states, t, n)
      case SelUncount(c, k, max2, outcome) => m == UncountStep(c, k, max2, outcome)
      case SelUnlink(c, outcome) => m == Move(Unlink, AfterUnlink(c, outcome))
      case SelRelease(c, k, ret, f) => m == ReleaseStep(c, k, ret, f)
      case _ => false
    ensures Knows(states, t, p, n + 1, next)
  {
    next := log;
    match At(states, t, n)
    case SelUncount(c, k, max2, outcome) =>
      LeftLater(states, t, p, n, c, outcome, log);
    case SelUnlink(c, outcome) =>
      if outcome.Proceed? {
        next := ScanStarts(states, t, p, n, After);
      } else {
        LeftLater(states, t, p, n, c, outcome, log);
      }
    case SelRelease(c, k, ret, f) =>
      if m.pc.SelRelease? { JustifiedLater(states, t, p, n, c, ret, f, log, m.pc.sel); }
  }

  /** The steps that end a temporary hold, and the wait. */
  lemma HoldMoves(states: seq<State>, t: Tid, p: nat, n: nat, log: Log, a: Action)
    requires Runs(states, t) && p <= n && n + 1 < |states| && Knows(states, t, p, n, log)
    requires At(states, t, n).SelScanDone? || At(states, t, n).SelCountDone? || At(states, t, n).SelWait?
    requires SelectStep(states[n], states[n].threads[t], a).Some?
    requires At(states, t, n + 1) == SelectStep(states[n], states[n].threads[t], a).value.pc
    ensures Knows(states, t, p, n + 1, log)
  {
    match At(states, t, n)
    case SelScanDone(c, phase, k, f) => SawLater(states, t, p, n, c, k + 1, f, log, c);
    case SelCountDone(c, k, overflow) => if overflow { GaveUpLater(states, t, p, n, c, log, c); }
    case SelWait(c, f) => SawLater(states, t, p, n, c, c.max, f, log, c);
  }

  lemma MarkMoves(states: seq<State>, t: Tid, p: nat, n: nat, a: Action) returns (next: Log)
    requires Runs(states, t) && p <= n && n + 1 < |states|
    requires At(states, t, n).SelMark? || At(states, t, n).SelLink?
    requires SelectStep(states[n], states[n].threads[t], a).Some?
    requires At(states, t, n).SelLink? ==> At(states, t, n).sel.timeout != Zero
    requires At(states, t, n + 1) == SelectStep(states[n], states[n].threads[t], a).value.pc
    ensures Knows(states, t, p, n + 1, next)
  {
    next := Log(Before, n, []);
    if At(states, t, n + 1).SelScan? { next := ScanStarts(states, t, p, n, Before); }
  }

  lemma SelectMoves(states: seq<State>, t: Tid, p: nat, n: nat, log: Log, a: Action) returns (next: Log)
    requires Runs(states, t) && p <= n && n + 1 < |states| && Knows(states, t, p, n, log)
    requires InSelect(At(states, t, n)) && SelectStep(states[n], states[n].threads[t], a).Some?
    requires At(states, t, n + 1) == SelectStep(states[n], states[n].threads[t], a).value.pc
    ensures Knows(states, t, p, n + 1, next)
  {
    var pc := At(states, t, n);
    if pc.SelMark? || pc.SelLink? {
      next := MarkMoves(states, t, p, n, a);
    } else if pc.SelScan? {
      next := ScanMoves(states, t, p, n, log, a);
    } else if pc.SelCount? {
      next := CountMoves(states, t, p, n, log);
    } else if pc.SelScanDone? || pc.SelCountDone? || pc.SelWait? {
      HoldMoves(states, t, p, n, log, a);
      next := log;
    } else {
      next := EndMoves(states, t, p, n, log, SelectStep(states[n], states[n].threads[t], a).value);
    }
  }

  /** A step into select is its first mark. */
  lemma Enters(s: State, th: Thread, a: Action)
    requires !InSelect(th.pc) && Decide(s, th, a).Some? && th.deleting.None?
    ensures InSelect(Decide(s, th, a).value.pc) ==> Decide(s, th, a).value.pc.SelMark?
  {
  }

  /** Inside select the next step is the next of select. */
  lemma StepsInSelect(s: State, th: Thread, a: Action)
    requires InSelect(th.pc) && Decide(s, th, a).Some? && th.deleting.None?
    ensures Decide(s, th, a) == SelectStep(s, th, a)
  {
  }

  /** What a thread does next, if it moves on from where it is in select. */
  lemma OwnSelectMove(run: seq<Scheduled>, states: seq<State>, t: Tid, n: nat)
    requires IsRun(run, states) && Runs(states, t) && n + 1 < |states|
    requires InSelect(At(states, t, n)) && At(states, t, n + 1) != At(states, t, n)
    ensures SelectStep(states[n], states[n].threads[t], run[n].action).Some?
    ensures At(states, t, n + 1) == SelectStep(states[n], states[n].threads[t], run[n].action).value.pc
  {
    var step := run[n];
    assert StepOf(run, states, n);
    OwnStep(states[n], step.thread, step.action, states[n + 1], t);
    StepsInSelect(states[n], states[n].threads[t], step.action);
  }

  lemma NextKnows(states: seq<State>, t: Tid, p: nat, n: nat, log: Log, step: Scheduled) returns (next: Log)
    requires Runs(states, t) && p <= n && n + 1 < |states| && Knows(states, t, p, n, log)
    requires Next(states[n], step.thread, step.action, states[n + 1])
    ensures Knows(states, t, p, n + 1, next)
  {
    next := log;
    OwnStep(states[n], step.thread, step.action, states[n + 1], t);
    if At(states, t, n + 1) == At(states, t, n) {
      KnowsStill(states, t, p, n, log);
    } else if InSelect(At(states, t, n)) {
      StepsInSelect(states[n], states[n].threads[t], step.action);
      next := SelectMoves(states, t, p, n, log, step.action);
    } else {
      Enters(states[n], states[n].threads[t], step.action);
    }
  }

  /** Outside a call, or at the end of its wait with a scan to come, nothing needs to be known. */
  predicate NothingToKnow(pc: Pc) {
    || !InSelect(pc)
    || ((pc.SelUncount? || pc.SelUnlink?) && pc.outcome == Proceed && pc.sel.timeout != Zero)
  }

  lemma {:induction false} Knowing(run: seq<Scheduled>, states: seq<State>, t: Tid, p: nat, n: nat) returns (log: Log)
    requires IsRun(run, states) && Runs(states, t) && p <= n < |states| && NothingToKnow(At(states, t, p))
    ensures Knows(states, t, p, n, log)
    decreases n
  {
    log := Log(Before, 0, []);
    if n > p {
      log := Knowing(run, states, t, p, n - 1);
      assert StepOf(run, states, n - 1);
      log := NextKnows(states, t, p, n - 1, log, run[n - 1]);
    }
  }

  // ---- Single steps

  lemma OnlyReleaseLeaves(s: State, th: Thread, a: Action)
    requires SelectStep(s, th, a).Some? && !InSelect(SelectStep(s, th, a).value.pc)
    ensures th.pc.SelRelease?
  {
  }

  lemma FoundAfterAll(s: State, th: Thread, a: Action)
    requires th.pc.SelScan? && th.pc.phase == Rescan && th.pc.k >= th.pc.sel.max && th.pc.found.nready > 0
    ensures SelectStep(s, th, a) == Some(Move(Quiet, SelUncount(th.pc.sel, 0, th.pc.sel.max, Proceed)))
  {
  }

  lemma TokenTaken(s: State, u: Tid, a: Action, s': State, t: Tid)
    requires Next(s, u, a, s') && t < |s.threads| && s.threads[t].token && s.threads[t].pc.SelWait?
    requires !s'.threads[t].token
    ensures s'.threads[t].pc == SelUncount(s.threads[t].pc.sel, 0, s.threads[t].pc.sel.max, Proceed)
  {
  }

  /** From there on, the only scan left is the one after leaving the list. */
  predicate LastScan(pc: Pc) {
    match pc
    case SelUncount(_, _, _, outcome) => outcome == Proceed
    case SelUnlink(_, outcome) => outcome == Proceed
    case SelScan(_, phase, _, _) => phase == After
    case SelScanDone(_, phase, _, _) => phase == After
    case SelRelease(_, _, _, _) => true
    case _ => false
  }

  lemma LastScanStep(s: State, th: Thread, a: Action)
    requires LastScan(th.pc) && SelectStep(s, th, a).Some?
    ensures var pc := SelectStep(s, th, a).value.pc; InSelect(pc) ==> LastScan(pc)
  {
  }

  /** It meets a descriptor that is gone or being closed. */
  predicate MeetsClosing(s: State, pc: Pc) {
    pc.SelScan? && pc.k < pc.sel.max && Interest(pc.sel, pc.k)
    && (pc.k >= |s.slots| || s.slots[pc.k].pending.Pending?)
  }

  lemma SelectStarts(s: State, th: Thread, a: Action)
    requires th.deleting.None? && th.pc.Running? && a.Select?
    ensures Decide(s, th, a).Some? && Decide(s, th, a).value.pc.SelMark?
    ensures var c := Decide(s, th, a).value.pc.sel;
      && c.readset == a.readset && c.writeset == a.writeset && c.exceptset == a.exceptset
      && c.max == a.max && c.timeout == a.timeout && c.entry == th.holds
  {
  }

  lemma StaysTheCall(s: State, th: Thread, a: Action)
    requires InSelect(th.pc) && SelectStep(s, th, a).Some? && InSelect(SelectStep(s, th, a).value.pc)
    ensures SameCall(th.pc.sel, SelectStep(s, th, a).value.pc.sel)
  {
  }

  /** The result of a call whose wait has ended like this. */
  function Settled(outcome: Outcome): (int, Found)
    requires !outcome.Proceed?
  {
    if outcome.Failed? then (-1, NOTHING_FOUND) else (outcome.found.nready, outcome.found)
  }

  /** The call is on its way out with that result. */
  predicate Leaves(pc: Pc, outcome: Outcome)
    requires !outcome.Proceed?
  {
    match pc
    case SelCountDone(_, _, overflow) => overflow && outcome.Failed?
    case SelUncount(_, _, _, o) => o == outcome
    case SelUnlink(_, o) => o == outcome
    case SelRelease(_, _, ret, f) => (ret, f) == Settled(outcome)
    case _ => false
  }

  lemma LeavesStep(s: State, th: Thread, a: Action, outcome: Outcome)
    requires !outcome.Proceed? && Leaves(th.pc, outcome) && SelectStep(s, th, a).Some?
    ensures var pc := SelectStep(s, th, a).value.pc; InSelect(pc) ==> Leaves(pc, outcome)
  {
  }

  /** A call that gives up while it waits or prepares to wait. */
  predicate MeetsReason(s: State, pc: Pc) {
    MeetsClosing(s, pc) || (pc.SelCount? && pc.k < pc.sel.max && Interest(pc.sel, pc.k) && GivesUp(s, pc))
  }

  lemma GivingUp(s: State, th: Thread, a: Action)
    requires MeetsReason(s, th.pc) && SelectStep(s, th, a).Some?
    ensures Leaves(SelectStep(s, th, a).value.pc, Failed)
  {
  }

  lemma WaitExpires(s: State, u: Tid, a: Action, s': State, t: Tid)
    requires Next(s, u, a, s') && t < |s.threads| && s.threads[t].pc.SelWait? && s'.threads[t].pc != s.threads[t].pc
    requires !(s.threads[t].token && !s'.threads[t].token)
    ensures s.threads[t].pc.sel.timeout == Timed && Leaves(s'.threads[t].pc, TimedOut(s.threads[t].pc.found))
  {
  }

  lemma SignalIsWanted(s: State, u: Tid, a: Action, s': State, t: Tid)
    requires Next(s, u, a, s') && t < |s.threads| && !s.threads[t].signalled && s'.threads[t].signalled
    ensures u != t && (s.threads[u].pc.EvWalkStart? || s.threads[u].pc.EvWalk?)
    ensures Wanted(s.threads[t].pc, s.threads[u].pc.fd, s.threads[u].pc.flags)
    ensures s'.threads[t].token && s'.threads[t].pc == s.threads[t].pc
  {
  }

  predicate Walking(pc: Pc) {
    pc.EvWalkStart? || pc.EvWalk?
  }

  predicate FlagsAre(f: Flags, slot: Slot) {
    (f.recv <==> Ready(slot, Read)) && (f.send <==> Ready(slot, Write)) && (f.err <==> Ready(slot, Except))
  }

  lemma SelectNeverWalks(s: State, th: Thread, a: Action)
    requires SelectStep(s, th, a).Some?
    ensures !Walking(SelectStep(s, th, a).value.pc)
  {
  }

  /** A walk starts from an event with the flags of the slot as the event leaves it, and keeps
      them. */
  lemma WalkMoves(s: State, pc: Pc)
    requires EventStep(s, pc).Some? && Walking(EventStep(s, pc).value.pc)
    ensures var m := EventStep(s, pc).value;
      if Walking(pc) then m.pc.fd == pc.fd && m.pc.flags == pc.flags
      else pc.EvApply? && m.pc.fd == pc.fd < |s.slots| && m.effect == Deliver(pc.fd, pc.event)
           && FlagsAre(m.pc.flags, Posted(s.slots[pc.fd], pc.event))
  {
  }

  lemma OnlyEventsWalk(s: State, th: Thread, a: Action)
    requires Decide(s, th, a).Some? && th.deleting.None? && Walking(Decide(s, th, a).value.pc)
    ensures EventStep(s, th.pc) == Decide(s, th, a)
  {
    if EventStep(s, th.pc).None? && SelectStep(s, th, a).Some? { SelectNeverWalks(s, th, a); }
  }

  lemma WalkStep(s: State, u: Tid, a: Action, s': State)
    requires Next(s, u, a, s') && s.threads[u].deleting.None? && Walking(s'.threads[u].pc)
    ensures var pc, pc' := s.threads[u].pc, s'.threads[u].pc;
      if Walking(pc) then pc'.fd == pc.fd && pc'.flags == pc.flags
      else pc.EvApply? && pc'.fd == pc.fd < |s'.slots| && FlagsAre(pc'.flags, s'.slots[pc.fd])
  {
    var m := OwnMove(s, u, a, s');
    OnlyEventsWalk(s, s.threads[u], a);
    WalkMoves(s, s.threads[u].pc);
  }

  lemma OwnMove(s: State, u: Tid, a: Action, s': State) returns (m: Move)
    requires Next(s, u, a, s')
    ensures Decide(s, s.threads[u], a) == Some(m) && s'.threads[u].pc == m.pc && s'.slots == SlotsAfter(s, m.effect)
  {
    m := Decide(s, s.threads[u], a).value;
  }

  lemma AllRun(run: seq<Scheduled>, states: seq<State>, u: Tid, n: nat)
    requires IsRun(run, states) && n < |states| && u < |states[n].threads|
    ensures Runs(states, u)
  {
    forall j | 0 <= j < |states| ensures |states[j].threads| == |states[0].threads| {
      Count(run, states, j);
    }
    assert |states[n].threads| == |states[0].threads|;
  }
}
