/** One lwip_select call seen from its own thread, whatever the others do: on every exit
    path it gives back exactly the holds it took, the sets it reports are subsets of the
    sets it was given, and a non-negative result counts the members of the three sets.

    The call is a walk through the positions of SocketThreads.Pc. What the thread must hold at
    each of them is written down as a function of the position, and so is what the sets found
    so far may contain; every step of the thread keeps both, and no step of another thread
    touches either. */
module SelectCall {
  import opened Common
  import opened SocketTable
  import opened SocketThreads

  function Is(i: nat, k: nat): nat {
    if i == k then 1 else 0
  }

  function Marked(c: Sel, i: nat): nat {
    if i in c.used then 1 else 0
  }

  /** Holds on descriptor `i` taken without looking at sock->conn. */
  function Unchecked(pc: Pc, i: nat): nat {
    match pc
    case Checking(k) => Is(i, k)
    case EvCheck(k, _) => Is(i, k)
    case SelMark(c, _, _) => Marked(c, i)
    case SelScan(c, _, _, _) => Marked(c, i)
    case SelScanDone(c, _, k, _) => Marked(c, i) + Is(i, k)
    case SelLink(c) => Marked(c, i)
    case SelCount(c, _) => Marked(c, i)
    case SelCountDone(c, k, _) => Marked(c, i) + Is(i, k)
    case SelWait(c, _) => Marked(c, i)
    case SelUncount(c, _, _, _) => Marked(c, i)
    case SelUnlink(c, _) => Marked(c, i)
    case SelRelease(c, _, _, _) => Marked(c, i)
    case _ => 0
  }

  /** How many holds on `i` are left of `held` after an effect. */
  function HeldAfter(held: nat, e: Effect, i: nat): int {
    match e
    case Hold(k) => held + Is(i, k)
    case CountUp(k) => held + Is(i, k)
    case Take(k, _) => held + Is(i, k)
    case Drop(k) => held - Is(i, k)
    case Free(k, _) => held - Is(i, k)
    case _ => held
  }

  /** Only marked descriptors below `max` that some set asks for. */
  ghost predicate UsedOk(c: Sel) {
    forall u :: u in c.used ==> u < c.max && Interest(c, u)
  }

  ghost predicate Below(fds: set<nat>, k: nat) {
    forall i :: i in fds ==> i < k
  }

  /** A scan that has reached `k`: what it found lies in the caller's sets below `k`, and
      its counter is the number of members found. */
  ghost predicate FoundOk(c: Sel, k: nat, f: Found) {
    && f.readset <= c.readset && f.writeset <= c.writeset && f.exceptset <= c.exceptset
    && Below(f.readset, k) && Below(f.writeset, k) && Below(f.exceptset, k)
    && f.nready == |f.readset| + |f.writeset| + |f.exceptset|
  }

  ghost predicate OutcomeOk(c: Sel, outcome: Outcome) {
    outcome.TimedOut? ==> FoundOk(c, c.max, outcome.found)
  }

  /** The result a call is about to return. */
  ghost predicate ResultOk(c: Sel, ret: int, f: Found) {
    ret == -1 || (ret == f.nready && FoundOk(c, c.max, f))
  }

  ghost predicate Sound(pc: Pc) {
    match pc
    case SelMark(c, _, k) => UsedOk(c)
    case SelScan(c, _, k, found) => UsedOk(c) && FoundOk(c, k, found) && k <= c.max
    case SelScanDone(c, _, k, found) => UsedOk(c) && FoundOk(c, k + 1, found) && k < c.max
    case SelLink(c) => UsedOk(c)
    case SelCount(c, k) => UsedOk(c) && k <= c.max
    case SelCountDone(c, k, _) => UsedOk(c) && k < c.max
    case SelWait(c, found) => UsedOk(c) && FoundOk(c, c.max, found)
    case SelUncount(c, k, max2, outcome) => UsedOk(c) && OutcomeOk(c, outcome) && k <= max2 <= c.max
    case SelUnlink(c, outcome) => UsedOk(c) && OutcomeOk(c, outcome)
    case SelRelease(c, k, ret, found) => UsedOk(c) && ResultOk(c, ret, found) && (forall u :: u in c.used ==> k <= u)
    case _ => true
  }

  lemma ScannedOk(c: Sel, s: Slot, k: nat, f: Found)
    requires FoundOk(c, k, f)
    ensures FoundOk(c, k + 1, Scanned(c, s, k, f))
  {
  }

  lemma FinishSound(c: Sel, phase: Phase, found: Found, a: Action)
    requires UsedOk(c) && FoundOk(c, c.max, found)
    ensures Sound(ScanFinished(c, phase, found, a))
  {
  }

  lemma ScanSound(s: State, c: Sel, phase: Phase, k: nat, found: Found, a: Action)
    requires Sound(SelScan(c, phase, k, found)) && ScanStep(s, c, phase, k, found, a).Some?
    ensures Sound(ScanStep(s, c, phase, k, found, a).value.pc)
  {
    if k >= c.max {
      FinishSound(c, phase, found, a);
    } else {
      if k < |s.slots| {
        ScannedOk(c, s.slots[k], k, found);
      }
    }
  }

  lemma ReleaseSound(c: Sel, k: nat, ret: int, found: Found)
    requires Sound(SelRelease(c, k, ret, found))
    ensures Sound(ReleaseStep(c, k, ret, found).pc)
  {
  }

  lemma SelectStepSound(s: State, th: Thread, a: Action)
    requires Sound(th.pc) && SelectStep(s, th, a).Some?
    ensures Sound(SelectStep(s, th, a).value.pc)
  {
    match th.pc
    case SelMark(c, pass, k) =>
    case SelScan(c, phase, k, found) => ScanSound(s, c, phase, k, found, a);
    case SelCount(c, k) =>
    case SelRelease(c, k, ret, found) => ReleaseSound(c, k, ret, found);
    case _ =>
  }

  lemma StepSound(s: State, th: Thread, a: Action)
    requires Sound(th.pc) && Decide(s, th, a).Some?
    ensures Sound(Decide(s, th, a).value.pc)
  {
    if th.deleting.None? && EventStep(s, th.pc).None? && SelectStep(s, th, a).Some? {
      SelectStepSound(s, th, a);
    }
  }

  // ---- Balance of the use counts

  predicate InSelect(pc: Pc) {
    || pc.SelMark? || pc.SelScan? || pc.SelScanDone? || pc.SelLink? || pc.SelCount?
    || pc.SelCountDone? || pc.SelWait? || pc.SelUncount? || pc.SelUnlink? || pc.SelRelease?
  }

  /** Inside select, the thread holds on `i` what it held on entry, plus its marks and the
      temporary hold of the step it is in. */
  predicate Balanced(pc: Pc, held: int, i: nat) {
    InSelect(pc) ==> held == pc.sel.entry[i] + Unchecked(pc, i)
  }

  lemma SelectStepBalanced(s: State, th: Thread, a: Action, held: nat, i: nat)
    requires Balanced(th.pc, held, i) && SelectStep(s, th, a).Some?
    ensures var m := SelectStep(s, th, a).value; Balanced(m.pc, HeldAfter(held, m.effect, i), i)
  {
    match th.pc
    case SelMark(c, pass, k) =>
    case SelScan(c, phase, k, found) =>
    case SelCount(c, k) =>
    case SelRelease(c, k, ret, found) =>
    case _ =>
  }

  lemma StepBalanced(s: State, th: Thread, a: Action, i: nat)
    requires Balanced(th.pc, th.holds[i], i) && Decide(s, th, a).Some?
    ensures var m := Decide(s, th, a).value; Balanced(m.pc, HeldAfter(th.holds[i], m.effect, i), i)
  {
    if th.deleting.None? && EventStep(s, th.pc).None? && SelectStep(s, th, a).Some? {
      SelectStepBalanced(s, th, a, th.holds[i], i);
    }
  }

  /** The only way out of lwip_select, whatever happened inside: every hold taken has been
      given back, the result is sound, and the step itself touches nothing. */
  lemma SelectReturns(s: State, th: Thread, a: Action)
    requires th.deleting.None? && InSelect(th.pc) && Sound(th.pc)
    requires forall i: nat :: Balanced(th.pc, th.holds[i], i)
    requires Decide(s, th, a).Some? && !InSelect(Decide(s, th, a).value.pc)
    ensures Decide(s, th, a).value == Move(Quiet, Running)
    ensures th.holds == th.pc.sel.entry
    ensures th.pc.SelRelease? && ResultOk(th.pc.sel, th.pc.ret, th.pc.found)
  {
    assert EventStep(s, th.pc).None?;
    match th.pc
    case SelRelease(c, k, _, _) =>
      assert c.used == {} by {
        if u :| u in c.used { assert false; }
      }
      forall i: nat ensures th.holds[i] == c.entry[i] {
        assert Balanced(th.pc, th.holds[i], i);
      }
      assert th.holds == c.entry;
    case _ =>
  }
}
