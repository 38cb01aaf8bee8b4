/** The machine's steps - the guest's, the copiers' and the history's - and what
    holds over every run of them. */
module Runs {
  import opened Pages
  import opened Machine
  import opened Deltas
  import opened Invariant

  datatype Step =
    | Write(i: nat, bytes: PageBytes, also: set<nat>)  // a guest store, faulting first if it must
    | Reprotect(lo: nat, hi: nat, s: Status)           // mmap, mprotect, mremap growing in place
    | Release(lo: nat, hi: nat, adviseOnly: bool)      // munmap, MADV_DONTNEED, mremap shrinking
    | LandOn(i: nat, s: Status, hidden: bool, bytes: PageBytes)  // mremap moving into a free page
    | ClaimPage(i: nat)                                // whoever wins an owed page
    | CopyNext(i: nat)                                 // the winner copies one byte
    | EndCopy(i: nat)                                  // the winner lets the page go
    | PlanNow(blank: PageBytes)                        // a state asked for in the background
    | EndPlan                                          // every page copied: the plan finishes
    | OpenEpoch
    | EmitDelta

  /** When a step can be taken. A write that faults, and a release, first see
      to it that no page they are about to change is owed or being copied. */
  ghost predicate Enabled(m: Machine, s: Step)
    requires Shaped(m)
  {
    match s
    case Write(i, _, also) =>
      && i < |m.cells| && Tracked(m.cells[i].p.status)
      && (Writable(m.os[i]) ||
          forall q | 0 <= q < |m.cells| && LetsGo(m.cells, m.group, i, also, q) :: m.cells[q].p.planHold == Clear)
    case Reprotect(lo, hi, st) => lo <= hi <= |m.cells| && st != StFree
    case Release(lo, hi, _) =>
      lo <= hi <= |m.cells|
      && forall i | lo <= i < hi :: m.cells[i].p.status != StFree && m.cells[i].p.planHold == Clear
    case LandOn(i, st, _, _) => i < |m.cells| && m.cells[i].p.status == StFree && st != StFree
    case ClaimPage(i) => i < |m.cells| && m.cells[i].p.planHold == Owed
    case CopyNext(i) => i < |m.cells| && m.cells[i].p.planHold.Copying? && m.cells[i].p.planHold.done < PAGESIZE
                        && m.plan.Open? && m.cells[i].p.planSlot < |m.plan.dest|
    case EndCopy(i) => i < |m.cells| && m.cells[i].p.planHold.Copying? && m.cells[i].p.planHold.done >= PAGESIZE
    case PlanNow(_) => m.plan.Idle?
    case EndPlan => m.plan.Open? && forall i | 0 <= i < |m.cells| :: m.cells[i].p.planHold == Clear
    case OpenEpoch => true
    case EmitDelta => m.epochActive
  }

  ghost function Next(m: Machine, s: Step): (r: Machine)
    requires Shaped(m) && Enabled(m, s)
    ensures Shaped(r)
  {
    match s
    case Write(i, bytes, also) => GuestWrite(m, i, bytes, also)
    case Reprotect(lo, hi, st) => Protect(m, lo, hi, st)
    case Release(lo, hi, a) => GiveBack(m, lo, hi, a)
    case LandOn(i, st, hidden, bytes) => Land(m, i, st, hidden, bytes)
    case ClaimPage(i) => Claim(m, i)
    case CopyNext(i) => CopyByte(m, i)
    case EndCopy(i) => CopyDone(m, i)
    case PlanNow(blank) => PlanState(m, blank)
    case EndPlan => FinishPlan(m)
    case OpenEpoch => EpochBegin(m)
    case EmitDelta => SaveDelta(m).0
  }

  ghost predicate CanRun(m: Machine, steps: seq<Step>)
    requires Shaped(m)
    decreases |steps|
  {
    steps == [] || (Enabled(m, steps[0]) && CanRun(Next(m, steps[0]), steps[1..]))
  }

  ghost function Run(m: Machine, steps: seq<Step>): (r: Machine)
    requires Shaped(m) && CanRun(m, steps)
    ensures Shaped(r)
    decreases |steps|
  {
    if steps == [] then m else Run(Next(m, steps[0]), steps[1..])
  }

  lemma RunUnfolds(m: Machine, steps: seq<Step>)
    requires Shaped(m) && steps != [] && Enabled(m, steps[0]) && CanRun(Next(m, steps[0]), steps[1..])
    ensures CanRun(m, steps) && Run(m, steps) == Run(Next(m, steps[0]), steps[1..])
  {
  }

  lemma {:induction false} RunConcat(m: Machine, a: seq<Step>, b: seq<Step>)
    requires Shaped(m) && CanRun(m, a) && CanRun(Run(m, a), b)
    ensures CanRun(m, a + b) && Run(m, a + b) == Run(Run(m, a), b)
    decreases |a|
  {
    hide Enabled, Next;
    if a == [] {
      assert a + b == b;
    } else {
      var r, ab := Next(m, a[0]), a + b;
      assert ab[0] == a[0] && ab[1..] == a[1..] + b;
      RunConcat(r, a[1..], b);
      RunUnfolds(m, ab);
    }
  }

  // ---- the invariant over every run ----

  /** The one step after which a writable page can be missing from the list of
      writable pages, where a host page is one machine page. */
  predicate StepUncovers(m: Machine, s: Step) {
    m.group == 1 && s.LandOn? && s.i < |m.cells| && Uncovers(m.cells[s.i], s.s, s.hidden)
  }

  lemma StepKeeps(m: Machine, base: seq<PageBytes>, s: Step)
    requires Inv(m, base) && Enabled(m, s)
    ensures Inv(Next(m, s), base) && (Enrolled(m) ==> (Enrolled(Next(m, s)) <==> !StepUncovers(m, s)))
  {
    match s
    case Write(i, bytes, also) => WriteKeeps(m, base, i, bytes, also);
    case Reprotect(lo, hi, st) => ProtectKeeps(m, base, lo, hi, st);
    case Release(lo, hi, a) => GiveBackKeeps(m, base, lo, hi, a);
    case LandOn(i, st, hidden, bytes) => LandKeeps(m, base, i, st, hidden, bytes);
    case ClaimPage(i) => SetHoldKeeps(m, base, i, Copying(0));
    case CopyNext(i) => CopyByteKeeps(m, base, i);
    case EndCopy(i) => SetHoldKeeps(m, base, i, Clear);
    case PlanNow(blank) => PlanKeeps(m, base, blank);
    case EndPlan => FinishKeeps(m, base);
    case OpenEpoch => BeginKeeps(m, base);
    case EmitDelta => SaveDeltaKeeps(m, base);
  }

  /** No step of the run uncovers a page. */
  ghost predicate Covered(m: Machine, steps: seq<Step>)
    requires Shaped(m) && CanRun(m, steps)
    decreases |steps|
  {
    steps == [] || (!StepUncovers(m, steps[0]) && Covered(Next(m, steps[0]), steps[1..]))
  }

  /** The list of writable pages whole at every moment of the run. */
  ghost predicate AlwaysEnrolled(m: Machine, steps: seq<Step>)
    requires Shaped(m) && CanRun(m, steps)
    decreases |steps|
  {
    Enrolled(m) && (steps == [] || AlwaysEnrolled(Next(m, steps[0]), steps[1..]))
  }

  /** Safety over whole runs: however the guest, the copiers and the history
      interleave, the invariant holds at the end, and the list of writable pages
      has been whole all along exactly when no move uncovered a page. */
  lemma {:induction false} RunKeeps(m: Machine, base: seq<PageBytes>, steps: seq<Step>)
    requires Inv(m, base) && CanRun(m, steps)
    ensures Inv(Run(m, steps), base)
    ensures Enrolled(m) ==> (AlwaysEnrolled(m, steps) <==> Covered(m, steps))
    ensures AlwaysEnrolled(m, steps) ==> Enrolled(Run(m, steps))
    decreases |steps|
  {
    hide Enrolled, Enabled, Next, CellsOk, Watched, Tight, PlanOk, StepUncovers;
    if steps != [] {
      StepKeeps(m, base, steps[0]);
      RunKeeps(Next(m, steps[0]), base, steps[1..]);
    }
  }
}
