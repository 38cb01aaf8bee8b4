/** Background capture as the host's calls make it: between asking for a state
    and finishing it, any calls of the guest, the copier and the history, each
    with the copying it does on the way; and the state is the one asked for. */
module Fills {
  import opened Pages
  import opened Machine
  import opened Deltas
  import opened Invariant
  import opened Runs
  import opened Capture
  import opened Workings
  import opened Calls

  /** A plan under way with no copier at a page, its slots right so far. */
  ghost predicate Owing(m: Machine, base: seq<PageBytes>, m0: Machine) {
    Inv(m, base) && Quiet(m.cells) && PlanTrue(m, m0)
  }

  /** plan_take on any pages. */
  lemma TakeInOwes(m: Machine, base: seq<PageBytes>, m0: Machine, which: set<nat>)
    requires Owing(m, base, m0)
    ensures PlanShaped(m) && Owing(TakeIn(m, which), base, m0)
  {
    hide Watched, Tight, CellsOk;
    TakeInKeeps(m, base, which);
    TakeInQuiet(m, which);
    var r := TakeIn(m, which);
    forall k | 0 <= k < |m.plan.list|
      ensures SlotTrue(r.cells[m.plan.list[k]], k, r.plan.dest[k], m0.cells[m.plan.list[k]].mem)
    {
      assert SlotTrue(m.cells[m.plan.list[k]], k, m.plan.dest[k], m0.cells[m.plan.list[k]].mem);
    }
  }

  /** Any step but a copier's, or those that make and end plans. */
  lemma StepOwes(m: Machine, base: seq<PageBytes>, m0: Machine, s: Step)
    requires Owing(m, base, m0) && Enabled(m, s) && DuringPlan(s) && !Copies(s)
    ensures Owing(Next(m, s), base, m0)
  {
    hide Next, Enabled, PlanTrue, CellsOk, Watched, Tight, PlanOk;
    StepKeeps(m, base, s);
    NextSize(m, base, s);
    forall i | 0 <= i < |m.cells| ensures Undisturbed(m.cells[i], Next(m, s).cells[i]) { OthersQuiet(m, base, s, i); }
    QuietKeeps(m, Next(m, s), m0);
  }

  lemma UnmapOwes(m: Machine, base: seq<PageBytes>, m0: Machine, lo: nat, hi: nat, adviseOnly: bool)
    requires Owing(m, base, m0) && lo <= hi <= |m.cells| && AllTaken(m.cells, lo, hi)
    ensures PlanShaped(m) && Owing(Unmap(m, lo, hi, adviseOnly), base, m0)
  {
    hide Watched, Tight, CellsOk, PlanTrue, GiveBack, DestTaken;
    TakeInOwes(m, base, m0, Range(lo, hi));
    TakeInQuiet(m, Range(lo, hi));
    var t := TakeIn(m, Range(lo, hi));
    StepOwes(t, base, m0, Release(lo, hi, adviseOnly));
  }

  lemma MapOwes(m: Machine, base: seq<PageBytes>, m0: Machine, lo: nat, hi: nat, s: Status, zeroOverlap: bool)
    requires Owing(m, base, m0) && lo <= hi <= |m.cells| && s != StFree
    ensures PlanShaped(m) && Owing(MapFixed(m, lo, hi, s, zeroOverlap), base, m0)
  {
    if zeroOverlap {
      OverlapOwes(m, base, m0, lo, hi, s);
    } else {
      hide PlanTrue, Protect, CellsOk, Watched, Tight;
      StepOwes(m, base, m0, Reprotect(lo, hi, s));
    }
  }

  lemma OverlapOwes(m: Machine, base: seq<PageBytes>, m0: Machine, lo: nat, hi: nat, s: Status)
    requires Owing(m, base, m0) && lo <= hi <= |m.cells| && s != StFree
    ensures PlanShaped(m) && Owing(MapFixed(m, lo, hi, s, true), base, m0)
  {
    hide Watched, Tight, CellOk, PlanTrue, DestTaken, TakenIn, Overlaid, Protected, RefreshOs, CaughtUp;
    MapFixedKeeps(m, base, lo, hi, s, true);
    var which := TakenIn(m.cells, lo, hi);
    TakeInOwes(m, base, m0, which);
    var t, r := TakeIn(m, which), MapFixed(m, lo, hi, s, true);
    forall i | 0 <= i < |m.cells| ensures Undisturbed(t.cells[i], r.cells[i]) {
      assert CellOk(m.cells[i], base[i]) && OwesNothingFree(m.cells[i]);
      OverlaidOk(m.cells[i], base[i], m.epochActive, s);
      CaughtUpHold(m.cells[i]);
    }
    QuietKeeps(t, r, m0);
  }

  lemma {:induction false} LandRunOwes(m: Machine, base: seq<PageBytes>, m0: Machine, lo: nat, count: nat, to: nat, k: nat)
    requires Owing(m, base, m0) && count > 0 && lo + count <= |m.cells| && to + k <= |m.cells|
    requires AllTaken(m.cells, lo, lo + count) && AllGiven(m.cells, to, to + k)
    ensures Owing(LandRun(m, lo, count, to, k), base, m0)
    decreases k
  {
    hide PlanTrue, Quiet, Land, LandRun, CellsOk, Watched, Tight, PlanOk;
    if k == 0 {
      LandRunStart(m, lo, count, to);
    } else {
      LandRunOwes(m, base, m0, lo, count, to, k - 1);
      LandRunStep(m, lo, count, to, k - 1);
      var r, c := LandRun(m, lo, count, to, k - 1), m.cells[MoveSource(lo, count, k - 1)];
      StepOwes(r, base, m0, LandOn(to + k - 1, c.p.status, c.p.invisible, if k - 1 < count then c.mem else Zeros()));
    }
  }

  /** What is moved is still there when everything has landed. */
  lemma LandedElsewhere(m: Machine, lo: nat, count: nat, to: nat, n: nat)
    requires Shaped(m) && count > 0 && lo + count <= |m.cells| && to + n <= |m.cells|
    requires AllTaken(m.cells, lo, lo + count) && AllGiven(m.cells, to, to + n)
    ensures AllTaken(LandRun(m, lo, count, to, n).cells, lo, lo + count)
  {
    hide LandRun;
    var r := LandRun(m, lo, count, to, n);
    forall i | lo <= i < lo + count ensures r.cells[i].p.status != StFree {
      assert m.cells[i].p.status != StFree && !(to <= i < to + n);
    }
  }

  lemma MoveOwes(m: Machine, base: seq<PageBytes>, m0: Machine, lo: nat, count: nat, to: nat, n: nat)
    requires Owing(m, base, m0) && count > 0 && lo + count <= |m.cells| && to + n <= |m.cells|
    requires AllTaken(m.cells, lo, lo + count) && AllGiven(m.cells, to, to + n)
    ensures PlanShaped(m) && Owing(MoveTo(m, lo, count, to, n), base, m0)
  {
    hide PlanTrue, Quiet, LandRun, Unmap, CellsOk, Watched, Tight;
    LandRunOwes(m, base, m0, lo, count, to, n);
    LandedElsewhere(m, lo, count, to, n);
    UnmapOwes(LandRun(m, lo, count, to, n), base, m0, lo, lo + count, false);
  }

  /** A guest write, its fault handler first giving the plan what it is owed. */
  lemma StoreOwes(m: Machine, base: seq<PageBytes>, m0: Machine, i: nat, bytes: PageBytes)
    requires Owing(m, base, m0) && i < |m.cells| && Tracked(m.cells[i].p.status)
    ensures PlanShaped(m) && Owing(Overwritten(m, i, bytes), base, m0)
  {
    hide PlanTrue, Quiet, CellsOk, Watched, Tight, HeldBelow, GuestWrite, LetsGo, TakeIn;
    if Writable(m.os[i]) {
      TakeInNone(m);
      StepOwes(m, base, m0, Write(i, bytes, {}));
    } else {
      var which := HeldBelow(m.cells, m.group, i, |m.cells|);
      FaultReady(m, base, i);
      TakeInOwes(m, base, m0, which);
      StepOwes(TakeIn(m, which), base, m0, Write(i, bytes, which));
    }
  }

  /** What is left copied, the buffer is the state that was asked for. */
  lemma FinishGives(m: Machine, base: seq<PageBytes>, m0: Machine)
    requires Owing(m, base, m0)
    ensures PlanShaped(m) && m.plan.Open? && forall k | 0 <= k < |m.plan.list| :: m.plan.list[k] < |m.cells|
    ensures var t := TakeIn(m, Listed(m.plan.list, 0, |m.plan.list|));
            t.plan.Open? && PlanBuffer(t.plan) == SaveState(m0)
  {
    hide TakeIn, CellsOk, Watched, Tight, PlanBuffer, SaveState;
    var all := Listed(m.plan.list, 0, |m.plan.list|);
    AllCopied(m, base, m.plan.list);
    TakeInOwes(m, base, m0, all);
    CopiedAll(TakeIn(m, all), m0);
  }

  // ---- any calls between ----

  /** The block's calls while a plan is open, each as its method does it. */
  datatype Op =
    | StoreAt(i: nat, bytes: PageBytes)                          // a guest write
    | ProtectAt(lo: nat, hi: nat, s: Status)                     // mprotect, mmap into free pages, mremap growing
    | UnmapAt(lo: nat, hi: nat, adviseOnly: bool)                // munmap, MADV_DONTNEED, mremap shrinking
    | MapAt(lo: nat, hi: nat, s: Status, zeroOverlap: bool)      // mmap at an address
    | MoveAt(lo: nat, count: nat, to: nat, n: nat)               // mremap moving
    | FillAt(from: nat, end: nat)                                // the copier's half
    | BeginAt                                                    // an epoch opened
    | SaveAt                                                     // its delta saved

  ghost predicate CanDo(m: Machine, op: Op)
    requires Shaped(m)
  {
    match op
    case StoreAt(i, _) => i < |m.cells| && Tracked(m.cells[i].p.status)
    case ProtectAt(lo, hi, s) => lo <= hi <= |m.cells| && s != StFree
    case UnmapAt(lo, hi, _) => lo <= hi <= |m.cells| && AllTaken(m.cells, lo, hi)
    case MapAt(lo, hi, s, _) => lo <= hi <= |m.cells| && s != StFree
    case MoveAt(lo, count, to, n) =>
      count > 0 && lo + count <= |m.cells| && to + n <= |m.cells| && AllTaken(m.cells, lo, lo + count) && AllGiven(m.cells, to, to + n)
    case FillAt(from, end) => m.plan.Open? && from <= end <= |m.plan.list|
    case BeginAt => true
    case SaveAt => m.epochActive
  }

  ghost function Done(m: Machine, op: Op): Machine
    requires Shaped(m) && PlanShaped(m) && CanDo(m, op)
  {
    match op
    case StoreAt(i, bytes) => Overwritten(m, i, bytes)
    case ProtectAt(lo, hi, s) => Protect(m, lo, hi, s)
    case UnmapAt(lo, hi, adviseOnly) => Unmap(m, lo, hi, adviseOnly)
    case MapAt(lo, hi, s, zeroOverlap) => MapFixed(m, lo, hi, s, zeroOverlap)
    case MoveAt(lo, count, to, n) => MoveTo(m, lo, count, to, n)
    case FillAt(from, end) => TakeIn(m, Listed(m.plan.list, from, end))
    case BeginAt => EpochBegin(m)
    case SaveAt => SaveDelta(m).0
  }

  lemma DoneOwes(m: Machine, base: seq<PageBytes>, m0: Machine, op: Op)
    requires Owing(m, base, m0) && CanDo(m, op)
    ensures PlanShaped(m) && Owing(Done(m, op), base, m0)
  {
    hide PlanTrue, Quiet, CellsOk, Watched, Tight, Overwritten, Protect, Unmap, MapFixed, MoveTo, TakeIn, EpochBegin, SaveDelta;
    match op {
      case StoreAt(i, bytes) => StoreOwes(m, base, m0, i, bytes);
      case ProtectAt(lo, hi, s) => StepOwes(m, base, m0, Reprotect(lo, hi, s));
      case UnmapAt(lo, hi, adviseOnly) => UnmapOwes(m, base, m0, lo, hi, adviseOnly);
      case MapAt(lo, hi, s, zeroOverlap) => MapOwes(m, base, m0, lo, hi, s, zeroOverlap);
      case MoveAt(lo, count, to, n) => MoveOwes(m, base, m0, lo, count, to, n);
      case FillAt(from, end) => TakeInOwes(m, base, m0, Listed(m.plan.list, from, end));
      case BeginAt => StepOwes(m, base, m0, OpenEpoch);
      case SaveAt => StepOwes(m, base, m0, EmitDelta);
    }
  }

  /** Call after call can be made. */
  ghost predicate CanDoAll(m: Machine, ops: seq<Op>)
    decreases |ops|
  {
    ops == [] || (Shaped(m) && PlanShaped(m) && CanDo(m, ops[0]) && CanDoAll(Done(m, ops[0]), ops[1..]))
  }

  ghost function DoneAll(m: Machine, ops: seq<Op>): Machine
    requires CanDoAll(m, ops)
    decreases |ops|
  {
    if ops == [] then m else DoneAll(Done(m, ops[0]), ops[1..])
  }

  lemma {:induction false} AllOwe(m: Machine, base: seq<PageBytes>, m0: Machine, ops: seq<Op>)
    requires Owing(m, base, m0) && CanDoAll(m, ops)
    ensures Owing(DoneAll(m, ops), base, m0)
    decreases |ops|
  {
    hide Owing, Done, CanDo;
    if ops != [] {
      OwingShaped(m, base, m0);
      DoneOwes(m, base, m0, ops[0]);
      AllOwe(Done(m, ops[0]), base, m0, ops[1..]);
    }
  }

  lemma OwingShaped(m: Machine, base: seq<PageBytes>, m0: Machine)
    requires Owing(m, base, m0)
    ensures Shaped(m) && PlanShaped(m)
  {
  }

  /** A state asked for, any calls made, and the state finished: it is, to the
      byte, the state an immediate save would have written when it was asked for. */
  lemma CallsCapture(m0: Machine, base: seq<PageBytes>, blank: PageBytes, ops: seq<Op>)
    requires Inv(m0, base) && Quiet(m0.cells) && m0.plan.Idle? && CanDoAll(PlanState(m0, blank), ops)
    ensures var m := DoneAll(PlanState(m0, blank), ops);
            && PlanShaped(m) && m.plan.Open? && (forall k | 0 <= k < |m.plan.list| :: m.plan.list[k] < |m.cells|)
            && var t := TakeIn(m, Listed(m.plan.list, 0, |m.plan.list|));
               t.plan.Open? && PlanBuffer(t.plan) == SaveState(m0)
  {
    hide PlanState, CanDoAll, DoneAll, TakeIn, PlanBuffer, SaveState, CellsOk, Watched, Tight;
    PlanStarts(m0, base, blank);
    PlanKeeps(m0, base, blank);
    PlanQuiet(m0, base, blank);
    AllOwe(PlanState(m0, blank), base, m0, ops);
    FinishGives(DoneAll(PlanState(m0, blank), ops), base, m0);
  }
}
