/** What a delta leaves out: a page no step of the frame touched is in neither
    of its lists. */
module Sparse {
  import opened Pages
  import opened Machine
  import opened Deltas
  import opened Invariant
  import opened Runs
  import opened Epochs
  import opened Orphans
  import opened History
  import opened Heat

  /** A step that may change page k or its record: a write to its host page, or a
      call on a range with the page in it. */
  predicate Touching(g: nat, s: Step, k: nat)
    requires g > 0
  {
    match s
    case Write(i, _, _) => SameGroup(g, i, k)
    case Reprotect(lo, hi, _) => lo <= k < hi
    case Release(lo, hi, _) => lo <= k < hi
    case LandOn(i, _, _, _) => i == k
    case _ => false
  }

  predicate Alike(c: Cell, d: Cell) {
    d.mem == c.mem && d.stat == c.stat && d.p.epochDirty == c.p.epochDirty && d.p.status == c.p.status && d.p.dirty == c.p.dirty
    && d.p.hot == c.p.hot && d.p.shadow == c.p.shadow
  }

  lemma HeldAlike(c: Cell, slot: nat)
    ensures Alike(c, PlanHeld(c, slot)) && Alike(c, Refreshed(c))
  {
    hide NativeProt;
  }

  lemma StepAlike(m: Machine, s: Step, k: nat)
    requires Shaped(m) && Enabled(m, s) && InFrame(s) && k < |m.cells| && !Touching(m.group, s, k)
    ensures |Next(m, s).cells| == |m.cells| && Next(m, s).group == m.group && Alike(m.cells[k], Next(m, s).cells[k])
  {
    hide RefreshOs, Protected, GivenBack, Landed, LetGo, PlanHeld, Refreshed, GroupProt, NativeProt, Picks;
    match s {
      case PlanNow(blank) => HeldAlike(m.cells[k], |Picks(CarriedBits(m.cells), k)|);
      case EndPlan => HeldAlike(m.cells[k], 0);
      case _ =>
    }
  }

  lemma {:induction false} RunAlike(m: Machine, steps: seq<Step>, k: nat)
    requires Shaped(m) && CanRun(m, steps) && k < |m.cells|
    requires forall j | 0 <= j < |steps| :: InFrame(steps[j]) && !Touching(m.group, steps[j], k)
    ensures |Run(m, steps).cells| == |m.cells| && Alike(m.cells[k], Run(m, steps).cells[k])
    decreases |steps|
  {
    hide Next, Enabled;
    if steps != [] {
      StepAlike(m, steps[0], k);
      RunAlike(Next(m, steps[0]), steps[1..], k);
    }
  }

  lemma OpenedBlank(m: Machine, k: nat)
    requires Shaped(m) && k < |m.cells|
    ensures var d := EpochBegin(m).cells[k];
            Shaped(EpochBegin(m)) && |EpochBegin(m).cells| == |m.cells| && EpochBegin(m).group == m.group && !d.p.epochDirty && !d.stat
            && (d.p.hot ==> d.p.shadow == Some(d.mem))
  {
    hide NativeProt, GroupProt;
  }

  /** A frame's delta says nothing about a page that no step of it touched. */
  lemma DeltaSparse(m: Machine, f: Frame, k: nat)
    requires Shaped(m) && Frameable(EpochBegin(m), f) && k < |m.cells|
    requires forall j | 0 <= j < |f| :: !Touching(m.group, f[j], k)
    ensures Find(FrameDelta(m, f).data, k) == None && Find(FrameDelta(m, f).status, k) == None
  {
    hide EpochBegin, DeltaOf, HeatBelow;
    OpenedBlank(m, k);
    RunAlike(EpochBegin(m), f, k);
    DeltaOfFinds(CompareHot(Run(EpochBegin(m), f)).cells, k);
  }

  /** A page compared, and not held, is left out when it ends as it began, however
      often it was written, unless a plan's hold made one of the writes fault. */
  lemma SameBytesLeftOut(m: Machine, f: Frame, k: nat)
    requires Shaped(m) && Frameable(EpochBegin(m), f) && k < |m.cells| && m.cells[k].p.hot
    requires k < |Before(m, f).cells| && Before(m, f).cells[k].p.hot && Before(m, f).cells[k].mem == m.cells[k].mem
    ensures Reported(FrameDelta(m, f), k) <==> Before(m, f).cells[k].p.epochDirty
  {
    hide EpochBegin, Room, FrameEnd, FrameDelta, Frameable, Before;
    FrameStill(m, f, k);
    FrameHeat(m, f, k);
  }

  /** A write fault leaves every page as it was but the tracked ones of its host
      page that are held, and the one written. */
  lemma TripSpares(m: Machine, i: nat, also: set<nat>, q: nat)
    requires Shaped(m) && i < |m.cells| && q < |m.cells|
    requires !SameGroup(m.group, i, q) || !Tracked(m.cells[q].p.status) || (q != i && q !in also && Writable(NativeProt(m.cells[q].p)))
    ensures |Trip(m, i, also).cells| == |m.cells| && Trip(m, i, also).cells[q] == m.cells[q]
  {
    hide LetGo, RefreshOs, NativeProt, SameGroup;
  }
}
