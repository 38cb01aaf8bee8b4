/** Delta completeness as the host's calls make it: an epoch opened, any calls
    made, each with the copying and zeroing it does on the way, and the delta
    leads from the machine as it was to the machine as it is. */
module CallDeltas {
  import opened Pages
  import opened Machine
  import opened Deltas
  import opened Invariant
  import opened Runs
  import opened Epochs
  import opened Capture
  import opened Workings
  import opened Calls
  import opened Fills

  /** An open epoch that knows about every page, no copier at any. */
  ghost predicate Tracking(m: Machine, base: seq<PageBytes>, v: seq<PageView>) {
    Inv(m, base) && Quiet(m.cells) && EpochTrue(m, v)
  }

  lemma CaughtUpAccounts(c: Cell, v: PageView)
    requires Accounted(c, v)
    ensures Accounted(CaughtUp(c), v)
  {
  }

  lemma TakeInTracks(m: Machine, base: seq<PageBytes>, v: seq<PageView>, which: set<nat>)
    requires Tracking(m, base, v)
    ensures PlanShaped(m) && Tracking(TakeIn(m, which), base, v)
  {
    hide Watched, Tight, CellsOk, Accounted, CaughtUp, DestTaken;
    TakeInKeeps(m, base, which);
    TakeInQuiet(m, which);
    forall i | 0 <= i < |v| ensures Accounted(TakeIn(m, which).cells[i], v[i]) { CaughtUpAccounts(m.cells[i], v[i]); }
  }

  lemma StepTracks(m: Machine, base: seq<PageBytes>, v: seq<PageView>, s: Step)
    requires Tracking(m, base, v) && Enabled(m, s) && InFrame(s) && DuringPlan(s) && !Copies(s)
    ensures Tracking(Next(m, s), base, v)
  {
    hide Next, Enabled, EpochTrue, CellsOk, Watched, Tight, PlanOk;
    StepKeeps(m, base, s);
    NextSize(m, base, s);
    StepAccounts(m, base, v, s);
    forall i | 0 <= i < |m.cells| ensures Undisturbed(m.cells[i], Next(m, s).cells[i]) { OthersQuiet(m, base, s, i); }
  }

  lemma UnmapTracks(m: Machine, base: seq<PageBytes>, v: seq<PageView>, lo: nat, hi: nat, adviseOnly: bool)
    requires Tracking(m, base, v) && lo <= hi <= |m.cells| && AllTaken(m.cells, lo, hi)
    ensures PlanShaped(m) && Tracking(Unmap(m, lo, hi, adviseOnly), base, v)
  {
    hide Watched, Tight, CellsOk, EpochTrue, GiveBack, DestTaken;
    TakeInTracks(m, base, v, Range(lo, hi));
    TakeInQuiet(m, Range(lo, hi));
    StepTracks(TakeIn(m, Range(lo, hi)), base, v, Release(lo, hi, adviseOnly));
  }

  /** A page mapped over: what it held goes, and the epoch hears of it. */
  lemma OverlaidAccounts(c: Cell, base: PageBytes, v: PageView, s: Status)
    requires CellOk(c, base) && Accounted(c, v) && !c.p.planHold.Copying?
    ensures Accounted(Protected(Overlaid(c, true), true, s), v)
  {
    hide Protected, GivenBack, Accounted, CellOk;
    if c.p.status == StFree {
      ProtectedAccounts(c, base, v, s);
    } else {
      var t := CaughtUp(c);
      CaughtUpAccounts(c, v);
      CaughtUpOk(c, base);
      GivenBackAccounts(t, base, v, true);
      GivenBackOk(t, base, true, true);
      ProtectedAccounts(GivenBack(t, true, true), base, v, s);
    }
  }

  lemma OverlapTracks(m: Machine, base: seq<PageBytes>, v: seq<PageView>, lo: nat, hi: nat, s: Status)
    requires Tracking(m, base, v) && lo <= hi <= |m.cells| && s != StFree
    ensures PlanShaped(m) && Tracking(MapFixed(m, lo, hi, s, true), base, v)
  {
    hide Watched, Tight, CellOk, Accounted, DestTaken, TakenIn, Overlaid, Protected, RefreshOs, CaughtUp;
    MapFixedKeeps(m, base, lo, hi, s, true);
    var r := MapFixed(m, lo, hi, s, true);
    forall i | 0 <= i < |v| ensures Accounted(r.cells[i], v[i]) {
      assert CellOk(m.cells[i], base[i]);
      OverlaidAccounts(m.cells[i], base[i], v[i], s);
    }
  }

  lemma MapTracks(m: Machine, base: seq<PageBytes>, v: seq<PageView>, lo: nat, hi: nat, s: Status, zeroOverlap: bool)
    requires Tracking(m, base, v) && lo <= hi <= |m.cells| && s != StFree
    ensures PlanShaped(m) && Tracking(MapFixed(m, lo, hi, s, zeroOverlap), base, v)
  {
    if zeroOverlap {
      OverlapTracks(m, base, v, lo, hi, s);
    } else {
      hide EpochTrue, Protect, CellsOk, Watched, Tight;
      StepTracks(m, base, v, Reprotect(lo, hi, s));
    }
  }

  lemma {:induction false} LandRunTracks(m: Machine, base: seq<PageBytes>, v: seq<PageView>, lo: nat, count: nat, to: nat, k: nat)
    requires Tracking(m, base, v) && count > 0 && lo + count <= |m.cells| && to + k <= |m.cells|
    requires AllTaken(m.cells, lo, lo + count) && AllGiven(m.cells, to, to + k)
    ensures Tracking(LandRun(m, lo, count, to, k), base, v)
    decreases k
  {
    hide EpochTrue, Quiet, Land, LandRun, CellsOk, Watched, Tight, PlanOk;
    if k == 0 {
      LandRunStart(m, lo, count, to);
    } else {
      LandRunTracks(m, base, v, lo, count, to, k - 1);
      LandRunStep(m, lo, count, to, k - 1);
      var r, c := LandRun(m, lo, count, to, k - 1), m.cells[MoveSource(lo, count, k - 1)];
      StepTracks(r, base, v, LandOn(to + k - 1, c.p.status, c.p.invisible, if k - 1 < count then c.mem else Zeros()));
    }
  }

  lemma MoveTracks(m: Machine, base: seq<PageBytes>, v: seq<PageView>, lo: nat, count: nat, to: nat, n: nat)
    requires Tracking(m, base, v) && count > 0 && lo + count <= |m.cells| && to + n <= |m.cells|
    requires AllTaken(m.cells, lo, lo + count) && AllGiven(m.cells, to, to + n)
    ensures PlanShaped(m) && Tracking(MoveTo(m, lo, count, to, n), base, v)
  {
    hide EpochTrue, Quiet, LandRun, Unmap, CellsOk, Watched, Tight;
    LandRunTracks(m, base, v, lo, count, to, n);
    LandedElsewhere(m, lo, count, to, n);
    UnmapTracks(LandRun(m, lo, count, to, n), base, v, lo, lo + count, false);
  }

  lemma StoreTracks(m: Machine, base: seq<PageBytes>, v: seq<PageView>, i: nat, bytes: PageBytes)
    requires Tracking(m, base, v) && i < |m.cells| && Tracked(m.cells[i].p.status)
    ensures PlanShaped(m) && Tracking(Overwritten(m, i, bytes), base, v)
  {
    hide EpochTrue, Quiet, CellsOk, Watched, Tight, HeldBelow, GuestWrite, LetsGo, TakeIn;
    if Writable(m.os[i]) {
      TakeInNone(m);
      StepTracks(m, base, v, Write(i, bytes, {}));
    } else {
      var which := HeldBelow(m.cells, m.group, i, |m.cells|);
      FaultReady(m, base, i);
      TakeInTracks(m, base, v, which);
      StepTracks(TakeIn(m, which), base, v, Write(i, bytes, which));
    }
  }

  /** A call of the frame, not one that opens or closes it. */
  predicate WithinFrame(op: Op) {
    !op.BeginAt? && !op.SaveAt?
  }

  lemma DoneTracks(m: Machine, base: seq<PageBytes>, v: seq<PageView>, op: Op)
    requires Tracking(m, base, v) && CanDo(m, op) && WithinFrame(op)
    ensures PlanShaped(m) && Tracking(Done(m, op), base, v)
  {
    hide EpochTrue, Quiet, CellsOk, Watched, Tight, Overwritten, Protect, Unmap, MapFixed, MoveTo, TakeIn;
    match op {
      case StoreAt(i, bytes) => StoreTracks(m, base, v, i, bytes);
      case ProtectAt(lo, hi, s) => StepTracks(m, base, v, Reprotect(lo, hi, s));
      case UnmapAt(lo, hi, adviseOnly) => UnmapTracks(m, base, v, lo, hi, adviseOnly);
      case MapAt(lo, hi, s, zeroOverlap) => MapTracks(m, base, v, lo, hi, s, zeroOverlap);
      case MoveAt(lo, count, to, n) => MoveTracks(m, base, v, lo, count, to, n);
      case FillAt(from, end) => TakeInTracks(m, base, v, Listed(m.plan.list, from, end));
    }
  }

  lemma {:induction false} AllTrack(m: Machine, base: seq<PageBytes>, v: seq<PageView>, ops: seq<Op>)
    requires Tracking(m, base, v) && CanDoAll(m, ops) && forall k | 0 <= k < |ops| :: WithinFrame(ops[k])
    ensures Tracking(DoneAll(m, ops), base, v)
    decreases |ops|
  {
    hide Tracking, Done, CanDo;
    if ops != [] {
      TrackingShaped(m, base, v);
      DoneTracks(m, base, v, ops[0]);
      AllTrack(Done(m, ops[0]), base, v, ops[1..]);
    }
  }

  lemma TrackingShaped(m: Machine, base: seq<PageBytes>, v: seq<PageView>)
    requires Tracking(m, base, v)
    ensures Shaped(m) && PlanShaped(m)
  {
  }

  /** From an epoch opened with no orphan, whatever calls are made, the delta takes
      what the machine showed to what it shows, if and only if the same pages are
      visible. */
  lemma CallsDelta(m: Machine, base: seq<PageBytes>, ops: seq<Op>)
    requires Inv(m, base) && Quiet(m.cells) && NoOrphans(m) && CanDoAll(EpochBegin(m), ops)
    requires forall k | 0 <= k < |ops| :: WithinFrame(ops[k])
    ensures var r := DoneAll(EpochBegin(m), ops);
            ApplyView(ViewOfMachine(m), SaveDelta(r).1) == ViewOfMachine(r) <==> SameVisibility(m.cells, r.cells)
  {
    hide CanDoAll, DoneAll, EpochBegin, SaveDelta, CellsOk, Watched, Tight, PlanOk, ApplyView, NoOrphans;
    BeginKeeps(m, base);
    BeginTrue(m, base);
    BeginQuiet(m, base);
    AllTrack(EpochBegin(m), base, ViewOfMachine(m), ops);
    var r := DoneAll(EpochBegin(m), ops);
    DeltaTrue(r, base, ViewOfMachine(m));
    ViewSees(m, r.cells);
  }
}
