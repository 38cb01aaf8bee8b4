/** Delta completeness: what an open epoch knows about every page, kept by every
    step of a frame, and exactly when an epoch can be trusted. */
module Epochs {
  import opened Pages
  import opened Machine
  import opened Deltas
  import opened Invariant
  import opened Runs

  /** The open epoch's word about one page, against how it looked when the
      epoch opened: recorded as changed, or hot with that moment's bytes kept,
      or unchanged and unable to change without a fault. */
  predicate Accounted(c: Cell, v: PageView) {
    && (c.stat || c.p.status == v.status)
    && (v.Shown? && !c.p.epochDirty ==>
          && !c.p.invisible && c.p.status == v.status
          && c.p.dirty == v.dirty
          && (if c.p.hot then c.p.shadow == Some(v.bytes) else c.mem == v.bytes)
          && (Tracked(c.p.status) && !c.p.hot ==> !c.p.dirty || c.p.held))
  }

  ghost predicate EpochTrue(m: Machine, v: seq<PageView>) {
    |v| == |m.cells| && m.epochActive && forall i | 0 <= i < |v| :: Accounted(m.cells[i], v[i])
  }

  ghost predicate NoOrphans(m: Machine) {
    forall i | 0 <= i < |m.cells| :: !Orphan(m.cells[i])
  }

  // ---- opening ----

  lemma OpenedAccounts(c: Cell, base: PageBytes)
    requires CellOk(c, base) && !Orphan(c)
    ensures Accounted(Opened(c), ViewOf(c))
  {
  }

  lemma BeginTrue(m: Machine, base: seq<PageBytes>)
    requires Inv(m, base) && NoOrphans(m)
    ensures EpochTrue(EpochBegin(m), ViewOfMachine(m))
  {
    forall i | 0 <= i < |m.cells| ensures Accounted(EpochBegin(m).cells[i], ViewOfMachine(m)[i]) {
      OpenedAccounts(m.cells[i], base[i]);
    }
  }

  // ---- the steps of a frame, one page at a time ----

  lemma ProtectedAccounts(c: Cell, base: PageBytes, v: PageView, s: Status)
    requires CellOk(c, base) && Accounted(c, v)
    ensures Accounted(Protected(c, true, s), v)
  {
  }

  /** In the delta's status list, and in its data list unless it was invisible
      when the epoch opened. */
  predicate Recorded(c: Cell, v: PageView) {
    c.stat && (v.Shown? ==> c.p.epochDirty)
  }

  lemma NotedRecords(c: Cell, v: PageView, s: Status)
    requires Accounted(c, v) && c.p.status != s
    ensures Recorded(EpochNote(c, true, s), v)
  {
  }

  lemma EmptiedRecords(c: Cell, v: PageView)
    requires Accounted(c, v) && c.p.status != StFree
    ensures Recorded(Emptied(c, true), v)
  {
    NotedRecords(Snapshot(c), v, StFree);
    var noted := EpochNote(Snapshot(c), true, StFree);
    assert Recorded(noted, v);
  }

  lemma RecordedRefreshed(c: Cell, v: PageView)
    requires Recorded(c, v)
    ensures Recorded(Refreshed(c), v)
  {
  }

  lemma RecordedProtected(c: Cell, v: PageView, s: Status)
    requires Recorded(c, v)
    ensures Recorded(Protected(c, true, s), v)
  {
    var e := EpochNote(c, true, s);
    assert Recorded(e, v);
    RecordedRefreshed(NoteStatus(e, s), v);
  }

  lemma GivenBackAccounts(c: Cell, base: PageBytes, v: PageView, adviseOnly: bool)
    requires CellOk(c, base) && Accounted(c, v) && c.p.status != StFree
    ensures Accounted(GivenBack(c, true, adviseOnly), v)
  {
    hide Emptied, Refreshed, Protected;
    EmptiedRecords(c, v);
    RecordedRefreshed(Emptied(c, true), v);
    RecordedProtected(Emptied(c, true), v, StFree);
    assert Recorded(GivenBack(c, true, adviseOnly), v);
  }

  lemma LandedAccounts(c: Cell, v: PageView, s: Status, hidden: bool, bytes: PageBytes)
    requires Accounted(c, v) && c.p.status == StFree && s != StFree
    ensures Accounted(Landed(c, true, s, hidden, bytes), v)
  {
    NotedRecords(c, v, s);
    var n := NoteStatus(EpochNote(c, true, s), s);
    assert Recorded(n, v);
    RecordedRefreshed(n, v);
    assert Recorded(Landed(c, true, s, hidden, bytes), v);
  }

  lemma LetGoAccounts(c: Cell, base: PageBytes, v: PageView)
    requires CellOk(c, base) && Accounted(c, v) && Tracked(c.p.status)
    ensures Accounted(LetGo(c, true), v) && (v.Shown? ==> LetGo(c, true).p.epochDirty)
  {
  }

  lemma StoreAccounts(c: Cell, base: PageBytes, v: PageView, bytes: PageBytes)
    requires CellOk(c, base) && Accounted(c, v) && (v.Hidden? || c.p.epochDirty || c.p.hot)
    ensures Accounted(c.(mem := bytes), v)
  {
  }

  lemma RefreshedAccounts(c: Cell, base: PageBytes, v: PageView)
    requires CellOk(c, base) && Accounted(c, v)
    ensures Accounted(Refreshed(c), v)
  {
  }

  lemma PlanHeldAccounts(c: Cell, base: PageBytes, v: PageView, slot: nat)
    requires CellOk(c, base) && Accounted(c, v)
    ensures Accounted(PlanHeld(c, slot), v)
  {
  }

  predicate InFrame(s: Step) {
    !s.OpenEpoch? && !s.EmitDelta?
  }

  /** A faultless write lands on a page the epoch already has, or compares. */
  lemma WriteAccounts(m: Machine, base: seq<PageBytes>, v: seq<PageView>, i: nat, bytes: PageBytes, also: set<nat>)
    requires Inv(m, base) && EpochTrue(m, v) && i < |m.cells| && Tracked(m.cells[i].p.status)
    ensures EpochTrue(GuestWrite(m, i, bytes, also), v)
  {
    if Writable(m.os[i]) {
      NoUnrecordedWrite(m, base, i);
      StoreAccounts(m.cells[i], base[i], v[i], bytes);
    } else {
      var t := Trip(m, i, also);
      TripKeeps(m, base, i, also);
      forall q | 0 <= q < |m.cells| ensures Accounted(t.cells[q], v[q]) {
        if LetsGo(m.cells, m.group, i, also, q) {
          LetGoAccounts(m.cells[q], base[q], v[q]);
        }
      }
      assert LetsGo(m.cells, m.group, i, also, i);
      LetGoAccounts(m.cells[i], base[i], v[i]);
      LetGoOk(m.cells[i], base[i], m.epochActive);
      StoreAccounts(t.cells[i], base[i], v[i], bytes);
    }
  }

  lemma StepAccounts(m: Machine, base: seq<PageBytes>, v: seq<PageView>, s: Step)
    requires Inv(m, base) && EpochTrue(m, v) && InFrame(s) && Enabled(m, s)
    ensures EpochTrue(Next(m, s), v)
  {
    hide NativeProt, RefreshOs, GroupProt, Protected, GivenBack, Landed, PlanHeld, Refreshed, GuestWrite, CellOk, Watched, Tight;
    var r := Next(m, s);
    assert forall i | 0 <= i < |v| :: CellOk(m.cells[i], base[i]);
    match s
    case Write(i, bytes, also) =>
      WriteAccounts(m, base, v, i, bytes, also);
    case Reprotect(lo, hi, st) =>
      forall i | 0 <= i < |v| ensures Accounted(r.cells[i], v[i]) {
        ProtectedAccounts(m.cells[i], base[i], v[i], st);
      }
    case Release(lo, hi, a) =>
      forall i | 0 <= i < |v| ensures Accounted(r.cells[i], v[i]) {
        if lo <= i < hi { GivenBackAccounts(m.cells[i], base[i], v[i], a); }
      }
    case LandOn(i, st, hidden, bytes) =>
      LandedAccounts(m.cells[i], v[i], st, hidden, bytes);
    case PlanNow(blank) =>
      forall i | 0 <= i < |v| ensures Accounted(r.cells[i], v[i]) {
        PlanHeldAccounts(m.cells[i], base[i], v[i], |Picks(CarriedBits(m.cells), i)|);
      }
    case EndPlan =>
      forall i | 0 <= i < |v| ensures Accounted(r.cells[i], v[i]) {
        RefreshedAccounts(m.cells[i], base[i], v[i]);
      }
    case _ =>
  }

  lemma {:induction false} RunAccounts(m: Machine, base: seq<PageBytes>, v: seq<PageView>, steps: seq<Step>)
    requires Inv(m, base) && EpochTrue(m, v) && CanRun(m, steps)
    requires forall k | 0 <= k < |steps| :: InFrame(steps[k])
    ensures EpochTrue(Run(m, steps), v)
    decreases |steps|
  {
    if steps != [] {
      StepAccounts(m, base, v, steps[0]);
      StepKeeps(m, base, steps[0]);
      RunAccounts(Next(m, steps[0]), base, v, steps[1..]);
    }
  }

  // ---- closing ----

  lemma ComparedShows(c: Cell, base: PageBytes, v: PageView)
    requires CellOk(c, base) && Accounted(c, v)
    ensures var e := Compared(c);
            ApplyToView(v, if e.stat then Some(e.p.status) else None,
                        if e.p.epochDirty then Some(Change(!e.p.dirty, e.mem)) else None) == ViewOf(c)
            <==> v.Hidden? == c.p.invisible
    ensures ViewOf(Compared(c)) == ViewOf(c)
  {
  }

  lemma DeltaTrueAt(m: Machine, base: seq<PageBytes>, v: seq<PageView>, i: nat)
    requires Inv(m, base) && EpochTrue(m, v) && i < |v|
    ensures ApplyToView(v[i], Find(SaveDelta(m).1.status, i), Find(SaveDelta(m).1.data, i)) == ViewOf(m.cells[i])
            <==> v[i].Hidden? == m.cells[i].p.invisible
  {
    ComparedShows(m.cells[i], base[i], v[i]);
    DeltaOfFinds(CompareHot(m).cells, i);
  }

  lemma HeatedShows(c: Cell, epochNo: nat, room: bool)
    ensures ViewOf(Heated(c, epochNo, room)) == ViewOf(c)
  {
  }

  lemma SaveShowsAt(m: Machine, base: seq<PageBytes>, v: seq<PageView>, i: nat)
    requires Inv(m, base) && EpochTrue(m, v) && i < |v|
    ensures ViewOf(SaveDelta(m).0.cells[i]) == ViewOf(m.cells[i])
  {
    ComparedShows(m.cells[i], base[i], v[i]);
    HeatedShows(Compared(m.cells[i]), m.epochNo, true);
    HeatedShows(Compared(m.cells[i]), m.epochNo, false);
  }

  /** The view shows the pages the machine has visible. */
  predicate Sees(v: seq<PageView>, cells: seq<Cell>) {
    |v| == |cells| && forall i | 0 <= i < |v| :: v[i].Hidden? == cells[i].p.invisible
  }

  /** The delta of a true epoch, applied to the machine as the epoch found it,
      shows the machine as the epoch leaves it, unless the epoch has changed
      which pages are visible; saving it changes nothing seen. */
  lemma DeltaTrue(m: Machine, base: seq<PageBytes>, v: seq<PageView>)
    requires Inv(m, base) && EpochTrue(m, v)
    ensures ApplyView(v, SaveDelta(m).1) == ViewOfMachine(m) <==> Sees(v, m.cells)
    ensures ViewOfMachine(SaveDelta(m).0) == ViewOfMachine(m)
  {
    hide SaveDelta, ApplyToView, ViewOf, CellsOk, Watched, Tight, PlanOk, Accounted;
    var (r, d) := SaveDelta(m);
    SaveDeltaSize(m);
    forall i | 0 <= i < |v|
      ensures ApplyView(v, d)[i] == ViewOf(m.cells[i]) <==> v[i].Hidden? == m.cells[i].p.invisible
      ensures ViewOf(r.cells[i]) == ViewOf(m.cells[i])
    {
      DeltaTrueAt(m, base, v, i);
      SaveShowsAt(m, base, v, i);
    }
    var w := ViewOfMachine(m);
    assert forall i | 0 <= i < |v| :: w[i] == ViewOf(m.cells[i]);
    if !Sees(v, m.cells) {
      var i :| 0 <= i < |v| && v[i].Hidden? != m.cells[i].p.invisible;
      assert ApplyView(v, d)[i] != w[i];
    }
  }

  lemma SaveDeltaSize(m: Machine)
    ensures |SaveDelta(m).0.cells| == |m.cells|
  {
  }

  /** Delta completeness: from an epoch opened with no orphans, over any run of
      guest, copier and plan steps, the delta takes the machine's view at the
      start to its view at the end exactly when the same pages are visible: a
      delta says nothing about visibility, which a move can change. */
  lemma DeltaComplete(m: Machine, base: seq<PageBytes>, steps: seq<Step>)
    requires Inv(m, base) && NoOrphans(m) && CanRun(EpochBegin(m), steps)
    requires forall k | 0 <= k < |steps| :: InFrame(steps[k])
    ensures ApplyView(ViewOfMachine(m), SaveDelta(Run(EpochBegin(m), steps)).1) == ViewOfMachine(Run(EpochBegin(m), steps))
            <==> SameVisibility(m.cells, Run(EpochBegin(m), steps).cells)
  {
    hide Run, CanRun, SaveDelta, CellsOk, Watched, Tight, PlanOk, ApplyView, NoOrphans;
    BeginKeeps(m, base);
    BeginTrue(m, base);
    var r := Run(EpochBegin(m), steps);
    RunAccounts(EpochBegin(m), base, ViewOfMachine(m), steps);
    RunKeeps(EpochBegin(m), base, steps);
    DeltaTrue(r, base, ViewOfMachine(m));
    ViewSees(m, r.cells);
  }

  lemma ViewSees(m: Machine, cells: seq<Cell>)
    ensures Sees(ViewOfMachine(m), cells) <==> SameVisibility(m.cells, cells)
  {
  }
}
