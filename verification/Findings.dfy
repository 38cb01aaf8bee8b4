/** Machines the host can reach on which its own promises fail, each with the
    step at fault. The exact conditions are Restore.LoadWatched and
    Restore.ApplyWatched, Orphans.ReprotectOrphans, Orphans.LandOrphans and
    Orphans.TrustworthyExactly, Calls.MoveKeeps, Epochs.DeltaComplete,
    Strays.StrayUnrecorded and Tearing.ApplyUnderPlan. */
module Findings {
  import opened Pages
  import opened Machine
  import opened Deltas
  import opened Invariant
  import opened Restore
  import opened Runs
  import opened Epochs
  import opened Orphans
  import opened Capture
  import opened Tearing
  import opened Strays
  import Arena
  import Workings
  import Calls

  /** A page of a sealed block whose image is zeros, with nothing held. */
  function OpenCell(s: Status, d: bool, bytes: PageBytes): Cell {
    Cell(Page(s, d, false, ZeroSnap, false, false, false, 0, 0, None, Clear, 0), bytes, d && s == StRW, false)
  }

  /** One more step at the end of a run. */
  lemma RunThen(m: Machine, steps: seq<Step>, s: Step)
    requires Shaped(m) && CanRun(m, steps) && Enabled(Run(m, steps), s)
    ensures CanRun(m, steps + [s]) && Run(m, steps + [s]) == Next(Run(m, steps), s)
  {
    hide Run, CanRun, Next, Enabled;
    RunOne(Run(m, steps), s);
    RunConcat(m, steps, [s]);
  }

  /** A block sealed with nothing in it is as it was made. */
  lemma SealedEmpty(n: nat, group: nat)
    requires group > 0
    ensures Seal(NewMachine(n, group)) == NewMachine(n, group) && Inv(NewMachine(n, group), ZeroImage(n))
  {
    NewIsSound(n, group);
    var m := NewMachine(n, group);
    var r := Seal(m);
    assert r.cells == m.cells;
    assert r.os == m.os by {
      forall i | 0 <= i < n ensures GroupProt(r.cells, group, i) == NoAccess {
      }
    }
  }

  // ---- under grouped pages ----

  /** Two machine pages to a host page: one written, one read-only and clean. */
  function Pair(bytes: PageBytes): Machine {
    Machine([OpenCell(StRW, true, bytes), OpenCell(StR, false, Zeros())], 2, [ReadWrite, ReadWrite], false, 0, Idle)
  }

  /** Before the write. */
  function PairAsleep(): Machine {
    Machine([OpenCell(StRW, false, Zeros()), OpenCell(StR, false, Zeros())], 2, [Read, Read], false, 0, Idle)
  }

  function PairSteps(bytes: PageBytes): seq<Step> {
    [Reprotect(0, 1, StRW), Reprotect(1, 2, StR), Write(0, bytes, {})]
  }

  lemma SameHost(i: nat, j: nat)
    requires i < 2 && j < 2
    ensures SameGroup(2, i, j)
  {
  }

  lemma PairTouched(i: nat, k: nat)
    requires i < 2 && k < 2
    ensures Touches(2, i, k, k + 1)
  {
    SameHost(i, k);
  }

  /** The host page of a pair that only reads. */
  lemma PairReads(cells: seq<Cell>, os: seq<Prot>, k: nat)
    requires |cells| == |os| == 2 && k < 2 && NativeProt(cells[0].p) == Read && NativeProt(cells[1].p) in {NoAccess, Read}
    ensures RefreshOs(cells, 2, os, k, k + 1) == [Read, Read]
  {
    hide NativeProt;
    PairTouched(0, k);
    PairTouched(1, k);
    SameHost(0, 0);
    SameHost(1, 0);
    assert GroupReads(cells, 2, 0) && GroupReads(cells, 2, 1);
  }

  /** And of one whose first page may be written. */
  lemma PairWrites(cells: seq<Cell>, os: seq<Prot>, k: nat)
    requires |cells| == |os| == 2 && k < 2 && NativeProt(cells[0].p) == ReadWrite
    requires NativeProt(cells[1].p) == Read && !Tracked(cells[1].p.status)
    ensures RefreshOs(cells, 2, os, k, k + 1) == [ReadWrite, ReadWrite]
  {
    hide NativeProt;
    PairTouched(0, k);
    PairTouched(1, k);
    SameHost(0, 0);
    SameHost(1, 0);
    assert GroupWants(cells, 2, 0) && GroupWants(cells, 2, 1);
  }

  function PairHalf(): Machine {
    Machine([OpenCell(StRW, false, Zeros()), Cell(FRESH_PAGE, Zeros(), false, false)], 2, [Read, Read], false, 0, Idle)
  }

  lemma PairMapped()
    ensures Protect(NewMachine(2, 2), 0, 1, StRW) == PairHalf()
  {
    hide RefreshOs;
    var m := NewMachine(2, 2);
    var p := Protect(m, 0, 1, StRW);
    assert p.cells == PairHalf().cells;
    PairReads(p.cells, m.os, 0);
  }

  lemma PairMappedMore()
    ensures Protect(PairHalf(), 1, 2, StR) == PairAsleep()
  {
    hide RefreshOs;
    var p := Protect(PairHalf(), 1, 2, StR);
    assert p.cells == PairAsleep().cells;
    PairReads(p.cells, PairHalf().os, 1);
  }

  lemma PairWritten(bytes: PageBytes)
    ensures GuestWrite(PairAsleep(), 0, bytes, {}) == Pair(bytes)
  {
    hide RefreshOs;
    var m := PairAsleep();
    SameHost(0, 0);
    SameHost(0, 1);
    assert LetsGo(m.cells, 2, 0, {}, 0) && !LetsGo(m.cells, 2, 0, {}, 1);
    var t := Trip(m, 0, {});
    assert t.cells == [OpenCell(StRW, true, Zeros()), OpenCell(StR, false, Zeros())];
    PairWrites(t.cells, m.os, 0);
  }

  /** The pair is reached from a sealed block by two mappings and a write. */
  lemma PairReached(bytes: PageBytes)
    ensures Shaped(Seal(NewMachine(2, 2))) && CanRun(Seal(NewMachine(2, 2)), PairSteps(bytes))
    ensures Run(Seal(NewMachine(2, 2)), PairSteps(bytes)) == Pair(bytes)
    ensures Inv(Pair(bytes), ZeroImage(2)) && NoOrphans(Pair(bytes))
  {
    hide Protect, GuestWrite, Run, CanRun, Seal;
    SealedEmpty(2, 2);
    var m, s := NewMachine(2, 2), PairSteps(bytes);
    PairMapped();
    PairMappedMore();
    PairWritten(bytes);
    RunOne(m, s[0]);
    RunThen(m, [s[0]], s[1]);
    RunThen(m, [s[0]] + [s[1]], s[2]);
    assert s == [s[0]] + [s[1]] + [s[2]];
    RunKeeps(m, ZeroImage(2), s);
  }

  /** The same machine a moment after the guest made the second page writable. */
  function PairLater(bytes: PageBytes): State {
    State([StRW, StRW], [true, false], [bytes])
  }

  lemma PairLaterIs(bytes: PageBytes)
    ensures SaveState(Protect(Pair(bytes), 1, 2, StRW)) == PairLater(bytes)
  {
    var r := Protect(Pair(bytes), 1, 2, StRW);
    assert r.cells[0] == OpenCell(StRW, true, bytes) && r.cells[1].p.status == StRW && !r.cells[1].p.dirty;
    var bits := CarriedBits(r.cells);
    assert bits == [true, false];
    assert Picks(bits, 0) == [] && Picks(bits, 1) == [0] && Picks(bits, 2) == [0];
    assert StatusMap(r.cells) == [StRW, StRW] && DirtyMap(r.cells) == [true, false] && SaveState(r).data == [bytes];
  }

  lemma PairFits(bytes: PageBytes)
    ensures Fits(Pair(bytes).cells, PairLater(bytes))
  {
    var bits := BroughtBits(Pair(bytes).cells, PairLater(bytes).dirty);
    assert bits == [true, false];
    assert Picks(bits, 0) == [] && Picks(bits, 1) == [0] && Picks(bits, 2) == [0];
  }

  /** A hole in the watch: a page the guest may write, clean, which the OS lets
      be written without a fault - so a write to it enters no later state. */
  ghost predicate Hole(m: Machine, i: nat, bytes: PageBytes)
    requires Shaped(m) && i < |m.cells|
  {
    && Writable(m.os[i]) && Tracked(m.cells[i].p.status)
    && !GuestWrite(m, i, bytes, {}).cells[i].p.dirty && GuestWrite(m, i, bytes, {}).cells[i].mem == bytes
  }

  /** Loading a state in which a read-only page beside a written one has become
      writable leaves that host page writable. */
  lemma GroupedLoadLosesWrite(bytes: PageBytes)
    ensures SaveState(Protect(Pair(bytes), 1, 2, StRW)) == PairLater(bytes)
    ensures Fits(Pair(bytes).cells, PairLater(bytes)) && LoadOpens(Pair(bytes), PairLater(bytes), 2)
    ensures var r := LoadState(Pair(bytes), PairLater(bytes));
            !Watched(r) && Shaped(r) && |r.cells| == 2 && Hole(r, 1, bytes)
  {
    var m, st := Pair(bytes), PairLater(bytes);
    hide Protect, SaveState;
    PairReached(bytes);
    PairLaterIs(bytes);
    PairFits(bytes);
    PairOpens(bytes);
    LoadWatched(m, ZeroImage(2), st);
    PairLoaded(bytes);
  }

  lemma PairOpens(bytes: PageBytes)
    ensures LoadOpens(Pair(bytes), PairLater(bytes), 2)
  {
    var m, st := Pair(bytes), PairLater(bytes);
    SameHost(1, 1);
    assert ArmsInPlace(m.cells[1].p, st.status[1], LoadRecord(m.cells[1].p, st.status[1], st.dirty[1]).dirty);
    assert !LoadMoves(m, st, 2, 1) by {
      assert NativeProt(LoadRecord(m.cells[0].p, st.status[0], st.dirty[0])) == NativeProt(m.cells[0].p);
      assert NativeProt(LoadRecord(m.cells[1].p, st.status[1], st.dirty[1])) == NativeProt(m.cells[1].p);
    }
  }

  lemma PairLoaded(bytes: PageBytes)
    requires Fits(Pair(bytes).cells, PairLater(bytes))
    ensures var r := LoadState(Pair(bytes), PairLater(bytes));
            Shaped(r) && |r.cells| == 2 && Hole(r, 1, bytes)
  {
    var clear := EpochClear(Pair(bytes));
    assert clear.cells == Pair(bytes).cells;
    var cells := LoadedCells(clear.cells, PairLater(bytes));
    assert cells[1] == OpenCell(StRW, false, Zeros());
    assert !Moved(clear.cells, cells, 0) && !Moved(clear.cells, cells, 1);
    assert !GroupMoved(clear.cells, cells, 2, 1);
    var r := Swept(clear, cells);
    assert r.os[1] == ReadWrite && r.cells[1] == cells[1];
  }

  /** The delta of a frame in which the guest makes the second page writable. */
  ghost function PairDelta(bytes: PageBytes): Delta {
    SaveDelta(Protect(EpochBegin(Pair(bytes)), 1, 2, StRW)).1
  }

  lemma PairDeltaIs(bytes: PageBytes)
    ensures var d := PairDelta(bytes);
            && Find(d.status, 0) == None && Find(d.data, 0) == None
            && Find(d.status, 1) == Some(StRW) && Find(d.data, 1) == Some(Change(true, Zeros()))
  {
    hide RefreshOs, GroupProt, GroupUnheld;
    var e := EpochBegin(Pair(bytes));
    assert e.cells[1] == OpenCell(StR, false, Zeros()) && !e.cells[0].stat && !e.cells[0].p.epochDirty && !e.cells[0].p.hot;
    var m := Protect(e, 1, 2, StRW);
    assert m.cells[0] == e.cells[0] && !m.cells[1].p.hot;
    var c := CompareHot(m).cells;
    assert !c[0].stat && !c[0].p.epochDirty;
    assert c[1].stat && c[1].p.epochDirty && c[1].p.status == StRW && !c[1].p.dirty && c[1].mem == Zeros();
    DeltaOfFinds(c, 0);
    DeltaOfFinds(c, 1);
  }

  lemma PairPatched(bytes: PageBytes)
    ensures var r := ApplyDelta(Pair(bytes), PairDelta(bytes));
            ApplyOpens(Pair(bytes), PairDelta(bytes)) && Shaped(r) && |r.cells| == 2 && Hole(r, 1, bytes)
  {
    hide PairDelta;
    var m, d := Pair(bytes), PairDelta(bytes);
    PairDeltaIs(bytes);
    SameHost(1, 1);
    assert ApplyArms(m.cells[1].p, Find(d.status, 1), Find(d.data, 1));
    assert !Restamps(m.cells[0].p, Find(d.status, 0), Find(d.data, 0)) && !Restamps(m.cells[1].p, Find(d.status, 1), Find(d.data, 1));
    assert !ApplyMoves(m, d, 1);
    var c1 := Restatused(m.cells, d);
    assert c1 == [m.cells[0], OpenCell(StRW, false, Zeros())];
    assert !Moved(m.cells, c1, 0) && !Moved(m.cells, c1, 1);
    assert !GroupMoved(m.cells, c1, 2, 1);
    var m1 := Swept(m, c1);
    assert m1.cells == c1 && m1.os[1] == ReadWrite;
    var c2 := Patched(m1.cells, d);
    assert c2 == c1;
    assert !GroupMoved(m1.cells, c2, 2, 1);
  }

  /** Back at the frame's start, applying that delta leaves the same hole. */
  lemma GroupedApplyLosesWrite(bytes: PageBytes)
    ensures ApplyOpens(Pair(bytes), PairDelta(bytes))
    ensures var r := ApplyDelta(Pair(bytes), PairDelta(bytes));
            !Watched(r) && Shaped(r) && |r.cells| == 2 && Hole(r, 1, bytes)
  {
    hide PairDelta, ApplyDelta, Hole, ApplyOpens, Watched;
    PairReached(bytes);
    PairPatched(bytes);
    ApplyWatched(Pair(bytes), ZeroImage(2), PairDelta(bytes));
  }

  // ---- epochs that cannot be trusted ----

  /** Four pages, the first two mapped. */
  function Blocked(): Machine {
    var free := Cell(FRESH_PAGE, Zeros(), false, false);
    Machine([OpenCell(StRW, false, Zeros()), OpenCell(StRW, false, Zeros()), free, free], 1, [Read, Read, NoAccess, NoAccess], false, 0, Idle)
  }

  lemma BlockedReached()
    ensures Shaped(Seal(NewMachine(4, 1))) && CanRun(Seal(NewMachine(4, 1)), [Reprotect(0, 2, StRW)])
    ensures Run(Seal(NewMachine(4, 1)), [Reprotect(0, 2, StRW)]) == Blocked() && Inv(Blocked(), ZeroImage(4))
  {
    SealedEmpty(4, 1);
    var m := NewMachine(4, 1);
    var r := Protect(m, 0, 2, StRW);
    assert r.cells == Blocked().cells;
    forall i | 0 <= i < 4 ensures Touches(1, i, 0, 2) <==> i < 2 {
      if i < 2 { assert SameGroup(1, i, i); }
    }
    assert r.os == Blocked().os;
    assert r == Blocked();
    RunOne(m, Reprotect(0, 2, StRW));
    RunKeeps(m, ZeroImage(4), [Reprotect(0, 2, StRW)]);
  }

  /** A four-page block with its first two pages mapped. */
  predicate HalfMapped(m: Machine) {
    StatusMap(m.cells) == [StRW, StRW, StFree, StFree]
  }

  lemma HalfMappedPages(m: Machine)
    requires HalfMapped(m)
    ensures |m.cells| == 4 && m.cells[0].p.status == m.cells[1].p.status == StRW && m.cells[2].p.status == m.cells[3].p.status == StFree
  {
    var st := StatusMap(m.cells);
    assert |st| == |m.cells| && forall i | 0 <= i < |m.cells| :: st[i] == m.cells[i].p.status;
    assert st[0] == StRW && st[1] == StRW && st[2] == StFree && st[3] == StFree;
  }

  /** Its first page cannot grow where it is. */
  lemma GrowBlocked(m: Machine)
    requires HalfMapped(m)
    ensures Calls.RemapErr(PAGESIZE, m.cells, PAGESIZE, PAGESIZE, 2 * PAGESIZE) == Calls.EEXIST
  {
    hide Calls.PageRange;
    Ranges();
    HalfMappedPages(m);
  }

  lemma Ranges()
    ensures Calls.PageRange(PAGESIZE, 4, PAGESIZE, PAGESIZE) == Some((0, 1))
    ensures Calls.PageRange(PAGESIZE, 4, PAGESIZE, 2 * PAGESIZE) == Some((0, 2))
    ensures Calls.PageRange(PAGESIZE, 4, 3 * PAGESIZE, 2 * PAGESIZE) == Some((2, 2))
  {
  }

  lemma RoomAbove()
    ensures Arena.Placement([StRW, StRW, StFree, StFree], 2, 4, 2, Some(2))
  {
    assert Arena.FreeRun([StRW, StRW, StFree, StFree], 2, 4, 2, 4);
  }

  /** And the move finds room. */
  lemma MoveAnswers(m: Machine)
    requires HalfMapped(m) && Shaped(m) && PlanShaped(m)
    ensures |m.cells| == 4
    ensures Calls.Moves(PAGESIZE, m, PAGESIZE, PAGESIZE, 2 * PAGESIZE, 3 * PAGESIZE, 2 * PAGESIZE,
                        Calls.Ok, 3 * PAGESIZE, Calls.MoveTo(m, 0, 1, 2, 2))
  {
    hide Calls.PageRange, Calls.MoveTo, Arena.Placement;
    HalfMappedPages(m);
    Ranges();
    RoomAbove();
  }

  lemma MoveLands()
    ensures var r := Calls.LandRun(Blocked(), 0, 1, 2, 2);
            r.cells[2] == Landed(Cell(FRESH_PAGE, Zeros(), false, false), false, StRW, false, Zeros())
  {
    hide Calls.LandRun, Landed, Protect;
    var m := Blocked();
    Calls.LandRunStart(m, 0, 1, 2);
    Calls.LandRunStep(m, 0, 1, 2, 0);
    Calls.LandRunStep(m, 0, 1, 2, 1);
  }

  lemma MoveOrphans()
    ensures var m := Calls.MoveTo(Blocked(), 0, 1, 2, 2);
            Inv(m, ZeroImage(4)) && |m.cells| == 4 && Orphan(m.cells[2])
  {
    hide Calls.LandRun, Landed, Orphan, Calls.Unmap, CellsOk, Watched, Tight, Enrolled, Run, CanRun, Calls.Veiled;
    var m := Blocked();
    BlockedReached();
    BlockedReady();
    Calls.MoveKeeps(m, ZeroImage(4), 0, 1, 2, 2);
    Calls.UnmapElsewhere(Calls.LandRun(m, 0, 1, 2, 2), 0, 1, 2);
    MoveLands();
    LandOrphans(m.cells[2], Zeros(), false, StRW, false, Zeros());
  }

  lemma BlockedReady()
    ensures var m := Blocked();
            && HalfMapped(m) && Workings.Quiet(m.cells) && Calls.AllTaken(m.cells, 0, 1) && Calls.AllGiven(m.cells, 2, 4)
            && CellOk(m.cells[2], Zeros())
  {
    assert StatusMap(Blocked().cells) == [StRW, StRW, StFree, StFree];
  }

  /** mremap of a mapped page with no room to grow, moved by the host: from then
      on no epoch can be trusted. */
  lemma MoveCannotBeTrusted()
    ensures var m := Calls.MoveTo(Blocked(), 0, 1, 2, 2);
            Inv(m, ZeroImage(4)) && !Trustworthy(m)
    ensures Calls.RemapErr(PAGESIZE, Blocked().cells, PAGESIZE, PAGESIZE, 2 * PAGESIZE) == Calls.EEXIST
    ensures Calls.Moves(PAGESIZE, Blocked(), PAGESIZE, PAGESIZE, 2 * PAGESIZE, 3 * PAGESIZE, 2 * PAGESIZE,
                        Calls.Ok, 3 * PAGESIZE, Calls.MoveTo(Blocked(), 0, 1, 2, 2))
  {
    hide Calls.MoveTo, Calls.Moves, Trustworthy, Orphan;
    MoveOrphans();
    BlockedReady();
    GrowBlocked(Blocked());
    MoveAnswers(Blocked());
    OrphanUntrusted(Calls.MoveTo(Blocked(), 0, 1, 2, 2), ZeroImage(4), 2);
  }

  // ---- moves onto hidden pages ----

  /** A free page marked invisible before the seal. */
  function HiddenCell(): Cell {
    Cell(FRESH_PAGE.(dirty := true, invisible := true), Zeros(), false, false)
  }

  /** Four pages, the last two invisible. */
  function HalfHidden(): Machine {
    var free := Cell(FRESH_PAGE, Zeros(), false, false);
    Machine([free, free, HiddenCell(), HiddenCell()], 1, [NoAccess, NoAccess, NoAccess, NoAccess], false, 0, Idle)
  }

  /** ... and the first two mapped. */
  function Curtained(): Machine {
    Machine([OpenCell(StRW, false, Zeros()), OpenCell(StRW, false, Zeros()), HiddenCell(), HiddenCell()], 1,
            [Read, Read, NoAccess, NoAccess], false, 0, Idle)
  }

  lemma HalfHiddenIs()
    ensures Hide(NewMachine(4, 1), 2, 4) == HalfHidden() && Seal(HalfHidden()) == HalfHidden()
    ensures Inv(HalfHidden(), ZeroImage(4)) && Enrolled(HalfHidden())
  {
    NewIsSound(4, 1);
    HideKeeps(NewMachine(4, 1), 2, 4);
    var h := Hide(NewMachine(4, 1), 2, 4);
    assert h.cells == HalfHidden().cells;
    assert h.os == HalfHidden().os;
    var r := Seal(HalfHidden());
    assert r.cells == HalfHidden().cells;
    assert r.os == HalfHidden().os;
  }

  /** Reached from a sealed block by one mapping. */
  lemma CurtainedReached()
    ensures Shaped(Seal(HalfHidden())) && CanRun(Seal(HalfHidden()), [Reprotect(0, 2, StRW)])
    ensures Run(Seal(HalfHidden()), [Reprotect(0, 2, StRW)]) == Curtained()
    ensures Inv(Curtained(), ZeroImage(4)) && Enrolled(Curtained()) && NoOrphans(Curtained())
  {
    HalfHiddenIs();
    var m := HalfHidden();
    var r := Protect(m, 0, 2, StRW);
    assert r.cells == Curtained().cells;
    forall i | 0 <= i < 4 ensures Touches(1, i, 0, 2) <==> i < 2 {
      if i < 2 { assert SameGroup(1, i, i); }
    }
    assert r.os == Curtained().os;
    RunOne(m, Reprotect(0, 2, StRW));
    StepKeeps(m, ZeroImage(4), Reprotect(0, 2, StRW));
  }

  /** mremap of a mapped page with no room to grow, moved onto pages that were
      invisible: they are writable, visible and not hot, and not on the list of
      pages the next epoch holds. */
  lemma MoveUncovers()
    ensures Calls.RemapErr(PAGESIZE, Curtained().cells, PAGESIZE, PAGESIZE, 2 * PAGESIZE) == Calls.EEXIST
    ensures Calls.Moves(PAGESIZE, Curtained(), PAGESIZE, PAGESIZE, 2 * PAGESIZE, 3 * PAGESIZE, 2 * PAGESIZE,
                        Calls.Ok, 3 * PAGESIZE, Calls.MoveTo(Curtained(), 0, 1, 2, 2))
    ensures var m := Calls.MoveTo(Curtained(), 0, 1, 2, 2);
            Inv(m, ZeroImage(4)) && !Enrolled(m)
  {
    hide Calls.MoveTo, Calls.Moves, Enrolled, CellsOk, Watched, Tight, Workings.Quiet, Calls.AllTaken, Calls.AllGiven, Calls.Veiled,
         HalfMapped, Calls.RemapErr, NoOrphans, Run, CanRun;
    var m := Curtained();
    CurtainedReached();
    CurtainedReady();
    GrowBlocked(m);
    MoveAnswers(m);
    Calls.MoveKeeps(m, ZeroImage(4), 0, 1, 2, 2);
  }

  lemma CurtainedReady()
    ensures var m := Curtained();
            && HalfMapped(m) && Workings.Quiet(m.cells) && Calls.AllTaken(m.cells, 0, 1) && Calls.AllGiven(m.cells, 2, 4)
            && !Calls.Veiled(m.cells, 0, 1, 2, 2)
  {
    var m := Curtained();
    assert StatusMap(m.cells) == [StRW, StRW, StFree, StFree];
    assert Calls.UncoversAt(m.cells, 0, 1, 2, 0);
  }

  /** The same move inside a frame: which pages are visible is part of what a
      state shows, and the frame's delta does not bring it. */
  lemma VisibilityNotCarried(bytes: PageBytes)
    ensures var frame := [LandOn(2, StRW, false, bytes)];
            var start := EpochBegin(Curtained());
            && NoOrphans(Curtained()) && Shaped(start) && CanRun(start, frame) && InFrame(frame[0])
            && ApplyView(ViewOfMachine(Curtained()), SaveDelta(Run(start, frame)).1) != ViewOfMachine(Run(start, frame))
  {
    hide SaveDelta, ApplyView, ViewOfMachine, Landed;
    var m, frame := Curtained(), [LandOn(2, StRW, false, bytes)];
    CurtainedReached();
    BeginKeeps(m, ZeroImage(4));
    var start := EpochBegin(m);
    assert start.cells[2].p.status == StFree;
    RunOne(start, frame[0]);
    LandIsSwap(start, 2, StRW, false, bytes);
    Calls.LandedShows(start.cells[2], start.epochActive, StRW, false, bytes);
    assert m.cells[2].p.invisible && !Run(start, frame).cells[2].p.invisible;
    DeltaComplete(m, ZeroImage(4), frame);
  }

  /** The pair again: its read-only page can be written, and neither a state nor
      a delta tells. */
  lemma StrayLost(bytes: PageBytes, other: PageBytes)
    requires other != Zeros()
    ensures var m := Pair(bytes);
            var r := Store(m, 1, other);
            && Stray(m, 1) && SaveState(r) == SaveState(m) && SaveDelta(r).1 == SaveDelta(m).1
            && ViewOfMachine(r) != ViewOfMachine(m) && !Inv(r, ZeroImage(2))
  {
    hide SaveState, SaveDelta, ViewOfMachine, Inv;
    PairReached(bytes);
    StrayUnrecorded(Pair(bytes), ZeroImage(2), 1, other);
    StrayKeeps(Pair(bytes), ZeroImage(2), 1, other);
  }

  lemma ProtectAt(m: Machine, lo: nat, hi: nat, s: Status, i: nat)
    requires Shaped(m) && lo <= i < hi <= |m.cells|
    ensures |Protect(m, lo, hi, s).cells| == |m.cells|
    ensures Protect(m, lo, hi, s).cells[i] == Protected(m.cells[i], m.epochActive, s)
  {
  }

  /** A protection call on a page the plan still owes makes an orphan of it
      exactly under the condition of ReprotectOrphans; an epoch opened then
      cannot be trusted. */
  lemma PlannedReprotectOrphans(m: Machine, base: seq<PageBytes>, i: nat, s: Status)
    requires Inv(m, base) && m.epochActive && i < |m.cells| && m.cells[i].p.planHold == Owed && s != StFree
    requires Carried(m.cells[i]) && Tracked(m.cells[i].p.status) && Tracked(s) && s != m.cells[i].p.status
    requires !Orphan(m.cells[i])
    ensures var r := Protect(m, i, i + 1, s);
            |r.cells| == |m.cells| && Orphan(r.cells[i]) && Inv(r, base) && !Trustworthy(r)
  {
    hide Trustworthy, Protect, Protected, CellOk;
    assert CellOk(m.cells[i], base[i]);
    ProtectAt(m, i, i + 1, s, i);
    ReprotectOrphans(m.cells[i], base[i], true, s);
    ProtectKeeps(m, base, i, i + 1, s);
    OrphanUntrusted(Protect(m, i, i + 1, s), base, i);
  }

  // ---- one written page ----

  function One(c: Cell, os: Prot): Machine {
    Machine([c], 1, [os], false, 0, Idle)
  }

  function OneSteps(bytes: PageBytes): seq<Step> {
    [Reprotect(0, 1, StRW), Write(0, bytes, {})]
  }

  lemma OneAlone()
    ensures SameGroup(1, 0, 0) && Touches(1, 0, 0, 1)
  {
    assert SameGroup(1, 0, 0);
  }

  lemma OneMapped()
    ensures Protect(NewMachine(1, 1), 0, 1, StRW) == One(OpenCell(StRW, false, Zeros()), Read)
  {
    OneAlone();
    var p := Protect(NewMachine(1, 1), 0, 1, StRW);
    assert p.cells == [OpenCell(StRW, false, Zeros())] && p.os == [Read];
  }

  lemma OneWritten(bytes: PageBytes)
    ensures GuestWrite(One(OpenCell(StRW, false, Zeros()), Read), 0, bytes, {}) == One(OpenCell(StRW, true, bytes), ReadWrite)
  {
    OneAlone();
    var p := One(OpenCell(StRW, false, Zeros()), Read);
    assert LetsGo(p.cells, 1, 0, {}, 0);
    var t := Trip(p, 0, {});
    assert t.cells == [OpenCell(StRW, true, Zeros())] && t.os == [ReadWrite];
  }

  lemma OneReached(bytes: PageBytes)
    ensures Shaped(Seal(NewMachine(1, 1))) && CanRun(Seal(NewMachine(1, 1)), OneSteps(bytes))
    ensures Run(Seal(NewMachine(1, 1)), OneSteps(bytes)) == One(OpenCell(StRW, true, bytes), ReadWrite)
    ensures Inv(One(OpenCell(StRW, true, bytes), ReadWrite), ZeroImage(1))
  {
    hide Protect, GuestWrite, Run, CanRun, Seal;
    SealedEmpty(1, 1);
    OneMapped();
    OneWritten(bytes);
    var m, s := NewMachine(1, 1), OneSteps(bytes);
    RunOne(m, s[0]);
    RunThen(m, [s[0]], s[1]);
    assert s == [s[0]] + [s[1]];
    RunKeeps(m, ZeroImage(1), s);
  }

  /** A page written, an epoch opened, a state planned, the page made executable
      before it was copied: the next epoch's delta can lose a write. */
  lemma PlannedReprotectReached(bytes: PageBytes, blank: PageBytes)
    ensures var m := PlanState(EpochBegin(One(OpenCell(StRW, true, bytes), ReadWrite)), blank);
            && Inv(m, ZeroImage(1)) && |m.cells| == 1
            && Inv(Protect(m, 0, 1, StRWX), ZeroImage(1)) && !Trustworthy(Protect(m, 0, 1, StRWX))
  {
    hide Trustworthy, Protect;
    OneReached(bytes);
    var w := One(OpenCell(StRW, true, bytes), ReadWrite);
    var e := EpochBegin(w);
    BeginKeeps(w, ZeroImage(1));
    assert e.cells[0].p.held && e.cells[0].p.dirty;
    PlanKeeps(e, ZeroImage(1), blank);
    var m := PlanState(e, blank);
    assert m.cells[0].p.planHold == Owed && m.cells[0].p.held && m.cells[0].p.status == StRW;
    PlannedReprotectOrphans(m, ZeroImage(1), 0, StRWX);
  }

  /** A page written, a state planned, and a delta that brings the page other
      bytes applied before it was copied: however the copiers finish, the buffer
      is not the state that was asked for. */
  lemma ApplyTears(bytes: PageBytes, other: PageBytes, blank: PageBytes) returns (steps: seq<Step>)
    requires bytes != other
    ensures var m0 := One(OpenCell(StRW, true, bytes), ReadWrite);
            var d := Delta(1, [], [Entry(0, Change(false, other))]);
            var m := ApplyDelta(PlanState(m0, blank), d);
            && Shaped(m) && CanRun(m, steps) && (forall k | 0 <= k < |steps| :: Copies(steps[k])) && Debtless(Run(m, steps))
            && Run(m, steps).plan.Open? && PlanBuffer(Run(m, steps).plan) != SaveState(m0)
  {
    hide ApplyDelta, Run, CanRun, PlanBuffer, SaveState, PlanTrue;
    var m0 := One(OpenCell(StRW, true, bytes), ReadWrite);
    var d := Delta(1, [], [Entry(0, Change(false, other))]);
    OneReached(bytes);
    PlanStarts(m0, ZeroImage(1), blank);
    PlanKeeps(m0, ZeroImage(1), blank);
    var p := PlanState(m0, blank);
    assert p.cells[0].p.planHold == Owed && |p.cells| == 1;
    assert Find(d.data, 0) == Some(Change(false, other));
    assert other[0..] == other && bytes[0..] == bytes;
    assert !SparesPlan(p, m0, d);
    SoundPays(p, ZeroImage(1));
    AppliedPays(p, d);
    steps := CanSettle(ApplyDelta(p, d));
    ApplyUnderPlan(p, ZeroImage(1), m0, d, steps);
  }
}
