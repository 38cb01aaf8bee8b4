/** Which pages are compared instead of held, frame by frame: a page reported
    three frames in a row goes hot, if there is room for another; one that has
    not changed for eight is held again. */
module Heat {
  import opened Pages
  import opened Machine
  import opened Deltas
  import opened Invariant
  import opened Runs
  import opened Epochs
  import opened Orphans
  import opened History

  // ---- between two deltas ----

  /** A page that is not hot keeps its count and stays so; a hot one keeps its
      count and its copy as long as it is hot. */
  predicate Still(c: Cell, d: Cell) {
    && d.p.seen == c.p.seen
    && (!c.p.hot ==> !d.p.hot && d.p.heat == c.p.heat)
    && (c.p.hot && d.p.hot ==> d.p.heat == c.p.heat && d.p.shadow == c.p.shadow)
  }

  lemma ProtectedStill(c: Cell, active: bool, s: Status)
    ensures Still(c, Protected(c, active, s))
  {
    hide NativeProt;
  }

  lemma EmptiedStill(c: Cell, active: bool)
    ensures Still(c, Emptied(c, active))
  {
    hide Snapshot, EpochNote, SetDirty, ZeroAlready;
    var s := Snapshot(c);
    SnapshotStill(c);
    NotedStill(s, active, StFree);
    var n := EpochNote(s, active, StFree);
    var z := if ZeroAlready(n) then n else n.(mem := Zeros());
    DirtyStill(z, !z.p.invisible && z.p.snap != ZeroSnap);
  }

  lemma SnapshotStill(c: Cell)
    ensures Still(c, Snapshot(c))
  {
  }

  lemma NotedStill(c: Cell, active: bool, to: Status)
    ensures Still(c, EpochNote(c, active, to))
  {
  }

  lemma DirtyStill(c: Cell, d: bool)
    ensures Still(c, SetDirty(c, d))
  {
  }

  lemma GivenBackStill(c: Cell, active: bool, adviseOnly: bool)
    ensures Still(c, GivenBack(c, active, adviseOnly))
  {
    hide NativeProt, Emptied, Protected;
    EmptiedStill(c, active);
    ProtectedStill(Emptied(c, active), active, StFree);
  }

  lemma LandedStill(c: Cell, active: bool, s: Status, hidden: bool, bytes: PageBytes)
    ensures Still(c, Landed(c, active, s, hidden, bytes))
  {
    hide Protected;
    ProtectedStill(c, active, s);
  }

  lemma LetGoStill(c: Cell, active: bool)
    ensures Still(c, LetGo(c, active))
  {
  }

  lemma HeldStill(c: Cell, slot: nat)
    ensures Still(c, PlanHeld(c, slot)) && Still(c, Refreshed(c))
  {
    hide NativeProt;
  }

  lemma WriteStill(m: Machine, i: nat, bytes: PageBytes, also: set<nat>, k: nat)
    requires Shaped(m) && i < |m.cells| && k < |m.cells|
    ensures |GuestWrite(m, i, bytes, also).cells| == |m.cells| && Still(m.cells[k], GuestWrite(m, i, bytes, also).cells[k])
  {
    hide RefreshOs, LetGo, LetsGo;
    LetGoStill(m.cells[k], m.epochActive);
  }

  lemma StepStill(m: Machine, s: Step, k: nat)
    requires Shaped(m) && Enabled(m, s) && InFrame(s) && k < |m.cells|
    ensures |Next(m, s).cells| == |m.cells| && Next(m, s).epochNo == m.epochNo && Still(m.cells[k], Next(m, s).cells[k])
  {
    hide RefreshOs, Protected, GivenBack, Landed, LetGo, PlanHeld, Refreshed, GroupProt, NativeProt, Picks;
    var c := m.cells[k];
    match s {
      case Write(i, bytes, also) => WriteStill(m, i, bytes, also, k);
      case Reprotect(lo, hi, st) => ProtectedStill(c, m.epochActive, st);
      case Release(lo, hi, a) => GivenBackStill(c, m.epochActive, a);
      case LandOn(i, st, hidden, bytes) => LandedStill(c, m.epochActive, st, hidden, bytes);
      case PlanNow(blank) => HeldStill(c, |Picks(CarriedBits(m.cells), k)|);
      case EndPlan => HeldStill(c, 0);
      case _ =>
    }
  }

  lemma {:induction false} RunStill(m: Machine, steps: seq<Step>, k: nat)
    requires Shaped(m) && CanRun(m, steps) && (forall j | 0 <= j < |steps| :: InFrame(steps[j])) && k < |m.cells|
    ensures |Run(m, steps).cells| == |m.cells| && Run(m, steps).epochNo == m.epochNo && Still(m.cells[k], Run(m, steps).cells[k])
    decreases |steps|
  {
    hide Next, Enabled;
    if steps != [] {
      StepStill(m, steps[0], k);
      RunStill(Next(m, steps[0]), steps[1..], k);
    }
  }

  // ---- how many are hot ----

  lemma {:induction false} CountSet(cells: seq<Cell>, k: nat, c: Cell)
    requires k < |cells|
    ensures CountHot(cells[k := c]) + (if cells[k].p.hot then 1 else 0) == CountHot(cells) + (if c.p.hot then 1 else 0)
    decreases |cells|
  {
    var n := |cells| - 1;
    if k == n {
      assert cells[k := c][..n] == cells[..n];
    } else {
      CountSet(cells[..n], k, c);
      assert cells[k := c][..n] == cells[..n][k := c];
    }
  }

  /** Heating only adds, and stops where there is no room. */
  lemma {:induction false} HeatAdds(cells: seq<Cell>, epochNo: nat, a: nat, b: nat)
    requires a <= b <= |cells|
    ensures CountHot(HeatBelow(cells, epochNo, a)) <= CountHot(HeatBelow(cells, epochNo, b))
    ensures CountHot(HeatBelow(cells, epochNo, a)) <= HOT_MOST ==> CountHot(HeatBelow(cells, epochNo, b)) <= HOT_MOST
    decreases b
  {
    hide Heated, CountHot;
    if a < b {
      var rest := HeatBelow(cells, epochNo, b - 1);
      HeatAdds(cells, epochNo, a, b - 1);
      var c := Heated(rest[b - 1], epochNo, CountHot(rest) < HOT_MOST);
      CountSet(rest, b - 1, c);
      HeatedHot(rest[b - 1], epochNo, CountHot(rest) < HOT_MOST);
    }
  }

  lemma HeatedHot(c: Cell, epochNo: nat, room: bool)
    ensures c.p.hot ==> Heated(c, epochNo, room).p.hot
    ensures !c.p.hot && !room ==> !Heated(c, epochNo, room).p.hot
  {
  }

  /** What heating leaves of one page. */
  lemma {:induction false} HeatsOne(cells: seq<Cell>, epochNo: nat, i: nat, k: nat)
    requires i < k <= |cells|
    ensures HeatBelow(cells, epochNo, k)[i] == Heated(cells[i], epochNo, CountHot(HeatBelow(cells, epochNo, i)) < HOT_MOST)
    decreases k
  {
    hide Heated, CountHot;
    if i < k - 1 { HeatsOne(cells, epochNo, i, k - 1); }
  }

  // ---- a frame ----

  /** The machine when the frame's delta is asked for. */
  ghost function Before(m: Machine, f: Frame): (b: Machine)
    requires Shaped(m) && Frameable(EpochBegin(m), f)
  {
    Run(EpochBegin(m), f)
  }

  predicate Reported(d: Delta, i: nat) {
    Find(d.data, i).Some?
  }

  /** May be compared from now on: the guest writes it, a state carries it, and
      it is mapped writable and listed so. */
  predicate Eligible(c: Cell) {
    !c.p.invisible && c.p.dirty && (c.p.status == StRW || c.p.status == StRWX) && c.unheld
  }

  /** Room for page i, once the pages before it have had their turn. */
  predicate Room(b: Machine, i: nat)
    requires i < |b.cells|
  {
    CountHot(HeatBelow(CompareHot(b).cells, b.epochNo, i)) < HOT_MOST
  }

  /** How many frames in a row, up to the last, a page has been reported. */
  function InARow(m: Machine, i: nat): nat
    requires i < |m.cells|
  {
    if m.cells[i].p.seen == m.epochNo then m.cells[i].p.heat else 0
  }

  lemma OpenedHeat(m: Machine, i: nat)
    requires Shaped(m) && i < |m.cells|
    ensures var c, d := m.cells[i], EpochBegin(m).cells[i];
            && d.p.hot == c.p.hot && d.p.heat == c.p.heat && d.p.seen == c.p.seen && d.mem == c.mem
            && (c.p.hot ==> d.p.shadow == Some(c.mem))
    ensures Shaped(EpochBegin(m)) && |EpochBegin(m).cells| == |m.cells| && EpochBegin(m).epochNo == (m.epochNo + 1) % 65536
  {
    hide NativeProt, GroupProt;
  }

  /** What a frame leaves of a page until its delta is asked for. */
  lemma FrameStill(m: Machine, f: Frame, i: nat)
    requires Shaped(m) && Frameable(EpochBegin(m), f) && i < |m.cells|
    ensures var b := Before(m, f);
            && |b.cells| == |m.cells| && b.epochNo == (m.epochNo + 1) % 65536 && b.cells[i].p.seen == m.cells[i].p.seen
            && (!m.cells[i].p.hot ==> !b.cells[i].p.hot && b.cells[i].p.heat == m.cells[i].p.heat)
            && (m.cells[i].p.hot && b.cells[i].p.hot ==>
                  b.cells[i].p.heat == m.cells[i].p.heat && b.cells[i].p.shadow == Some(m.cells[i].mem))
  {
    hide EpochBegin, SameVisibility;
    OpenedHeat(m, i);
    RunStill(EpochBegin(m), f, i);
  }

  /** What saving a delta leaves of a page, and says of it. */
  lemma SavedPage(b: Machine, i: nat)
    requires i < |b.cells|
    ensures var (r, d) := SaveDelta(b);
            && |r.cells| == |b.cells| && r.epochNo == b.epochNo
            && r.cells[i] == Heated(Compared(b.cells[i]), b.epochNo, Room(b, i))
            && (Reported(d, i) <==> Compared(b.cells[i]).p.epochDirty)
  {
    hide Compared, Heated, CountHot, DeltaOf;
    var c := CompareHot(b);
    HeatsOne(c.cells, b.epochNo, i, |c.cells|);
    DeltaOfFinds(c.cells, i);
  }

  lemma FrameHeat(m: Machine, f: Frame, i: nat)
    requires Shaped(m) && Frameable(EpochBegin(m), f) && i < |m.cells|
    ensures var b := Before(m, f);
            && |b.cells| == |m.cells| == |FrameEnd(m, f).cells| && b.epochNo == (m.epochNo + 1) % 65536 == FrameEnd(m, f).epochNo
            && FrameEnd(m, f).cells[i] == Heated(Compared(b.cells[i]), b.epochNo, Room(b, i))
            && (Reported(FrameDelta(m, f), i) <==> Compared(b.cells[i]).p.epochDirty)
  {
    hide EpochBegin, SaveDelta, Compared, Heated, Room, Frameable, Run;
    FrameStill(m, f, i);
    SavedPage(Before(m, f), i);
  }

  /** A page that is not hot, over one frame: reported, it has been so one frame
      more in a row, and goes hot exactly from the third on, if it may and there
      is room; not reported, nothing changes, and the row is over. */
  lemma FrameWarms(m: Machine, f: Frame, i: nat)
    requires Shaped(m) && Frameable(EpochBegin(m), f) && i < |m.cells| && !m.cells[i].p.hot && m.epochNo < 65536
    ensures var b, r := Before(m, f), FrameEnd(m, f);
            && i < |b.cells| == |r.cells| == |m.cells| && r.epochNo < 65536
            && (r.cells[i].p.hot <==>
                  Reported(FrameDelta(m, f), i) && InARow(m, i) + 1 >= HOT_AFTER && Eligible(b.cells[i]) && Room(b, i))
            && (!r.cells[i].p.hot && InARow(m, i) < 255 ==>
                  InARow(r, i) == if Reported(FrameDelta(m, f), i) then InARow(m, i) + 1
                                  else if m.cells[i].p.seen == r.epochNo then m.cells[i].p.heat else 0)
  {
    hide EpochBegin, Room, FrameEnd, FrameDelta, Frameable, Before;
    FrameStill(m, f, i);
    FrameHeat(m, f, i);
  }

  /** Three frames in a row that report a page, the one before them not: it is
      hot after the third, and not sooner, exactly if it may be and there is
      room. */
  lemma ThirdReport(m: Machine, f: Frame, g: Frame, h: Frame, i: nat)
    requires Shaped(m) && i < |m.cells| && !m.cells[i].p.hot && InARow(m, i) == 0 && m.epochNo < 65536
    requires Frameable(EpochBegin(m), f) && Reported(FrameDelta(m, f), i)
    requires var m1 := FrameEnd(m, f); Frameable(EpochBegin(m1), g) && Reported(FrameDelta(m1, g), i)
    requires var m2 := FrameEnd(FrameEnd(m, f), g); Frameable(EpochBegin(m2), h) && Reported(FrameDelta(m2, h), i)
    ensures var m1 := FrameEnd(m, f);
            var m2 := FrameEnd(m1, g);
            var m3, b := FrameEnd(m2, h), Before(m2, h);
            && i < |m1.cells| == |m2.cells| == |m3.cells| == |b.cells|
            && !m1.cells[i].p.hot && !m2.cells[i].p.hot && (m3.cells[i].p.hot <==> Eligible(b.cells[i]) && Room(b, i))
  {
    hide EpochBegin, Room, FrameEnd, FrameDelta, Frameable, Before, Eligible, Reported;
    FrameWarms(m, f, i);
    var m1 := FrameEnd(m, f);
    FrameWarms(m1, g, i);
    FrameWarms(FrameEnd(m1, g), h, i);
  }

  /** No page is turned away while there is room, and no more are ever hot. */
  lemma RoomForAll(m: Machine, f: Frame, i: nat)
    requires Shaped(m) && Frameable(EpochBegin(m), f) && i < |m.cells|
    ensures var b, r := Before(m, f), FrameEnd(m, f);
            && i < |b.cells| && (CountHot(r.cells) < HOT_MOST ==> Room(b, i))
            && (CountHot(CompareHot(b).cells) <= HOT_MOST ==> CountHot(r.cells) <= HOT_MOST)
  {
    hide EpochBegin, Frameable, CountHot, Compared, DeltaOf;
    FrameHeat(m, f, i);
    var b := Before(m, f);
    var c := CompareHot(b).cells;
    HeatAdds(c, b.epochNo, i, |c|);
    HeatAdds(c, b.epochNo, 0, |c|);
  }

  // ---- hot, and cold again ----

  /** A hot page is never made to fault for the epoch's sake. */
  lemma HotIsWritable(c: Cell)
    requires Coherent(c) && c.p.hot && c.p.planHold == Clear
    ensures Writable(NativeProt(c.p)) && !Armed(c.p)
  {
  }

  /** A page hot from one frame's start to its end: changed, it is reported and
      its count starts again; not changed, it counts one quiet frame more, and
      cools at the eighth. */
  lemma FrameCools(m: Machine, f: Frame, i: nat)
    requires Shaped(m) && Frameable(EpochBegin(m), f) && i < |m.cells| && m.cells[i].p.hot
    requires i < |Before(m, f).cells| && Before(m, f).cells[i].p.hot
    ensures var r := FrameEnd(m, f);
            && i < |r.cells|
            && (if Before(m, f).cells[i].mem != m.cells[i].mem then
                  Reported(FrameDelta(m, f), i) && r.cells[i].p.hot && r.cells[i].p.heat == 0
                else if m.cells[i].p.heat + 1 < COLD_AFTER then r.cells[i].p.hot && r.cells[i].p.heat == m.cells[i].p.heat + 1
                else !r.cells[i].p.hot && r.cells[i].unheld && r.cells[i].p.shadow == None)
  {
    hide EpochBegin, Room, FrameEnd, FrameDelta, Frameable, Before, Compared, Heated;
    FrameStill(m, f, i);
    FrameHeat(m, f, i);
    var b := Before(m, f);
    ComparedHot(b.cells[i], b.epochNo, Room(b, i));
  }

  /** A hot page compared, and then passed over by heating. */
  lemma ComparedHot(c: Cell, epochNo: nat, room: bool)
    requires c.p.hot
    ensures var d := Heated(Compared(c), epochNo, room);
            if c.p.shadow != Some(c.mem) then Compared(c).p.epochDirty && d.p.hot && d.p.heat == 0
            else if c.p.heat + 1 < COLD_AFTER then d.p.hot && d.p.heat == c.p.heat + 1
            else !d.p.hot && d.unheld && d.p.shadow == None
  {
  }

  /** Hot to the end of every frame, and none of them changes it. */
  ghost predicate QuietThrough(m: Machine, frames: seq<Frame>, i: nat)
    requires Shaped(m)
    decreases |frames|
  {
    frames == [] ||
    (&& Frameable(EpochBegin(m), frames[0]) && i < |m.cells| && m.cells[i].p.hot
     && i < |Before(m, frames[0]).cells| && Before(m, frames[0]).cells[i].p.hot
     && Before(m, frames[0]).cells[i].mem == m.cells[i].mem && QuietThrough(FrameEnd(m, frames[0]), frames[1..], i))
  }

  ghost function AfterAll(m: Machine, frames: seq<Frame>, i: nat): (r: Machine)
    requires Shaped(m) && QuietThrough(m, frames, i)
    ensures Shaped(r)
    decreases |frames|
  {
    if frames == [] then m else AfterAll(FrameEnd(m, frames[0]), frames[1..], i)
  }

  /** A hot page that stops changing is hot until its eighth quiet frame, and then
      on the list of pages the next epoch holds. */
  lemma {:induction false} QuietCools(m: Machine, frames: seq<Frame>, i: nat)
    requires Shaped(m) && i < |m.cells| && m.cells[i].p.hot && m.cells[i].p.heat < COLD_AFTER && QuietThrough(m, frames, i)
    ensures var r, n := AfterAll(m, frames, i), m.cells[i].p.heat + |frames|;
            && i < |r.cells| && n <= COLD_AFTER && (r.cells[i].p.hot <==> n < COLD_AFTER) && (n == COLD_AFTER ==> r.cells[i].unheld)
    decreases |frames|
  {
    hide EpochBegin, FrameEnd, FrameDelta, Frameable, Before, Reported;
    if frames != [] {
      FrameCools(m, frames[0], i);
      var r := FrameEnd(m, frames[0]);
      if r.cells[i].p.hot {
        QuietCools(r, frames[1..], i);
      }
    }
  }

  /** Cooled, it is held when the next epoch opens, like any other. */
  lemma CooledIsHeld(c: Cell)
    requires Coherent(c) && c.p.hot
    ensures Opened(Cool(c)).p.held && Armed(Opened(Cool(c)).p)
  {
  }

  // ---- pages rewritten from outside the guest ----

  /** A hot page's copy is what the page holds. */
  predicate Renewed(c: Cell) {
    c.p.hot ==> c.p.shadow == Some(c.mem)
  }

  lemma LoadedRenews(c: Cell, base: PageBytes, s: Status, d: bool, bytes: PageBytes)
    requires CellOk(c, base)
    ensures Renewed(LoadedCell(c, s, d, bytes)) && Renewed(Refreshed(LoadedCell(c, s, d, bytes)))
  {
    hide NativeProt;
  }

  /** After a state is loaded every hot page's copy is what the page now holds. */
  lemma LoadRenews(m: Machine, base: seq<PageBytes>, st: State, i: nat)
    requires Inv(m, base) && Fits(m.cells, st) && i < |m.cells|
    ensures |LoadState(m, st).cells| == |m.cells| && Renewed(LoadState(m, st).cells[i])
  {
    hide LoadedCell, Refreshed, GroupProt, NativeProt, BroughtBytes, Watched, Tight, CellOk;
    assert CellOk(m.cells[i], base[i]);
    var clear := EpochClear(m);
    assert BroughtBits(clear.cells, st.dirty) == BroughtBits(m.cells, st.dirty);
    ForgottenOk(m.cells[i], base[i]);
    LoadedRenews(clear.cells[i], base[i], st.status[i], st.dirty[i], BroughtBytes(clear.cells, st, i));
  }

  lemma ForgottenOk(c: Cell, base: PageBytes)
    requires CellOk(c, base)
    ensures CellOk(Forgotten(c), base)
  {
  }

  lemma PatchedRenews(c: Cell, clean: bool, bytes: PageBytes)
    requires c.p.hot ==> !c.p.invisible
    ensures Renewed(PatchedCell(c, clean, bytes)) && Renewed(Refreshed(PatchedCell(c, clean, bytes)))
  {
    hide NativeProt;
  }

  /** What a delta's status leaves of a page: if hot, still visible. */
  lemma NotedVisible(c: Cell, s: Status)
    requires c.p.hot ==> !c.p.invisible
    ensures var d := NoteStatus(c, s);
            (d.p.hot ==> !d.p.invisible) && (Refreshed(d).p.hot ==> !Refreshed(d).p.invisible) && (Refreshed(c).p.hot ==> !Refreshed(c).p.invisible)
  {
    hide NativeProt;
  }

  /** After a delta is applied so is that of every page it brings. */
  lemma ApplyRenews(m: Machine, base: seq<PageBytes>, d: Delta, i: nat)
    requires Inv(m, base) && i < |m.cells| && Find(d.data, i).Some?
    ensures |ApplyDelta(m, d).cells| == |m.cells| && Renewed(ApplyDelta(m, d).cells[i])
  {
    hide NoteStatus, PatchedCell, Refreshed, GroupProt, NativeProt, Watched, Tight, Find;
    var c := m.cells[i];
    assert CellOk(c, base[i]);
    var m1 := Swept(m, Restatused(m.cells, d));
    NotedVisible(c, if Find(d.status, i).Some? then Find(d.status, i).value else StFree);
    var ch := Find(d.data, i).value;
    PatchedRenews(m1.cells[i], ch.clean, ch.bytes);
  }
}
