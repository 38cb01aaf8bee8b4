/** The one way a delta comes out short. An orphan is a dirty page that is
    neither held nor on the list of pages the next epoch holds; this module says
    which steps make one, and that an epoch can be trusted exactly when it opens
    with none. */
module Orphans {
  import opened Pages
  import opened Machine
  import opened Deltas
  import opened Invariant
  import opened Runs
  import opened Epochs
  import opened Capture
  import opened Restore

  // ---- where orphans come from ----

  /** A protection call on a page a planned state still owes: the plan's hold
      takes it off the list of writable pages, and either the change has lifted
      its other hold (or cooled it), or it had none, having cooled under the
      plan. */
  predicate ReprotectDrops(c: Cell, active: bool, s: Status) {
    && c.p.planHold != Clear && Tracked(s) && !c.p.invisible && c.p.dirty
    && (if c.p.status == s then !c.p.hot && !c.p.held
        else c.p.hot || !c.p.held || (active && Tracked(c.p.status)))
  }

  lemma ReprotectOrphans(c: Cell, base: PageBytes, active: bool, s: Status)
    requires CellOk(c, base) && !Orphan(c)
    ensures Orphan(Protected(c, active, s)) <==> ReprotectDrops(c, active, s)
  {
  }

  /** A move into a free page on no hold that ends up visible, and was clean or
      invisible: it is shown and marked dirty after its protection was worked
      out. */
  predicate LandDrops(c: Cell, s: Status, hidden: bool) {
    !hidden && Tracked(s) && !c.p.held && (c.p.invisible || !c.p.dirty)
  }

  lemma LandOrphans(c: Cell, base: PageBytes, active: bool, s: Status, hidden: bool, bytes: PageBytes)
    requires CellOk(c, base) && c.p.status == StFree && c.p.planHold == Clear && s != StFree
    ensures Orphan(Landed(c, active, s, hidden, bytes)) <==> LandDrops(c, s, hidden)
  {
  }

  lemma RefreshedNoOrphan(c: Cell)
    requires Orphan(Refreshed(c))
    ensures c.p.planHold != Clear
  {
  }

  lemma GivenBackNoOrphan(c: Cell, active: bool, adviseOnly: bool)
    requires c.p.planHold == Clear
    ensures !Orphan(GivenBack(c, active, adviseOnly))
  {
    if Orphan(GivenBack(c, active, adviseOnly)) {
      if adviseOnly {
        RefreshedNoOrphan(Emptied(c, active));
      } else {
        RefreshedNoOrphan(NoteStatus(EpochNote(Emptied(c, active), active, StFree), StFree));
      }
    }
  }

  lemma OtherNoOrphan(c: Cell, base: PageBytes, active: bool, slot: nat, epochNo: nat, room: bool)
    requires CellOk(c, base) && !Orphan(c)
    ensures Tracked(c.p.status) ==> !Orphan(LetGo(c, active))
    ensures !Orphan(PlanHeld(c, slot))
    ensures !Orphan(Opened(c))
    ensures !Orphan(Compared(c)) && !Orphan(Heated(c, epochNo, room))
    ensures c.p.planHold == Clear ==> !Orphan(Refreshed(c))
  {
  }

  /** The step makes an orphan of page i. */
  predicate Drops(m: Machine, s: Step, i: nat)
    requires i < |m.cells|
  {
    || (s.LandOn? && s.i == i && LandDrops(m.cells[i], s.s, s.hidden))
    || (s.Reprotect? && s.lo <= i < s.hi && ReprotectDrops(m.cells[i], m.epochActive, s.s))
  }

  /** A move onto a page and a protection call on a page a plan still owes are
      the only steps of the guest, the copiers or the history that make an
      orphan, and these are exactly the moves and calls that do. */
  lemma OnlyThoseOrphan(m: Machine, base: seq<PageBytes>, s: Step, i: nat)
    requires Inv(m, base) && Enabled(m, s) && i < |m.cells| && !Orphan(m.cells[i])
    ensures |Next(m, s).cells| == |m.cells| && (Orphan(Next(m, s).cells[i]) <==> Drops(m, s, i))
  {
    hide RefreshOs, GroupProt, NativeProt, GivenBack, Protected, PlanHeld, Opened, LetGo, Heated, Refreshed, Landed, CellOk, Watched, Tight,
         ReprotectDrops, LandDrops;
    NextSize(m, base, s);
    assert CellOk(m.cells[i], base[i]);
    var c, b, a := m.cells[i], base[i], m.epochActive;
    match s
    case Write(j, bytes, also) =>
      OtherNoOrphan(c, b, a, 0, 0, false);
    case Reprotect(lo, hi, st) =>
      ReprotectOrphans(c, b, a, st);
    case Release(lo, hi, adviseOnly) =>
      if lo <= i < hi { GivenBackNoOrphan(c, a, adviseOnly); }
    case LandOn(j, st, hidden, bytes) =>
      assert OwesNothingFree(m.cells[j]);
      if i == j { LandOrphans(c, b, a, st, hidden, bytes); }
    case PlanNow(blank) =>
      OtherNoOrphan(c, b, a, |Picks(CarriedBits(m.cells), i)|, 0, false);
    case EndPlan =>
      OtherNoOrphan(c, b, a, 0, 0, false);
    case OpenEpoch =>
      OtherNoOrphan(c, b, a, 0, 0, false);
    case EmitDelta =>
      OtherNoOrphan(c, b, a, 0, 0, false);
      HeatedOk(c, b, 0, false);
      OtherNoOrphan(Compared(c), b, a, 0, m.epochNo, true);
      OtherNoOrphan(Compared(c), b, a, 0, m.epochNo, false);
    case _ =>
  }

  /** The step makes no orphan of any page. */
  ghost predicate Careful(m: Machine, s: Step) {
    forall i | 0 <= i < |m.cells| :: !Drops(m, s, i)
  }

  lemma CarefulExactly(m: Machine, base: seq<PageBytes>, s: Step)
    requires Inv(m, base) && Enabled(m, s) && NoOrphans(m)
    ensures NoOrphans(Next(m, s)) <==> Careful(m, s)
  {
    hide Enabled, Next, Drops, Orphan, CellsOk, PlanOk, Watched, Tight;
    NextSize(m, base, s);
    forall i | 0 <= i < |m.cells| ensures Orphan(Next(m, s).cells[i]) <==> Drops(m, s, i) {
      OnlyThoseOrphan(m, base, s, i);
    }
  }

  ghost predicate AllCareful(m: Machine, steps: seq<Step>)
    requires Shaped(m) && CanRun(m, steps)
    decreases |steps|
  {
    steps == [] || (Careful(m, steps[0]) && AllCareful(Next(m, steps[0]), steps[1..]))
  }

  ghost predicate NeverOrphans(m: Machine, steps: seq<Step>)
    requires Shaped(m) && CanRun(m, steps)
    decreases |steps|
  {
    NoOrphans(m) && (steps == [] || NeverOrphans(Next(m, steps[0]), steps[1..]))
  }

  /** Over every run: there is no orphan at any moment of it exactly when there
      is none at its start and each of its steps is careful. */
  lemma {:induction false} RunOrphans(m: Machine, base: seq<PageBytes>, steps: seq<Step>)
    requires Inv(m, base) && CanRun(m, steps)
    ensures NeverOrphans(m, steps) <==> NoOrphans(m) && AllCareful(m, steps)
    ensures NeverOrphans(m, steps) ==> NoOrphans(Run(m, steps))
    decreases |steps|
  {
    hide Enabled, Next, Careful, NoOrphans, CellsOk, PlanOk, Watched, Tight;
    if steps != [] {
      StepKeeps(m, base, steps[0]);
      if NoOrphans(m) { CarefulExactly(m, base, steps[0]); }
      RunOrphans(Next(m, steps[0]), base, steps[1..]);
    }
  }

  // ---- a machine put back has none ----

  /** A page as a sweep leaves it. */
  function SweptCell(c: Cell, d: Cell): Cell {
    if NativeProt(c.p) != NativeProt(d.p) then Refreshed(d) else d
  }

  /** A page owed nothing that turned out an orphan was one before, or its
      change of protection put it on the list. */
  lemma SweptNoOrphan(c: Cell, d: Cell)
    requires d.p.planHold == c.p.planHold == Clear && Recast(c.p, d.p) && c.p.invisible == d.p.invisible
    requires !Orphan(c) && StaysListed(c, d)
    ensures !Orphan(SweptCell(c, d))
  {
  }

  lemma LoadNoOrphans(m: Machine, base: seq<PageBytes>, st: State)
    requires Sound(m, base) && m.plan.Idle? && NoOrphans(m) && Fits(m.cells, st)
    ensures NoOrphans(LoadState(m, st))
  {
    hide LoadedCell, Orphan, SweptCell, StaysListed, Recast, NativeProt, Refreshed, CellOk, BroughtBytes;
    var clear := EpochClear(m);
    ClearFits(m, base, st);
    var cells := LoadedCells(clear.cells, st);
    forall i | 0 <= i < |m.cells| ensures !Orphan(SweptCell(clear.cells[i], cells[i])) {
      assert CellOk(m.cells[i], base[i]) && !Orphan(m.cells[i]);
      ForgottenSame(m.cells[i], base[i]);
      LoadedFields(clear.cells[i], st.status[i], st.dirty[i], BroughtBytes(clear.cells, st, i));
      LoadedVisible(clear.cells[i], st.status[i], st.dirty[i], BroughtBytes(clear.cells, st, i));
      SweptNoOrphan(clear.cells[i], cells[i]);
    }
    SweptCells(clear, cells);
  }

  lemma SweptCells(m: Machine, cells: seq<Cell>)
    requires Shaped(m) && |cells| == |m.cells|
    ensures |Swept(m, cells).cells| == |cells|
    ensures forall i | 0 <= i < |cells| :: Swept(m, cells).cells[i] == SweptCell(m.cells[i], cells[i])
  {
  }

  lemma ForgottenSame(c: Cell, base: PageBytes)
    requires CellOk(c, base)
    ensures var f := Forgotten(c); Coherent(f) && Orphan(f) == Orphan(c) && SamePlan(c, f)
  {
  }

  lemma LoadedVisible(c: Cell, s: Status, d: bool, bytes: PageBytes)
    ensures LoadedCell(c, s, d, bytes).p.invisible == c.p.invisible
  {
    hide Snapshot, SetDirty, NoteStatus;
    SnapshotFields(c);
    var f := LoadFilled(c, d, bytes);
    DirtFields(f, d);
    StatusFields(if c.p.invisible then c else LoadMarked(f, d), s);
  }

  lemma FirstNoOrphan(c: Cell, s: Option<Status>)
    requires Coherent(c) && c.p.planHold == Clear && !Orphan(c)
    ensures !Orphan(FirstPass(c, s)) && FirstPass(c, s).p.planHold == Clear && Coherent(FirstPass(c, s))
  {
    hide NoteStatus, NativeProt, Orphan, StaysListed, Refreshed, Coherent;
    RestampedIs(c, s);
    if s.Some? {
      StatusFields(c, s.value);
      SweptNoOrphan(c, NoteStatus(c, s.value));
      RefreshedCoherent(NoteStatus(c, s.value));
    }
  }

  lemma RefreshedCoherent(c: Cell)
    requires Coherent(c)
    ensures Coherent(Refreshed(c)) && Refreshed(c).p.planHold == c.p.planHold
  {
  }

  lemma SecondNoOrphan(c: Cell, ch: Option<Change>)
    requires Coherent(c) && c.p.planHold == Clear && !Orphan(c)
    ensures !Orphan(SecondPass(c, ch))
  {
    hide PatchedCell, NativeProt, Orphan, StaysListed, Refreshed, Coherent;
    if ch.Some? {
      PatchFields(c, c.p, ch.value);
      PatchedStays(c, ch.value);
      PatchedVisible(c, ch.value);
      SweptNoOrphan(c, PatchedCell(c, ch.value.clean, ch.value.bytes));
    }
  }

  lemma PatchedVisible(c: Cell, ch: Change)
    ensures PatchedCell(c, ch.clean, ch.bytes).p.invisible == c.p.invisible
  {
  }

  lemma ApplyNoOrphans(m: Machine, base: seq<PageBytes>, d: Delta)
    requires Sound(m, base) && m.plan.Idle? && NoOrphans(m)
    ensures NoOrphans(ApplyDelta(m, d))
  {
    hide FirstPass, SecondPass, Orphan, Swept, Restatused, Patched, CellOk;
    var r := ApplyDelta(m, d);
    forall i | 0 <= i < |r.cells| ensures !Orphan(r.cells[i]) {
      SweptSize(m, d);
      SweptSize1(Swept(m, Restatused(m.cells, d)), Patched(Swept(m, Restatused(m.cells, d)).cells, d));
      assert CellOk(m.cells[i], base[i]) && !Orphan(m.cells[i]);
      ApplyCells(m, d, i);
      var c := m.cells[i];
      CellCoherent(c, base[i]);
      FirstNoOrphan(c, Find(d.status, i));
      SecondNoOrphan(FirstPass(c, Find(d.status, i)), Find(d.data, i));
      ForgottenOrphan(SecondPass(FirstPass(c, Find(d.status, i)), Find(d.data, i)));
    }
  }

  lemma CellCoherent(c: Cell, base: PageBytes)
    requires CellOk(c, base)
    ensures Coherent(c)
  {
  }

  lemma ForgottenOrphan(c: Cell)
    ensures Orphan(Forgotten(c)) == Orphan(c)
  {
  }

  // ---- what an orphan costs ----

  lemma {:induction false} SettleInFrame(h: Hold, i: nat)
    ensures forall k | 0 <= k < |SettleSteps(h, i)| :: InFrame(SettleSteps(h, i)[k])
    decreases Debt(h)
  {
    match h
    case Clear =>
    case Owed => SettleInFrame(Copying(0), i);
    case Copying(n) => if n < PAGESIZE { SettleInFrame(Copying(n + 1), i); }
  }

  /** A frame: none of its steps opens an epoch or saves a delta, and it ends
      with the pages visible that were visible at its start. */
  ghost predicate Frameable(m: Machine, steps: seq<Step>)
    requires Shaped(m)
  {
    CanRun(m, steps) && (forall k | 0 <= k < |steps| :: InFrame(steps[k])) && SameVisibility(m.cells, Run(m, steps).cells)
  }

  /** Page k settled, then given back. */
  lemma FreeOne(m: Machine, base: seq<PageBytes>, k: nat) returns (steps: seq<Step>)
    requires Inv(m, base) && k < |m.cells| && m.cells[k].p.status != StFree
    ensures Frameable(m, steps) && Inv(Run(m, steps), base)
    ensures var r := Run(m, steps);
            && |r.cells| == |m.cells| && r.group == m.group && r.epochActive == m.epochActive
            && r.cells[k].p.status == StFree
            && forall j | 0 <= j < |m.cells| && j != k :: r.cells[j] == m.cells[j]
  {
    hide Run, CanRun, GiveBack, CellsOk, Watched, Tight, PlanOk, SettleSteps;
    var settle := SettleSteps(m.cells[k].p.planHold, k);
    SettleInFrame(m.cells[k].p.planHold, k);
    SoundPays(m, base);
    WaiterReleased(m, k);
    RunKeeps(m, base, settle);
    var r := Run(m, settle);
    assert Enabled(r, Release(k, k + 1, false));
    RunOne(r, Release(k, k + 1, false));
    RunConcat(m, settle, [Release(k, k + 1, false)]);
    steps := settle + [Release(k, k + 1, false)];
    GiveBackOne(r, base, k);
    RunKeeps(m, base, steps);
  }

  lemma RunOne(m: Machine, s: Step)
    requires Shaped(m) && Enabled(m, s)
    ensures CanRun(m, [s]) && Run(m, [s]) == Next(m, s)
  {
    assert CanRun(Next(m, s), [s][1..]);
  }

  lemma GiveBackOne(m: Machine, base: seq<PageBytes>, k: nat)
    requires Inv(m, base) && k < |m.cells|
    ensures var r := GiveBack(m, k, k + 1, false);
            && |r.cells| == |m.cells| && r.group == m.group && r.epochActive == m.epochActive
            && r.cells[k].p.status == StFree && forall j | 0 <= j < |m.cells| && j != k :: r.cells[j] == m.cells[j]
    ensures GiveBack(m, k, k + 1, false).cells[k].p.invisible == m.cells[k].p.invisible
  {
    hide RefreshOs, Emptied, Protected;
    GivenBackHidden(m.cells[k], m.epochActive);
    EmptiedOk(m.cells[k], base[k], m.epochActive);
    ProtectedOk(Emptied(m.cells[k], m.epochActive), base[k], m.epochActive, StFree);
  }

  lemma GivenBackHidden(c: Cell, active: bool)
    ensures GivenBack(c, active, false).p.invisible == c.p.invisible
  {
    hide Emptied, Protected;
    EmptiedHidden(c, active);
    ProtectedHidden(Emptied(c, active), active, StFree);
  }

  lemma EmptiedHidden(c: Cell, active: bool)
    ensures Emptied(c, active).p.invisible == c.p.invisible
  {
  }

  lemma ProtectedHidden(c: Cell, active: bool, s: Status)
    ensures Protected(c, active, s).p.invisible == c.p.invisible
  {
    hide NativeProt;
  }

  /** Every other page of page i's host page given back, so that nothing there
      but page i has a say in its protection. */
  lemma ClearNeighbours(m: Machine, base: seq<PageBytes>, i: nat) returns (steps: seq<Step>)
    requires Inv(m, base) && i < |m.cells|
    ensures Frameable(m, steps) && Inv(Run(m, steps), base)
    ensures var r := Run(m, steps);
            && |r.cells| == |m.cells| && r.group == m.group && r.epochActive == m.epochActive
            && r.cells[i] == m.cells[i]
            && forall j | 0 <= j < |m.cells| && j != i && SameGroup(m.group, i, j) :: r.cells[j].p.status == StFree
  {
    hide CellsOk, Watched, Tight, PlanOk, Enabled, Next;
    steps := [];
    var k := 0;
    while k < |m.cells|
      invariant k <= |m.cells|
      invariant Frameable(m, steps) && Inv(Run(m, steps), base)
      invariant |Run(m, steps).cells| == |m.cells| && Run(m, steps).group == m.group
      invariant Run(m, steps).epochActive == m.epochActive && Run(m, steps).cells[i] == m.cells[i]
      invariant forall j | 0 <= j < k && j != i && SameGroup(m.group, i, j) :: Run(m, steps).cells[j].p.status == StFree
    {
      var r := Run(m, steps);
      if k != i && r.cells[k].p.status != StFree {
        var more := FreeOne(r, base, k);
        RunConcat(m, steps, more);
        steps := steps + more;
      }
      k := k + 1;
    }
  }

  /** With its neighbours gone, telling page i the protection it already has
      maps it writable, and records nothing. */
  lemma ReprotectOpens(m: Machine, base: seq<PageBytes>, i: nat)
    requires Inv(m, base) && i < |m.cells|
    requires EpochTracks(m.cells[i].p) && m.cells[i].p.dirty && !m.cells[i].p.held && !m.cells[i].p.hot
    requires m.cells[i].p.planHold == Clear
    requires forall j | 0 <= j < |m.cells| && j != i && SameGroup(m.group, i, j) :: m.cells[j].p.status == StFree
    ensures var r := Protect(m, i, i + 1, m.cells[i].p.status);
            Writable(r.os[i]) && r.cells[i] == m.cells[i].(unheld := true)
  {
    var r := Protect(m, i, i + 1, m.cells[i].p.status);
    assert r.cells[i] == m.cells[i].(unheld := true);
    assert SameGroup(m.group, i, i);
    assert Touches(m.group, i, i, i + 1);
    assert Writable(NativeProt(r.cells[i].p));
    assert GroupWants(r.cells, m.group, i);
    assert !GroupArmed(r.cells, m.group, i);
  }

  /** From any machine with an orphan there is a frame whose delta does not
      take the start to the end. */
  lemma OrphanLosesWrite(m: Machine, base: seq<PageBytes>, i: nat) returns (steps: seq<Step>)
    requires Inv(m, base) && i < |m.cells| && Orphan(m.cells[i])
    ensures Frameable(EpochBegin(m), steps)
    ensures ApplyView(ViewOfMachine(m), SaveDelta(Run(EpochBegin(m), steps)).1) != ViewOfMachine(Run(EpochBegin(m), steps))
  {
    hide Run, CanRun, SaveDelta, ApplyView, CellOk, Watched, Tight, PlanOk, ViewOfMachine, GroupProt;
    var start := EpochBegin(m);
    BeginKeeps(m, base);
    OpenedOrphan(m.cells[i], base[i]);
    var first := IsolateOrphan(start, base, i);
    var bytes, last := WriteUnseen(Run(start, first), base, i);
    RunConcat(start, first, last);
    steps := first + last;
    LostByte(m, Run(start, steps), i, bytes);
  }

  lemma OpenedOrphan(c: Cell, base: PageBytes)
    requires CellOk(c, base) && Orphan(c)
    ensures Opened(c) == Forgotten(c)
  {
  }

  /** The frame's last two steps: the page told the protection it has, and a
      write to it that nothing records. */
  lemma WriteUnseen(m: Machine, base: seq<PageBytes>, i: nat) returns (bytes: PageBytes, steps: seq<Step>)
    requires Inv(m, base) && i < |m.cells|
    requires EpochTracks(m.cells[i].p) && m.cells[i].p.dirty && !m.cells[i].p.held && !m.cells[i].p.hot
    requires m.cells[i].p.planHold == Clear
    requires forall j | 0 <= j < |m.cells| && j != i && SameGroup(m.group, i, j) :: m.cells[j].p.status == StFree
    ensures bytes != m.cells[i].mem && Frameable(m, steps)
    ensures |Run(m, steps).cells| == |m.cells| && Run(m, steps).cells[i] == m.cells[i].(unheld := true, mem := bytes)
  {
    var c := m.cells[i];
    ReprotectOpens(m, base, i);
    bytes := if c.mem[0] == 0 then c.mem[0 := 1] else c.mem[0 := 0];
    assert bytes[0] != c.mem[0];
    steps := [Reprotect(i, i + 1, c.p.status), Write(i, bytes, {})];
    LastTwo(m, i, bytes);
  }

  lemma IsolateOrphan(m: Machine, base: seq<PageBytes>, i: nat) returns (steps: seq<Step>)
    requires Inv(m, base) && i < |m.cells|
    ensures Frameable(m, steps) && Inv(Run(m, steps), base)
    ensures var r := Run(m, steps);
            && |r.cells| == |m.cells| && r.group == m.group
            && r.cells[i] == SetHold(m, i, Clear).cells[i]
            && forall j | 0 <= j < |m.cells| && j != i && SameGroup(m.group, i, j) :: r.cells[j].p.status == StFree
  {
    var settle := SettleSteps(m.cells[i].p.planHold, i);
    SettleInFrame(m.cells[i].p.planHold, i);
    SoundPays(m, base);
    WaiterReleased(m, i);
    RunKeeps(m, base, settle);
    var clear := ClearNeighbours(Run(m, settle), base, i);
    RunConcat(m, settle, clear);
    steps := settle + clear;
  }

  /** The end differs from the start in page i's bytes, and the delta has no
      entry for page i. */
  lemma LostByte(m: Machine, end: Machine, i: nat, bytes: PageBytes)
    requires |m.cells| == |end.cells| && i < |m.cells| && Shaped(end) && !m.cells[i].p.invisible && m.cells[i].mem != bytes
    requires end.cells[i].mem == bytes && !end.cells[i].p.epochDirty && !end.cells[i].p.hot && !end.cells[i].p.invisible
    ensures ApplyView(ViewOfMachine(m), SaveDelta(end).1) != ViewOfMachine(end)
  {
    DeltaOfFinds(CompareHot(end).cells, i);
    assert CompareHot(end).cells[i] == end.cells[i];
    assert ApplyView(ViewOfMachine(m), SaveDelta(end).1)[i].bytes == m.cells[i].mem;
    assert ViewOfMachine(end)[i].bytes == bytes;
  }

  lemma ProtectSize(m: Machine, i: nat, s: Status)
    requires Shaped(m) && i < |m.cells|
    ensures |Protect(m, i, i + 1, s).cells| == |m.cells|
  {
  }

  lemma LastTwo(m: Machine, i: nat, bytes: PageBytes)
    requires Shaped(m) && i < |m.cells| && Tracked(m.cells[i].p.status)
    requires Writable(Protect(m, i, i + 1, m.cells[i].p.status).os[i])
    requires Tracked(Protect(m, i, i + 1, m.cells[i].p.status).cells[i].p.status)
    ensures var last := [Reprotect(i, i + 1, m.cells[i].p.status), Write(i, bytes, {})];
            CanRun(m, last) && Run(m, last) == Store(Protect(m, i, i + 1, m.cells[i].p.status), i, bytes)
  {
    hide Run, CanRun, Protect, Store;
    var s := m.cells[i].p.status;
    var r := Protect(m, i, i + 1, s);
    ProtectSize(m, i, s);
    var last := [Reprotect(i, i + 1, s), Write(i, bytes, {})];
    assert last == [last[0]] + [last[1]];
    RunOne(m, last[0]);
    RunOne(r, last[1]);
    RunConcat(m, [last[0]], [last[1]]);
  }

  /** An epoch whose delta can be trusted, whatever the frame does. */
  ghost predicate Trustworthy(m: Machine)
    requires Shaped(m)
  {
    forall steps | Frameable(EpochBegin(m), steps) ::
      ApplyView(ViewOfMachine(m), SaveDelta(Run(EpochBegin(m), steps)).1) == ViewOfMachine(Run(EpochBegin(m), steps))
  }

  lemma OrphanUntrusted(m: Machine, base: seq<PageBytes>, i: nat)
    requires Inv(m, base) && i < |m.cells| && Orphan(m.cells[i])
    ensures !Trustworthy(m)
  {
    var steps := OrphanLosesWrite(m, base, i);
  }

  lemma BeginSight(m: Machine)
    requires Shaped(m)
    ensures SameVisibility(m.cells, EpochBegin(m).cells)
  {
  }

  lemma FrameComplete(m: Machine, base: seq<PageBytes>, steps: seq<Step>)
    requires Inv(m, base) && NoOrphans(m) && Frameable(EpochBegin(m), steps)
    ensures ApplyView(ViewOfMachine(m), SaveDelta(Run(EpochBegin(m), steps)).1) == ViewOfMachine(Run(EpochBegin(m), steps))
  {
    hide Run, CanRun, SaveDelta, ApplyView, ViewOfMachine, CellsOk, PlanOk, Watched, Tight, NoOrphans;
    BeginSight(m);
    DeltaComplete(m, base, steps);
  }

  /** Deltas are complete exactly when the epoch opens with no orphan. */
  lemma TrustworthyExactly(m: Machine, base: seq<PageBytes>)
    requires Inv(m, base)
    ensures Trustworthy(m) <==> NoOrphans(m)
  {
    hide Run, CanRun, SaveDelta, ApplyView, ViewOfMachine, CellsOk, PlanOk, Watched, Tight, SameVisibility, InFrame, Orphan, GroupProt;
    if NoOrphans(m) {
      forall steps | Frameable(EpochBegin(m), steps)
        ensures ApplyView(ViewOfMachine(m), SaveDelta(Run(EpochBegin(m), steps)).1) == ViewOfMachine(Run(EpochBegin(m), steps))
      {
        FrameComplete(m, base, steps);
      }
    } else {
      var i :| 0 <= i < |m.cells| && Orphan(m.cells[i]);
      OrphanUntrusted(m, base, i);
    }
  }
}
