/** The state taken while the machine runs: whatever the guest, the fault
    handler and any number of copiers do meanwhile, the buffer is the state that
    would have been saved when it was asked for, and nobody waits for ever. */
module Capture {
  import opened Pages
  import opened Machine
  import opened Deltas
  import opened Invariant
  import opened Runs

  /** One slot of the buffer, for a page that held `bytes` when the plan was
      made: filled, or its page still holds them - and a copy under way has got
      its first bytes right. */
  predicate SlotTrue(c: Cell, k: nat, slot: PageBytes, bytes: PageBytes) {
    match c.p.planHold
    case Clear => slot == bytes
    case Owed => c.mem == bytes && c.p.planSlot == k
    case Copying(n) => n <= PAGESIZE && c.mem == bytes && c.p.planSlot == k && slot[..n] == bytes[..n]
  }

  ghost predicate PlanTrue(m: Machine, m0: Machine) {
    && m.plan.Open? && |m.cells| == |m0.cells|
    && m.plan.status == StatusMap(m0.cells) && m.plan.dirty == DirtyMap(m0.cells)
    && m.plan.list == Picks(CarriedBits(m0.cells), |m0.cells|)
    && |m.plan.dest| == |m.plan.list|
    && forall k | 0 <= k < |m.plan.list| ::
         SlotTrue(m.cells[m.plan.list[k]], k, m.plan.dest[k], m0.cells[m.plan.list[k]].mem)
  }

  lemma PlanStarts(m0: Machine, base: seq<PageBytes>, blank: PageBytes)
    requires Inv(m0, base) && m0.plan.Idle?
    ensures PlanTrue(PlanState(m0, blank), m0)
  {
    var r := PlanState(m0, blank);
    var bits := CarriedBits(m0.cells);
    PicksSorted(bits, |m0.cells|);
    forall k | 0 <= k < |r.plan.list|
      ensures SlotTrue(r.cells[r.plan.list[k]], k, r.plan.dest[k], m0.cells[r.plan.list[k]].mem)
    {
      var i := r.plan.list[k];
      assert bits[i];
      assert |Picks(bits, i)| == k by {
        var q := |Picks(bits, i)|;
        assert r.plan.list[q] == i;
      }
      PlanHeldOk(m0.cells[i], base[i], k);
    }
  }

  /** A page a step leaves as the plan needs it. */
  predicate Undisturbed(c: Cell, d: Cell) {
    SamePlan(c, d) && (c.p.planHold != Clear ==> d.mem == c.mem)
  }

  lemma QuietKeeps(m: Machine, r: Machine, m0: Machine)
    requires PlanTrue(m, m0) && |r.cells| == |m.cells| && r.plan == m.plan
    requires forall i | 0 <= i < |m.cells| :: Undisturbed(m.cells[i], r.cells[i])
    ensures PlanTrue(r, m0)
  {
    forall k | 0 <= k < |m.plan.list|
      ensures SlotTrue(r.cells[m.plan.list[k]], k, m.plan.dest[k], m0.cells[m.plan.list[k]].mem)
    {
      assert Undisturbed(m.cells[m.plan.list[k]], r.cells[m.plan.list[k]]);
    }
  }

  predicate Copies(s: Step) {
    s.ClaimPage? || s.CopyNext? || s.EndCopy?
  }

  /** The guest and the history never change a page the plan still owes, nor
      its place in the plan. */
  lemma OthersQuiet(m: Machine, base: seq<PageBytes>, s: Step, i: nat)
    requires Inv(m, base) && Enabled(m, s) && !Copies(s) && !s.PlanNow? && !s.EndPlan? && i < |m.cells|
    ensures Undisturbed(m.cells[i], Next(m, s).cells[i]) && Next(m, s).plan == m.plan
  {
    hide NativeProt, RefreshOs, GroupProt, Protected, GivenBack, Landed, Opened, Heated, Compared, GuestWrite, CellOk, Watched, Tight;
    assert CellOk(m.cells[i], base[i]);
    match s
    case Write(j, bytes, also) =>
      WriteQuiet(m, base, j, bytes, also, i);
    case Reprotect(lo, hi, st) =>
      if lo <= i < hi { ProtectedOk(m.cells[i], base[i], m.epochActive, st); ProtectedMem(m.cells[i], m.epochActive, st); }
    case Release(lo, hi, a) =>
      if lo <= i < hi { GivenBackOk(m.cells[i], base[i], m.epochActive, a); }
    case LandOn(j, st, hidden, bytes) =>
      assert CellOk(m.cells[j], base[j]);
      LandedOk(m.cells[j], base[j], m.epochActive, st, hidden, bytes);
      LandIsSwap(m, j, st, hidden, bytes);
      assert OwesNothingFree(m.cells[j]);
    case OpenEpoch =>
      OpenedOk(m.cells[i], base[i]);
      OpenedMem(m.cells[i]);
    case EmitDelta =>
      HeatedMem(m.cells[i], m.epochNo);
      HeatedMem(Compared(m.cells[i]), m.epochNo);
  }

  lemma WriteQuiet(m: Machine, base: seq<PageBytes>, j: nat, bytes: PageBytes, also: set<nat>, i: nat)
    requires Inv(m, base) && Enabled(m, Write(j, bytes, also)) && i < |m.cells|
    ensures var r := GuestWrite(m, j, bytes, also);
            |r.cells| == |m.cells| && r.plan == m.plan && Undisturbed(m.cells[i], r.cells[i])
  {
    hide NativeProt, RefreshOs, LetGo, Watched, Tight, CellOk;
    if Writable(m.os[j]) {
      NoUnrecordedWrite(m, base, j);
    } else {
      assert LetsGo(m.cells, m.group, j, also, j);
      if LetsGo(m.cells, m.group, j, also, i) {
        assert CellOk(m.cells[i], base[i]);
        LetGoOk(m.cells[i], base[i], m.epochActive);
        LetGoMem(m.cells[i], m.epochActive);
      }
    }
  }

  lemma LetGoMem(c: Cell, active: bool)
    ensures LetGo(c, active).mem == c.mem
  {
  }

  lemma OpenedMem(c: Cell)
    ensures Opened(c).mem == c.mem
  {
  }

  lemma HeatedMem(c: Cell, epochNo: nat)
    ensures SamePlan(c, Compared(c)) && Compared(c).mem == c.mem
    ensures forall room :: SamePlan(c, Heated(c, epochNo, room)) && Heated(c, epochNo, room).mem == c.mem
  {
  }

  /** One more byte of a copy that is right so far. */
  lemma ByteLands(c: Cell, k: nat, slot: PageBytes, bytes: PageBytes)
    requires SlotTrue(c, k, slot, bytes) && c.p.planHold.Copying? && c.p.planHold.done < PAGESIZE
    ensures var n := c.p.planHold.done;
            SlotTrue(c.(p := c.p.(planHold := Copying(n + 1))), k, slot[n := c.mem[n]], bytes)
  {
    var n := c.p.planHold.done;
    var next := slot[n := c.mem[n]];
    assert next[..n + 1] == slot[..n] + [bytes[n]];
    assert bytes[..n + 1] == bytes[..n] + [bytes[n]];
  }

  lemma CopyEnds(c: Cell, k: nat, slot: PageBytes, bytes: PageBytes)
    requires SlotTrue(c, k, slot, bytes) && c.p.planHold.Copying? && c.p.planHold.done >= PAGESIZE
    ensures SlotTrue(c.(p := c.p.(planHold := Clear)), k, slot, bytes)
  {
    assert slot == slot[..PAGESIZE] && bytes == bytes[..PAGESIZE];
  }

  /** Page i's slot is its own: no other page's slot moves with it. */
  lemma OwnSlot(m: Machine, base: seq<PageBytes>, m0: Machine, i: nat, h: Hold, dest: seq<PageBytes>)
    requires Inv(m, base) && PlanTrue(m, m0) && i < |m.cells| && m.cells[i].p.planHold != Clear
    requires |dest| == |m.plan.dest| && dest == m.plan.dest[m.cells[i].p.planSlot := dest[m.cells[i].p.planSlot]]
    requires SlotTrue(m.cells[i].(p := m.cells[i].p.(planHold := h)), m.cells[i].p.planSlot,
                      dest[m.cells[i].p.planSlot], m0.cells[i].mem)
    ensures PlanTrue(SetHold(m, i, h).(plan := m.plan.(dest := dest)), m0)
  {
    var slot := m.cells[i].p.planSlot;
    assert m.plan.list[slot] == i;
    PicksSorted(CarriedBits(m0.cells), |m0.cells|);
    var r := SetHold(m, i, h).(plan := m.plan.(dest := dest));
    forall k | 0 <= k < |m.plan.list|
      ensures SlotTrue(r.cells[m.plan.list[k]], k, r.plan.dest[k], m0.cells[m.plan.list[k]].mem)
    {
      assert SlotTrue(m.cells[m.plan.list[k]], k, m.plan.dest[k], m0.cells[m.plan.list[k]].mem);
      assert k != slot ==> m.plan.list[k] != i;
    }
  }

  lemma CopierKeeps(m: Machine, base: seq<PageBytes>, m0: Machine, s: Step)
    requires Inv(m, base) && PlanTrue(m, m0) && Enabled(m, s) && Copies(s)
    ensures PlanTrue(Next(m, s), m0)
  {
    var i, slot := s.i, m.cells[s.i].p.planSlot;
    assert m.plan.list[slot] == i;
    assert SlotTrue(m.cells[i], slot, m.plan.dest[slot], m0.cells[i].mem);
    match s
    case ClaimPage(_) =>
      OwnSlot(m, base, m0, i, Copying(0), m.plan.dest);
      assert Claim(m, i) == SetHold(m, i, Copying(0)).(plan := m.plan.(dest := m.plan.dest));
    case CopyNext(_) =>
      var n := m.cells[i].p.planHold.done;
      ByteLands(m.cells[i], slot, m.plan.dest[slot], m0.cells[i].mem);
      OwnSlot(m, base, m0, i, Copying(n + 1), m.plan.dest[slot := m.plan.dest[slot][n := m.cells[i].mem[n]]]);
    case EndCopy(_) =>
      CopyEnds(m.cells[i], slot, m.plan.dest[slot], m0.cells[i].mem);
      OwnSlot(m, base, m0, i, Clear, m.plan.dest);
      assert CopyDone(m, i) == SetHold(m, i, Clear).(plan := m.plan.(dest := m.plan.dest));
  }

  predicate DuringPlan(s: Step) {
    !s.PlanNow? && !s.EndPlan?
  }

  lemma {:induction false} RunTrue(m: Machine, base: seq<PageBytes>, m0: Machine, steps: seq<Step>)
    requires Inv(m, base) && PlanTrue(m, m0) && CanRun(m, steps)
    requires forall k | 0 <= k < |steps| :: DuringPlan(steps[k])
    ensures PlanTrue(Run(m, steps), m0)
    decreases |steps|
  {
    if steps != [] {
      var s := steps[0];
      if Copies(s) {
        CopierKeeps(m, base, m0, s);
      } else {
        forall i | 0 <= i < |m.cells| ensures Undisturbed(m.cells[i], Next(m, s).cells[i]) {
          OthersQuiet(m, base, s, i);
        }
        NextSize(m, base, s);
        QuietKeeps(m, Next(m, s), m0);
      }
      StepKeeps(m, base, s);
      RunTrue(Next(m, s), base, m0, steps[1..]);
    }
  }

  lemma NextSize(m: Machine, base: seq<PageBytes>, s: Step)
    requires Inv(m, base) && Enabled(m, s)
    ensures |Next(m, s).cells| == |m.cells|
    ensures DuringPlan(s) && !Copies(s) ==> Next(m, s).plan == m.plan
  {
    StepKeeps(m, base, s);
  }

  /** Background capture is a snapshot. Over every interleaving of byte-wise
      copies, write faults, releases, protection changes, epochs and deltas,
      once no page is owed the buffer is to the byte the state that
      mb_block_save_state would have written when the plan was made. */
  lemma CaptureIsSnapshot(m0: Machine, base: seq<PageBytes>, blank: PageBytes, steps: seq<Step>)
    requires Inv(m0, base) && m0.plan.Idle? && CanRun(PlanState(m0, blank), steps)
    requires forall k | 0 <= k < |steps| :: DuringPlan(steps[k])
    requires Enabled(Run(PlanState(m0, blank), steps), EndPlan)
    ensures PlanBuffer(Run(PlanState(m0, blank), steps).plan) == SaveState(m0)
  {
    hide PlanState, Run, CanRun, PlanTrue, PlanBuffer, SaveState, CellsOk, PlanOk, Watched, Tight;
    PlanStarts(m0, base, blank);
    PlanKeeps(m0, base, blank);
    RunTrue(PlanState(m0, blank), base, m0, steps);
    CopiedAll(Run(PlanState(m0, blank), steps), m0);
  }

  lemma CopiedAll(m: Machine, m0: Machine)
    requires Shaped(m) && PlanTrue(m, m0) && forall i | 0 <= i < |m.cells| :: m.cells[i].p.planHold == Clear
    ensures m.plan.Open? && PlanBuffer(m.plan) == SaveState(m0)
  {
    var data := SaveState(m0).data;
    assert |m.plan.dest| == |data|;
    forall k | 0 <= k < |data| ensures m.plan.dest[k] == data[k] {
      assert SlotTrue(m.cells[m.plan.list[k]], k, m.plan.dest[k], m0.cells[m.plan.list[k]].mem);
    }
    assert m.plan.dest == data;
  }

  // ---- nobody waits for ever ----

  /** Copier steps left before a page may change. */
  function Debt(h: Hold): nat {
    match h
    case Clear => 0
    case Owed => PAGESIZE + 2
    case Copying(n) => if n <= PAGESIZE then PAGESIZE - n + 1 else 1
  }

  /** While a plan is open no page's debt grows, and every copier step pays. */
  lemma DebtFalls(m: Machine, base: seq<PageBytes>, s: Step, i: nat)
    requires Inv(m, base) && Enabled(m, s) && !s.PlanNow? && i < |m.cells|
    ensures |Next(m, s).cells| == |m.cells|
    ensures Debt(Next(m, s).cells[i].p.planHold) <= Debt(m.cells[i].p.planHold)
    ensures Copies(s) && s.i == i ==> Debt(Next(m, s).cells[i].p.planHold) < Debt(m.cells[i].p.planHold)
  {
    NextSize(m, base, s);
    if !Copies(s) && !s.EndPlan? {
      OthersQuiet(m, base, s, i);
    }
  }

  /** The copier steps that finish page i's copy from where it is. */
  function SettleSteps(h: Hold, i: nat): (r: seq<Step>)
    decreases Debt(h)
  {
    match h
    case Clear => []
    case Owed => [ClaimPage(i)] + SettleSteps(Copying(0), i)
    case Copying(n) => if n < PAGESIZE then [CopyNext(i)] + SettleSteps(Copying(n + 1), i) else [EndCopy(i)]
  }

  predicate Debtless(m: Machine) {
    forall i | 0 <= i < |m.cells| :: m.cells[i].p.planHold == Clear
  }

  /** What a copier relies on: every page that owes something has its slot. */
  ghost predicate Payable(m: Machine) {
    Shaped(m) && PlanShaped(m) && (m.plan.Idle? ==> Debtless(m))
  }

  lemma SoundPays(m: Machine, base: seq<PageBytes>)
    requires Sound(m, base)
    ensures Payable(m)
  {
  }

  /** A writer that finds a page owed or being copied is released by the copy
      alone: those steps can always be taken, there are at most Debt of them,
      and they change nothing of the machine but the page's hold. */
  lemma {:induction false} WaiterReleased(m: Machine, i: nat)
    requires Payable(m) && i < |m.cells|
    ensures var steps := SettleSteps(m.cells[i].p.planHold, i);
            && |steps| <= Debt(m.cells[i].p.planHold)
            && CanRun(m, steps) && Payable(Run(m, steps))
            && (forall k | 0 <= k < |steps| :: Copies(steps[k]))
            && Run(m, steps).cells == SetHold(m, i, Clear).cells
            && Run(m, steps).os == m.os && Run(m, steps).group == m.group
            && Run(m, steps).epochActive == m.epochActive
    decreases Debt(m.cells[i].p.planHold)
  {
    var h := m.cells[i].p.planHold;
    if h == Clear {
      assert SetHold(m, i, Clear).cells == m.cells;
    } else {
      var s := SettleSteps(h, i)[0];
      SettleStep(m, i);
      var r := Next(m, s);
      assert SettleSteps(h, i)[1..] == SettleSteps(r.cells[i].p.planHold, i);
      WaiterReleased(r, i);
    }
  }

  /** What the page's hold is after the next of those steps. */
  function NextHold(h: Hold): Hold {
    match h
    case Clear => Clear
    case Owed => Copying(0)
    case Copying(n) => if n < PAGESIZE then Copying(n + 1) else Clear
  }

  lemma SettleTail(h: Hold, i: nat)
    requires h != Clear
    ensures SettleSteps(h, i) != [] && SettleSteps(h, i) == [SettleSteps(h, i)[0]] + SettleSteps(NextHold(h), i)
    ensures Debt(NextHold(h)) < Debt(h) && Copies(SettleSteps(h, i)[0])
  {
  }

  lemma SettleNext(m: Machine, i: nat)
    requires Payable(m) && i < |m.cells| && m.cells[i].p.planHold != Clear
    ensures var s := SettleSteps(m.cells[i].p.planHold, i)[0];
            Enabled(m, s) && Next(m, s).cells == SetHold(m, i, NextHold(m.cells[i].p.planHold)).cells
            && Next(m, s).os == m.os && Next(m, s).group == m.group && Next(m, s).epochActive == m.epochActive
  {
    var h := m.cells[i].p.planHold;
    assert m.plan.Open?;
    if h == Owed {
      assert Next(m, ClaimPage(i)) == Claim(m, i);
    } else if h.done < PAGESIZE {
      assert Next(m, CopyNext(i)) == CopyByte(m, i);
    } else {
      assert Next(m, EndCopy(i)) == CopyDone(m, i);
    }
  }

  /** A copier's step leaves the others their slots. */
  lemma CopierPays(m: Machine, s: Step)
    requires Payable(m) && Enabled(m, s) && Copies(s)
    ensures Payable(Next(m, s)) && |Next(m, s).cells| == |m.cells|
    ensures m.plan.Open? && Next(m, s).plan.Open? && Next(m, s).plan == m.plan.(dest := Next(m, s).plan.dest)
  {
    assert m.cells[s.i].p.planHold != Clear;
    assert m.plan.Open?;
  }

  lemma SettleStep(m: Machine, i: nat)
    requires Payable(m) && i < |m.cells| && m.cells[i].p.planHold != Clear
    ensures var s := SettleSteps(m.cells[i].p.planHold, i)[0];
            && Enabled(m, s) && Copies(s) && Payable(Next(m, s)) && |Next(m, s).cells| == |m.cells|
            && Debt(Next(m, s).cells[i].p.planHold) < Debt(m.cells[i].p.planHold)
            && SettleSteps(m.cells[i].p.planHold, i) == [s] + SettleSteps(Next(m, s).cells[i].p.planHold, i)
            && SetHold(Next(m, s), i, Clear).cells == SetHold(m, i, Clear).cells
            && Next(m, s).os == m.os && Next(m, s).group == m.group && Next(m, s).epochActive == m.epochActive
  {
    hide Enabled, Next, PlanShaped, SettleSteps, Debt;
    SettleTail(m.cells[i].p.planHold, i);
    SettleNext(m, i);
    CopierPays(m, SettleSteps(m.cells[i].p.planHold, i)[0]);
  }

  // ---- copiers left alone ----

  /** Everything owed can be copied, whatever else the machine has become. */
  lemma CanSettle(m: Machine) returns (steps: seq<Step>)
    requires Payable(m)
    ensures CanRun(m, steps) && (forall k | 0 <= k < |steps| :: Copies(steps[k]))
    ensures Debtless(Run(m, steps))
  {
    hide Enabled, Next, PlanShaped, SettleSteps;
    steps := [];
    var k := 0;
    while k < |m.cells|
      invariant k <= |m.cells| && CanRun(m, steps) && Payable(Run(m, steps)) && |Run(m, steps).cells| == |m.cells|
      invariant forall j | 0 <= j < |steps| :: Copies(steps[j])
      invariant forall i | 0 <= i < k :: Run(m, steps).cells[i].p.planHold == Clear
    {
      var r := Run(m, steps);
      var more := SettleSteps(r.cells[k].p.planHold, k);
      WaiterReleased(r, k);
      RunConcat(m, steps, more);
      steps := steps + more;
      k := k + 1;
    }
  }

  /** What a slot will hold once its page is copied, if nothing else happens. */
  function SlotWhenDone(c: Cell, slot: PageBytes): PageBytes {
    match c.p.planHold
    case Clear => slot
    case Owed => c.mem
    case Copying(n) => if n <= PAGESIZE then slot[..n] + c.mem[n..] else slot
  }

  function DestWhenDone(m: Machine): (r: seq<PageBytes>)
    requires m.plan.Open? && PlanShaped(m)
    ensures |r| == |m.plan.list|
  {
    seq(|m.plan.list|, k requires 0 <= k < |m.plan.list| => SlotWhenDone(m.cells[m.plan.list[k]], m.plan.dest[k]))
  }

  /** A copier's step moves its slot towards what it will hold, and no other. */
  lemma CopierStep(c: Cell, slot: PageBytes)
    ensures c.p.planHold == Owed ==> SlotWhenDone(c.(p := c.p.(planHold := Copying(0))), slot) == SlotWhenDone(c, slot)
    ensures c.p.planHold.Copying? && c.p.planHold.done < PAGESIZE ==>
              var n := c.p.planHold.done;
              SlotWhenDone(c.(p := c.p.(planHold := Copying(n + 1))), slot[n := c.mem[n]]) == SlotWhenDone(c, slot)
    ensures c.p.planHold.Copying? && c.p.planHold.done >= PAGESIZE ==>
              SlotWhenDone(c.(p := c.p.(planHold := Clear)), slot) == SlotWhenDone(c, slot)
  {
    if c.p.planHold == Owed {
      assert slot[..0] + c.mem[0..] == c.mem;
    } else if c.p.planHold.Copying? && c.p.planHold.done < PAGESIZE {
      var n := c.p.planHold.done;
      assert slot[n := c.mem[n]][..n + 1] + c.mem[n + 1..] == slot[..n] + c.mem[n..];
    }
  }

  lemma CopierAims(m: Machine, s: Step)
    requires Payable(m) && Enabled(m, s) && Copies(s) && Sorted(m.plan.list)
    ensures m.plan.Open? && Payable(Next(m, s)) && Next(m, s).plan.Open? && Next(m, s).plan.list == m.plan.list
    ensures DestWhenDone(Next(m, s)) == DestWhenDone(m)
  {
    hide SlotWhenDone;
    CopierPays(m, s);
    var i, slot := s.i, m.cells[s.i].p.planSlot;
    assert m.plan.list[slot] == i;
    CopierStep(m.cells[i], m.plan.dest[slot]);
    var r := Next(m, s);
    forall k | 0 <= k < |m.plan.list|
      ensures SlotWhenDone(r.cells[m.plan.list[k]], r.plan.dest[k]) == SlotWhenDone(m.cells[m.plan.list[k]], m.plan.dest[k])
    {
      assert k != slot ==> m.plan.list[k] != i;
    }
  }

  /** Copiers left alone, in any order, end with the buffer they were heading for. */
  lemma {:induction false} CopiersFinish(m: Machine, steps: seq<Step>)
    requires Payable(m) && m.plan.Open? && Sorted(m.plan.list)
    requires CanRun(m, steps) && forall k | 0 <= k < |steps| :: Copies(steps[k])
    requires Debtless(Run(m, steps))
    ensures Run(m, steps).plan == m.plan.(dest := DestWhenDone(m))
    decreases |steps|
  {
    hide Enabled, Next;
    if steps == [] {
      assert Run(m, steps) == m;
      assert forall k | 0 <= k < |m.plan.list| :: DestWhenDone(m)[k] == m.plan.dest[k];
    } else {
      CopierAims(m, steps[0]);
      CopierPays(m, steps[0]);
      CopiersFinish(Next(m, steps[0]), steps[1..]);
    }
  }
}
