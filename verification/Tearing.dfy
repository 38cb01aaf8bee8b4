/** A delta applied while a state is being taken. mb_block_delta_apply does not
    look at the plan, so a page still owed is copied as the delta leaves it; this
    module says exactly when the buffer is torn by that. */
module Tearing {
  import opened Pages
  import opened Machine
  import opened Deltas
  import opened Invariant
  import opened Restore
  import opened Runs
  import opened Capture

  /** How many bytes of a page owed to the plan are in its slot already. */
  function CopiedSoFar(h: Hold): nat {
    match h case Copying(n) => n case _ => 0
  }

  predicate SameFrom(a: PageBytes, b: PageBytes, n: nat) {
    n <= PAGESIZE ==> a[n..] == b[n..]
  }

  /** The delta leaves every page still owed the bytes it had when the plan was
      made, from the copier's place on. */
  ghost predicate SparesPlan(m: Machine, m0: Machine, d: Delta)
    requires |m.cells| == |m0.cells|
  {
    forall i | 0 <= i < |m.cells| && m.cells[i].p.planHold != Clear && Find(d.data, i).Some? ::
      SameFrom(Find(d.data, i).value.bytes, m0.cells[i].mem, CopiedSoFar(m.cells[i].p.planHold))
  }

  lemma FirstKeepsPlan(c: Cell, s: Option<Status>)
    ensures SamePlan(c, FirstPass(c, s)) && FirstPass(c, s).mem == c.mem
  {
  }

  lemma SecondKeepsPlan(c: Cell, ch: Option<Change>)
    ensures SamePlan(c, SecondPass(c, ch)) && SecondPass(c, ch).mem == if ch.Some? then ch.value.bytes else c.mem
  {
    if ch.Some? {
      var r := PatchedCell(c, ch.value.clean, ch.value.bytes);
      assert SamePlan(c, r) && r.mem == ch.value.bytes;
    }
  }

  /** What an apply does to a page's bytes, and not to its place in the plan. */
  lemma AppliedPage(m: Machine, d: Delta, i: nat)
    requires Shaped(m) && i < |m.cells|
    ensures |ApplyDelta(m, d).cells| == |m.cells| && ApplyDelta(m, d).plan == m.plan
    ensures var e := ApplyDelta(m, d).cells[i];
            SamePlan(m.cells[i], e) && e.mem == if Find(d.data, i).Some? then Find(d.data, i).value.bytes else m.cells[i].mem
  {
    hide FirstPass, SecondPass, Swept, Restatused, Patched;
    ApplyCells(m, d, i);
    AppliedShape(m, d);
    FirstKeepsPlan(m.cells[i], Find(d.status, i));
    SecondKeepsPlan(FirstPass(m.cells[i], Find(d.status, i)), Find(d.data, i));
  }

  lemma AppliedShape(m: Machine, d: Delta)
    requires Shaped(m)
    ensures |ApplyDelta(m, d).cells| == |m.cells| && ApplyDelta(m, d).plan == m.plan && Shaped(ApplyDelta(m, d))
  {
  }

  lemma AppliedPays(m: Machine, d: Delta)
    requires Payable(m)
    ensures Payable(ApplyDelta(m, d)) && ApplyDelta(m, d).plan == m.plan
  {
    hide ApplyDelta;
    AppliedShape(m, d);
    forall i | 0 <= i < |m.cells| ensures SamePlan(m.cells[i], ApplyDelta(m, d).cells[i]) { AppliedPage(m, d, i); }
  }

  /** One slot: right in the end exactly when the delta spared its page. */
  lemma SlotSpared(c: Cell, e: Cell, k: nat, slot: PageBytes, bytes: PageBytes, ch: Option<PageBytes>)
    requires SlotTrue(c, k, slot, bytes) && SamePlan(c, e) && e.mem == if ch.Some? then ch.value else c.mem
    ensures SlotWhenDone(e, slot) == bytes <==>
              (c.p.planHold != Clear && ch.Some? ==> SameFrom(ch.value, bytes, CopiedSoFar(c.p.planHold)))
  {
    if c.p.planHold.Copying? {
      var n := c.p.planHold.done;
      assert bytes == bytes[..n] + bytes[n..];
      assert (slot[..n] + e.mem[n..])[n..] == e.mem[n..];
    } else if c.p.planHold == Owed {
      assert e.mem == e.mem[0..] && bytes == bytes[0..];
    }
  }

  lemma SlotsSpared(m: Machine, base: seq<PageBytes>, m0: Machine, d: Delta)
    requires Inv(m, base) && PlanTrue(m, m0)
    ensures Payable(ApplyDelta(m, d)) && ApplyDelta(m, d).plan == m.plan
    ensures DestWhenDone(ApplyDelta(m, d)) == SaveState(m0).data <==> SparesPlan(m, m0, d)
  {
    hide ApplyDelta, SlotWhenDone, SlotTrue, SameFrom, CopiedSoFar, Picks, CellsOk, Watched, Tight;
    SoundPays(m, base);
    AppliedPays(m, d);
    var r, list, data := ApplyDelta(m, d), m.plan.list, SaveState(m0).data;
    assert list == Picks(CarriedBits(m0.cells), |m0.cells|) && |data| == |list|;
    forall k | 0 <= k < |list|
      ensures DestWhenDone(r)[k] == data[k] <==>
              (m.cells[list[k]].p.planHold != Clear && Find(d.data, list[k]).Some? ==>
                 SameFrom(Find(d.data, list[k]).value.bytes, m0.cells[list[k]].mem, CopiedSoFar(m.cells[list[k]].p.planHold)))
    {
      var i := list[k];
      AppliedPage(m, d, i);
      var ch := if Find(d.data, i).Some? then Some(Find(d.data, i).value.bytes) else None;
      assert SlotTrue(m.cells[i], k, m.plan.dest[k], m0.cells[i].mem);
      SlotSpared(m.cells[i], r.cells[i], k, m.plan.dest[k], m0.cells[i].mem, ch);
    }
    if DestWhenDone(r) == data {
      forall i | 0 <= i < |m.cells| && m.cells[i].p.planHold != Clear && Find(d.data, i).Some?
        ensures SameFrom(Find(d.data, i).value.bytes, m0.cells[i].mem, CopiedSoFar(m.cells[i].p.planHold))
      {
        assert list[m.cells[i].p.planSlot] == i;
      }
    }
  }

  /** A delta applied at any moment of a plan, and the copiers left to finish in
      any order: the buffer is the state asked for exactly when the delta spared
      the pages still owed. */
  lemma ApplyUnderPlan(m: Machine, base: seq<PageBytes>, m0: Machine, d: Delta, steps: seq<Step>)
    requires Inv(m, base) && PlanTrue(m, m0)
    requires CanRun(ApplyDelta(m, d), steps) && (forall k | 0 <= k < |steps| :: Copies(steps[k]))
    requires Debtless(Run(ApplyDelta(m, d), steps))
    ensures Run(ApplyDelta(m, d), steps).plan.Open?
    ensures PlanBuffer(Run(ApplyDelta(m, d), steps).plan) == SaveState(m0) <==> SparesPlan(m, m0, d)
  {
    hide ApplyDelta, Run, CanRun, DestWhenDone, SparesPlan, CellsOk, Watched, Tight, SlotTrue, Picks;
    SlotsSpared(m, base, m0, d);
    PicksSorted(CarriedBits(m0.cells), |m0.cells|);
    CopiersFinish(ApplyDelta(m, d), steps);
  }
}
