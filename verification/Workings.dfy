/** What the block's loops keep while they are under way, and how the pieces
    they leave make up the functions of Machine.dfy. */
module Workings {
  import opened Pages
  import opened Machine
  import opened Invariant
  import opened Deltas
  import opened Restore
  import opened Sweeps

  /** How many bits are set. */
  function Count(bits: seq<bool>): (n: nat) {
    if bits == [] then 0 else Count(bits[..|bits| - 1]) + (if bits[|bits| - 1] then 1 else 0)
  }

  lemma {:induction false} CountSet(bits: seq<bool>, i: nat, b: bool)
    requires i < |bits|
    ensures Count(bits[i := b]) == Count(bits) + (if b then 1 else 0) - (if bits[i] then 1 else 0)
  {
    var n := |bits| - 1;
    if i < n {
      CountSet(bits[..n], i, b);
      assert bits[i := b][..n] == bits[..n][i := b];
    } else {
      assert bits[i := b][..n] == bits[..n];
    }
  }

  lemma {:induction false} CountNothing(bits: seq<bool>)
    requires forall i | 0 <= i < |bits| :: !bits[i]
    ensures Count(bits) == 0
  {
    if bits != [] { CountNothing(bits[..|bits| - 1]); }
  }

  lemma {:induction false} CountHotBits(cells: seq<Cell>, bits: seq<bool>)
    requires |bits| == |cells| && forall i | 0 <= i < |bits| :: bits[i] == cells[i].p.hot
    ensures Count(bits) == CountHot(cells)
  {
    if bits != [] { CountHotBits(cells[..|cells| - 1], bits[..|bits| - 1]); }
  }

  /** Page i's record, bits and bytes are one cell, and the packed maps repeat it. */
  ghost predicate Tie(cells: seq<Cell>, pages: seq<Page>, mirror: seq<PageBytes>, unheld: seq<bool>, stat: seq<bool>,
                      status: seq<Status>, dirty: seq<bool>, hot: seq<bool>, epoch: seq<bool>, i: nat) {
    && i < |cells| && i < |pages| && i < |mirror| && i < |unheld| && i < |stat|
    && i < |status| && i < |dirty| && i < |hot| && i < |epoch|
    && cells[i] == Cell(pages[i], mirror[i], unheld[i], stat[i])
    && status[i] == pages[i].status && dirty[i] == pages[i].dirty && hot[i] == pages[i].hot && epoch[i] == pages[i].epochDirty
  }

  ghost predicate Agree(cells: seq<Cell>, pages: seq<Page>, mirror: seq<PageBytes>, unheld: seq<bool>, stat: seq<bool>,
                        status: seq<Status>, dirty: seq<bool>, hot: seq<bool>, epoch: seq<bool>) {
    && |pages| == |mirror| == |unheld| == |stat| == |status| == |dirty| == |hot| == |epoch| == |cells|
    && forall i | 0 <= i < |cells| :: Tie(cells, pages, mirror, unheld, stat, status, dirty, hot, epoch, i)
  }

  /** Emptied, but for the zeroing. */
  function Emptying(c: Cell, active: bool): Cell {
    var noted := EpochNote(Snapshot(c), active, StFree);
    Pages.SetDirty(noted, !noted.p.invisible && noted.p.snap != ZeroSnap)
  }

  lemma EmptyingThenZero(c: Cell, active: bool)
    ensures Emptied(c, active) ==
              if ZeroAlready(EpochNote(Snapshot(c), active, StFree)) then Emptying(c, active)
              else Emptying(c, active).(mem := Zeros())
  {
  }

  lemma ProtectIs(m: Machine, lo: nat, hi: nat, s: Status, cells: seq<Cell>)
    requires Shaped(m) && lo <= hi <= |m.cells| == |cells|
    requires forall k | 0 <= k < |cells| :: cells[k] == if lo <= k < hi then Protected(m.cells[k], m.epochActive, s) else m.cells[k]
    ensures Protect(m, lo, hi, s) == m.(cells := cells, os := RefreshOs(cells, m.group, m.os, lo, hi))
  {
    assert Protect(m, lo, hi, s).cells == cells;
  }

  function Range(lo: nat, hi: nat): (r: set<nat>)
    ensures forall k: nat :: k in r <==> lo <= k < hi
  {
    if lo < hi then Range(lo, hi - 1) + {hi - 1} else {}
  }

  /** Page k while free_pages' loop is at page i, `run` pages not yet zeroed. */
  ghost predicate EmptyingOk(was: seq<Cell>, active: bool, lo: nat, i: nat, runStart: nat, run: nat, now: seq<Cell>, k: nat)
    requires k < |was| == |now|
  {
    if !(lo <= k < i) then now[k] == was[k]
    else if runStart <= k < runStart + run then
      now[k] == Emptying(CaughtUp(was[k]), active)
      && Emptied(CaughtUp(was[k]), active) == Emptying(CaughtUp(was[k]), active).(mem := Zeros())
    else now[k] == Emptied(CaughtUp(was[k]), active)
  }

  ghost predicate EmptyingAt(was: seq<Cell>, active: bool, lo: nat, i: nat, runStart: nat, run: nat, now: seq<Cell>) {
    |now| == |was| && forall k | 0 <= k < |was| :: EmptyingOk(was, active, lo, i, runStart, run, now, k)
  }

  predicate RunEndsAt(runStart: nat, run: nat, i: nat) {
    if run > 0 then runStart + run == i else runStart <= i
  }

  lemma EmptyingStart(was: seq<Cell>, active: bool, lo: nat, taking: bool, list: seq<nat>, dest: seq<PageBytes>)
    ensures EmptyingAt(was, active, lo, lo, lo, 0, was) && RunEndsAt(lo, 0, lo) && DestAfter(was, taking, list, dest, Range(lo, lo)) == dest
  {
    TakeNobody(was, taking, list, dest);
    assert Range(lo, lo) == {};
  }

  lemma RunFits(runStart: nat, run: nat, i: nat)
    requires RunEndsAt(runStart, run, i)
    ensures runStart + run <= i
  {
  }

  lemma EmptyingGrows(was: seq<Cell>, active: bool, lo: nat, i: nat, runStart: nat, run: nat, now: seq<Cell>, next: seq<Cell>)
    requires EmptyingAt(was, active, lo, i, runStart, run, now) && lo <= i < |was| && lo <= runStart && RunEndsAt(runStart, run, i)
    requires next == now[i := Emptying(CaughtUp(was[i]), active)]
    requires Emptied(CaughtUp(was[i]), active) == Emptying(CaughtUp(was[i]), active).(mem := Zeros())
    ensures EmptyingAt(was, active, lo, i + 1, if run == 0 then i else runStart, run + 1, next)
  {
    var i', runStart', run' := i + 1, if run == 0 then i else runStart, run + 1;
    forall k | 0 <= k < |was| ensures EmptyingOk(was, active, lo, i', runStart', run', next, k) {
      assert EmptyingOk(was, active, lo, i, runStart, run, now, k);
    }
  }

  lemma EmptyingDone(was: seq<Cell>, active: bool, lo: nat, hi: nat, runStart: nat, run: nat, now: seq<Cell>, next: seq<Cell>)
    requires EmptyingAt(was, active, lo, hi, runStart, run, now) && lo <= runStart && RunEndsAt(runStart, run, hi) && |next| == |now|
    requires forall k | 0 <= k < |now| :: next[k] == if runStart <= k < runStart + run then now[k].(mem := Zeros()) else now[k]
    ensures EmptyingAt(was, active, lo, hi, lo, 0, next)
  {
    forall k | 0 <= k < |was| ensures EmptyingOk(was, active, lo, hi, lo, 0, next, k) {
      assert EmptyingOk(was, active, lo, hi, runStart, run, now, k);
    }
  }

  lemma EmptyingFlushed(was: seq<Cell>, active: bool, lo: nat, i: nat, runStart: nat, run: nat,
                        now: seq<Cell>, mid: seq<Cell>, next: seq<Cell>)
    requires EmptyingAt(was, active, lo, i, runStart, run, now) && lo <= i < |was| && lo <= runStart && RunEndsAt(runStart, run, i)
    requires mid == now[i := Emptying(CaughtUp(was[i]), active)]
    requires Emptied(CaughtUp(was[i]), active) == Emptying(CaughtUp(was[i]), active)
    requires |next| == |mid|
    requires forall k | 0 <= k < |mid| :: next[k] == if runStart <= k < runStart + run then mid[k].(mem := Zeros()) else mid[k]
    ensures EmptyingAt(was, active, lo, i + 1, runStart, 0, next)
  {
    var i' := i + 1;
    forall k | 0 <= k < |was| ensures EmptyingOk(was, active, lo, i', runStart, 0, next, k) {
      assert EmptyingOk(was, active, lo, i, runStart, run, now, k);
    }
  }

  /** The plan's list and slots are in order, as raw fields. */
  ghost predicate SlotsOk(cells: seq<Cell>, list: seq<nat>, dest: seq<PageBytes>) {
    && |dest| == |list| && (forall k | 0 <= k < |list| :: list[k] < |cells|)
    && (forall i | 0 <= i < |cells| :: SlotOk(cells, list, i))
  }

  predicate SlotOk(cells: seq<Cell>, list: seq<nat>, i: nat)
    requires i < |cells|
  {
    cells[i].p.planHold != Clear ==> cells[i].p.planSlot < |list| && list[cells[i].p.planSlot] == i
  }

  lemma SlotsShape(m: Machine)
    requires m.plan.Open? ==> SlotsOk(m.cells, m.plan.list, m.plan.dest)
    ensures PlanShaped(m)
  {
    if m.plan.Open? {
      forall i | 0 <= i < |m.cells| && m.cells[i].p.planHold != Clear
        ensures m.cells[i].p.planSlot < |m.plan.list| && m.plan.list[m.cells[i].p.planSlot] == i
      {
        assert SlotOk(m.cells, m.plan.list, i);
      }
    }
  }

  lemma ShapeSlots(m: Machine)
    requires PlanShaped(m)
    ensures m.plan.Open? ==> SlotsOk(m.cells, m.plan.list, m.plan.dest)
  {
  }

  /** What plan_take needs of the pages [first, end): nobody copying, and the
      slots in order - or, with no plan, nothing owed. */
  ghost predicate CanTake(cells: seq<Cell>, active: bool, list: seq<nat>, dest: seq<PageBytes>, first: nat, end: nat) {
    && end <= |cells|
    && (forall k | first <= k < end :: !cells[k].p.planHold.Copying?)
    && (active ==> SlotsOk(cells, list, dest))
    && (!active ==> forall k | first <= k < end :: cells[k].p.planHold == Clear)
  }

  ghost function DestAfter(cells: seq<Cell>, active: bool, list: seq<nat>, dest: seq<PageBytes>, which: set<nat>): (r: seq<PageBytes>)
  {
    if active && SlotsOk(cells, list, dest) then DestTaken(cells, list, dest, which) else dest
  }

  /** The plan after plan_take on every page of `which`. */
  ghost function PlanAfter(m: Machine, which: set<nat>): Plan {
    if m.plan.Idle? then Idle
    else m.plan.(dest := DestAfter(m.cells, true, m.plan.list, m.plan.dest, which))
  }

  lemma TakeNobody(cells: seq<Cell>, active: bool, list: seq<nat>, dest: seq<PageBytes>)
    ensures DestAfter(cells, active, list, dest, {}) == dest
  {
  }

  lemma TakeOneMore(cells: seq<Cell>, active: bool, list: seq<nat>, dest: seq<PageBytes>, which: set<nat>, i: nat)
    requires active ==> SlotsOk(cells, list, dest)
    requires i < |cells| && (!active ==> cells[i].p.planHold == Clear)
    ensures cells[i].p.planHold == Owed ==> active && cells[i].p.planSlot < |dest|
    ensures var was, now := DestAfter(cells, active, list, dest, which), DestAfter(cells, active, list, dest, which + {i});
            |was| == |dest| && now == if cells[i].p.planHold == Owed then was[cells[i].p.planSlot := cells[i].mem] else was
  {
    if active {
      var was, now := DestTaken(cells, list, dest, which), DestTaken(cells, list, dest, which + {i});
      var slot := cells[i].p.planSlot;
      assert SlotOk(cells, list, i);
      forall k | 0 <= k < |dest|
        ensures now[k] == if cells[i].p.planHold == Owed && k == slot then cells[i].mem else was[k]
      {
        if list[k] != i {
          assert (list[k] in which + {i}) == (list[k] in which);
        }
      }
    }
  }

  lemma ProtectCells(m: Machine, lo: nat, hi: nat, s: Status)
    requires Shaped(m) && lo <= hi <= |m.cells|
    ensures forall k | 0 <= k < |m.cells| ::
              Protect(m, lo, hi, s).cells[k] == if lo <= k < hi then Protected(m.cells[k], m.epochActive, s) else m.cells[k]
    ensures Protect(m, lo, hi, s).os == RefreshOs(Protect(m, lo, hi, s).cells, m.group, m.os, lo, hi)
  {
  }

  /** The pieces free_pages leaves make up the machine GiveBack describes. */
  lemma GivenBackIs(m: Machine, lo: nat, hi: nat, adviseOnly: bool, mid: seq<Cell>, r: Machine)
    requires Shaped(m) && PlanShaped(m) && lo <= hi <= |m.cells| == |r.cells| == |mid|
    requires EmptyingAt(m.cells, m.epochActive, lo, hi, lo, 0, mid)
    requires forall k | 0 <= k < |mid| ::
               r.cells[k] == if lo <= k < hi then (if adviseOnly then Refreshed(mid[k]) else Protected(mid[k], m.epochActive, StFree)) else mid[k]
    requires r.os == RefreshOs(r.cells, m.group, m.os, lo, hi)
    requires r.group == m.group && r.epochActive == m.epochActive && r.epochNo == m.epochNo
    requires r.plan == if m.plan.Idle? then Idle else m.plan.(dest := DestTaken(m.cells, m.plan.list, m.plan.dest, Range(lo, hi)))
    ensures r == GiveBack(TakeIn(m, Range(lo, hi)), lo, hi, adviseOnly)
  {
    hide Refreshed, Protected, Emptied, Emptying, RefreshOs;
    var t := TakeIn(m, Range(lo, hi));
    forall k | 0 <= k < |mid|
      ensures r.cells[k] == if lo <= k < hi then GivenBack(t.cells[k], t.epochActive, adviseOnly) else t.cells[k]
    {
      assert EmptyingOk(m.cells, m.epochActive, lo, hi, lo, 0, mid, k);
    }
    assert GiveBack(t, lo, hi, adviseOnly).cells == r.cells;
  }

  /** After free_pages' loop and before the protection. */
  ghost predicate AllEmptied(m: Machine, lo: nat, hi: nat, mid: Machine) {
    && Shaped(m) && PlanShaped(m) && lo <= hi <= |m.cells|
    && EmptyingAt(m.cells, m.epochActive, lo, hi, lo, 0, mid.cells)
    && mid == m.(cells := mid.cells,
                 plan := if m.plan.Idle? then Idle else m.plan.(dest := DestTaken(m.cells, m.plan.list, m.plan.dest, Range(lo, hi))))
  }

  lemma AdvisedIs(m: Machine, lo: nat, hi: nat, mid: Machine, cells: seq<Cell>)
    requires AllEmptied(m, lo, hi, mid) && RangeRefreshed(mid.cells, lo, hi, cells)
    ensures mid.(cells := cells, os := RefreshOs(cells, m.group, m.os, lo, hi)) == GiveBack(TakeIn(m, Range(lo, hi)), lo, hi, true)
  {
    GivenBackIs(m, lo, hi, true, mid.cells, mid.(cells := cells, os := RefreshOs(cells, m.group, m.os, lo, hi)));
  }

  lemma UnmappedIs(m: Machine, lo: nat, hi: nat, mid: Machine)
    requires AllEmptied(m, lo, hi, mid)
    ensures Protect(mid, lo, hi, StFree) == GiveBack(TakeIn(m, Range(lo, hi)), lo, hi, false)
  {
    ProtectCells(mid, lo, hi, StFree);
    GivenBackIs(m, lo, hi, false, mid.cells, Protect(mid, lo, hi, StFree));
  }

  /** Page i's host page is pages [first, end). */
  ghost predicate Span(g: nat, n: nat, i: nat, first: nat, end: nat) {
    g > 0 && first <= i < end <= n && forall q: nat | q < n :: SameGroup(g, i, q) <==> first <= q < end
  }

  lemma SpanOf(g: nat, n: nat, i: nat)
    requires g > 0 && i < n
    ensures var first := i - i % g;
            first <= i && Span(g, n, i, first, if first + g < n then first + g else n)
  {
    var first := i - i % g;
    RoundDown(g, i);
    forall q: nat | q < n ensures SameGroup(g, i, q) <==> first <= q < first + g {
      InGroup(g, first, q);
    }
  }

  /** Page k when trip's first loop is at page q. */
  ghost predicate SnapshotAt(was: seq<Cell>, g: nat, i: nat, q: nat, now: seq<Cell>, k: nat)
    requires g > 0 && i < |was| == |now| && k < |was|
  {
    now[k] == if k < q && FoundHeld(was, g, i, k) then Snapshot(was[k]) else was[k]
  }

  ghost predicate AllSnapshotAt(was: seq<Cell>, g: nat, i: nat, q: nat, now: seq<Cell>) {
    g > 0 && i < |was| == |now| && forall k | 0 <= k < |was| :: SnapshotAt(was, g, i, q, now, k)
  }

  lemma SnapshotStart(was: seq<Cell>, g: nat, i: nat, first: nat, end: nat)
    requires Span(g, |was|, i, first, end)
    ensures AllSnapshotAt(was, g, i, first, was)
  {
    forall k | 0 <= k < |was| ensures SnapshotAt(was, g, i, first, was, k) {
      assert SameGroup(g, i, k) ==> first <= k;
    }
  }

  lemma SnapshotStep(was: seq<Cell>, g: nat, i: nat, q: nat, now: seq<Cell>, next: seq<Cell>)
    requires AllSnapshotAt(was, g, i, q, now) && q < |was|
    requires next == if FoundHeld(was, g, i, q) then now[q := Snapshot(was[q])] else now
    ensures AllSnapshotAt(was, g, i, q + 1, next)
  {
    var q' := q + 1;
    forall k | 0 <= k < |was| ensures SnapshotAt(was, g, i, q', next, k) {
      assert SnapshotAt(was, g, i, q, now, k);
    }
  }

  lemma SpanFits(was: seq<Cell>, g: nat, i: nat, first: nat, end: nat, now: seq<Cell>)
    requires Span(g, |now|, i, first, end) && AllSnapshotAt(was, g, i, end, now)
    ensures g > 0 && |was| == |now| && first <= i < end <= |now|
  {
  }

  /** A held page once trip has recorded it, but for its unheld bit. */
  function Recording(c: Cell, active: bool): Cell {
    Pages.SetDirty(CaughtUp(Pages.EpochCapture(c, active)), true)
  }

  /** The pages below q that a fault on page i finds held. */
  function HeldBelow(was: seq<Cell>, g: nat, i: nat, q: nat): (r: set<nat>)
    requires g > 0 && i < |was| && q <= |was|
    ensures forall k: nat :: k in r <==> k < q && FoundHeld(was, g, i, k)
  {
    if q == 0 then {}
    else HeldBelow(was, g, i, q - 1) + (if FoundHeld(was, g, i, q - 1) then {q - 1} else {})
  }

  lemma HeldBelowSpan(was: seq<Cell>, g: nat, i: nat, first: nat, end: nat)
    requires Span(g, |was|, i, first, end)
    ensures HeldBelow(was, g, i, first) == {}
    ensures HeldBelow(was, g, i, end) == HeldBelow(was, g, i, |was|)
  {
    forall k: nat | k < first ensures k !in HeldBelow(was, g, i, first) {
      assert !SameGroup(g, i, k);
    }
    forall k: nat | k < |was| && FoundHeld(was, g, i, k) ensures k < end {
      assert SameGroup(g, i, k);
    }
  }

  /** Which pages of the host page were let go, from the first on. */
  ghost predicate Marks(was: seq<Cell>, g: nat, i: nat, first: nat, q: nat, released: seq<bool>) {
    && g > 0 && i < |was| && first <= q <= |was| && |released| == q - first
    && forall k | 0 <= k < |released| :: released[k] == FoundHeld(was, g, i, first + k)
  }

  lemma MarksNone(was: seq<Cell>, g: nat, i: nat, first: nat)
    requires g > 0 && i < |was| && first <= |was|
    ensures Marks(was, g, i, first, first, [])
  {
  }

  lemma MarksOneMore(was: seq<Cell>, g: nat, i: nat, first: nat, q: nat, released: seq<bool>, held: bool)
    requires Marks(was, g, i, first, q, released) && q < |was| && held == FoundHeld(was, g, i, q)
    ensures Marks(was, g, i, first, q + 1, released + [held])
  {
  }

  lemma MarksLength(was: seq<Cell>, g: nat, i: nat, first: nat, q: nat, released: seq<bool>)
    requires Marks(was, g, i, first, q, released)
    ensures |released| == q - first
  {
  }

  /** Page k when trip's second loop is at page q. */
  ghost predicate RecordAt(was: seq<Cell>, g: nat, i: nat, active: bool, q: nat, now: seq<Cell>, k: nat)
    requires g > 0 && i < |was| == |now| && k < |was|
  {
    now[k] == if !FoundHeld(was, g, i, k) then was[k]
              else if k < q then Recording(Snapshot(was[k]), active) else Snapshot(was[k])
  }

  ghost predicate AllRecordAt(was: seq<Cell>, g: nat, i: nat, active: bool, q: nat, now: seq<Cell>) {
    g > 0 && i < |was| == |now| && forall k | 0 <= k < |was| :: RecordAt(was, g, i, active, q, now, k)
  }

  lemma RecordStart(was: seq<Cell>, g: nat, i: nat, active: bool, first: nat, end: nat, now: seq<Cell>)
    requires Span(g, |was|, i, first, end) && AllSnapshotAt(was, g, i, end, now)
    ensures AllRecordAt(was, g, i, active, first, now)
  {
    forall k | 0 <= k < |was| ensures RecordAt(was, g, i, active, first, now, k) {
      assert SnapshotAt(was, g, i, end, now, k);
      assert SameGroup(g, i, k) ==> first <= k < end;
    }
  }

  lemma RecordStep(was: seq<Cell>, g: nat, i: nat, active: bool, q: nat, now: seq<Cell>, next: seq<Cell>)
    requires AllRecordAt(was, g, i, active, q, now) && q < |was|
    requires next == if FoundHeld(was, g, i, q) then now[q := Recording(Snapshot(was[q]), active)] else now
    ensures AllRecordAt(was, g, i, active, q + 1, next)
  {
    var q' := q + 1;
    forall k | 0 <= k < |was| ensures RecordAt(was, g, i, active, q', next, k) {
      assert RecordAt(was, g, i, active, q, now, k);
    }
  }

  function Unheld(c: Cell): Cell {
    if c.p.hot then c else c.(unheld := true)
  }

  /** Page k when trip's last loop is at page q. */
  ghost predicate UnheldAt(was: seq<Cell>, g: nat, i: nat, mid: seq<Cell>, q: nat, now: seq<Cell>, k: nat)
    requires g > 0 && i < |was| == |mid| == |now| && k < |was|
  {
    now[k] == if k < q && FoundHeld(was, g, i, k) then Unheld(mid[k]) else mid[k]
  }

  ghost predicate AllUnheldAt(was: seq<Cell>, g: nat, i: nat, mid: seq<Cell>, q: nat, now: seq<Cell>) {
    g > 0 && i < |was| == |mid| == |now| && forall k | 0 <= k < |was| :: UnheldAt(was, g, i, mid, q, now, k)
  }

  lemma UnheldStart(was: seq<Cell>, g: nat, i: nat, first: nat, end: nat, mid: seq<Cell>)
    requires Span(g, |was|, i, first, end) && |mid| == |was|
    ensures AllUnheldAt(was, g, i, mid, first, mid) && first <= end <= |mid|
  {
    forall k | 0 <= k < |was| ensures UnheldAt(was, g, i, mid, first, mid, k) {
      assert SameGroup(g, i, k) ==> first <= k;
    }
  }

  lemma UnheldStep(was: seq<Cell>, g: nat, i: nat, first: nat, end: nat, mid: seq<Cell>, q: nat, released: seq<bool>,
                   now: seq<Cell>, next: seq<Cell>)
    requires AllUnheldAt(was, g, i, mid, q, now) && Marks(was, g, i, first, end, released) && first <= q < end <= |now|
    requires next == if released[q - first] then now[q := if now[q].p.hot then now[q] else now[q].(unheld := true)] else now
    ensures AllUnheldAt(was, g, i, mid, q + 1, next)
    ensures |now| == |next| == |mid|
  {
    var q' := q + 1;
    assert released[q - first] == FoundHeld(was, g, i, q) by { var k := q - first; assert q == first + k; }
    assert UnheldAt(was, g, i, mid, q, now, q);
    forall k | 0 <= k < |was| ensures UnheldAt(was, g, i, mid, q', next, k) {
      assert UnheldAt(was, g, i, mid, q, now, k);
    }
  }

  lemma RecordedLength(was: seq<Cell>, g: nat, i: nat, active: bool, q: nat, now: seq<Cell>)
    requires AllRecordAt(was, g, i, active, q, now)
    ensures |now| == |was|
  {
  }

  lemma CanTakeShape(m: Machine, first: nat, end: nat)
    requires m.plan.Open? ==> CanTake(m.cells, true, m.plan.list, m.plan.dest, first, end)
    ensures PlanShaped(m)
  {
    SlotsShape(m);
  }

  /** Recording a held page in the handler's order is letting it go. */
  lemma RecordingLetsGo(c: Cell, active: bool)
    ensures Unheld(Recording(Snapshot(c), active)) == LetGo(CaughtUp(c), active)
    ensures NativeProt(Unheld(c).p) == NativeProt(c.p) && Unheld(c).p.status == c.p.status
    ensures CaughtUp(c).p.status == c.p.status
  {
    hide NativeProt, EpochTracks;
    var s := Snapshot(c);
    assert Snapshot(CaughtUp(c)) == CaughtUp(s);
    var e := EpochCapture(s, active);
    assert EpochCapture(CaughtUp(s), active) == CaughtUp(e) by { TracksAlike(s); }
    UnheldProt(c);
  }

  lemma TracksAlike(c: Cell)
    ensures EpochTracks(CaughtUp(c).p) == EpochTracks(c.p)
  {
  }

  lemma UnheldProt(c: Cell)
    ensures NativeProt(Unheld(c).p) == NativeProt(c.p) && Unheld(c).p.status == c.p.status
  {
  }

  /** The pieces trip's loops leave make up the machine Trip describes. */
  lemma TripIs(m: Machine, i: nat, first: nat, end: nat, mid: seq<Cell>, now: seq<Cell>)
    requires Shaped(m) && PlanShaped(m) && Span(m.group, |m.cells|, i, first, end)
    requires AllRecordAt(m.cells, m.group, i, m.epochActive, end, mid) && AllUnheldAt(m.cells, m.group, i, mid, end, now)
    ensures var which := HeldBelow(m.cells, m.group, i, end);
            Trip(TakeIn(m, which), i, which) ==
              Machine(now, m.group, RefreshOs(mid, m.group, m.os, i, i + 1), m.epochActive, m.epochNo, PlanAfter(m, which))
  {
    var which := HeldBelow(m.cells, m.group, i, end);
    var t := TakeIn(m, which);
    var r := Trip(t, i, which);
    forall k | 0 <= k < |now| ensures r.cells[k] == now[k] && NativeProt(now[k].p) == NativeProt(mid[k].p) && now[k].p.status == mid[k].p.status {
      TripIsAt(m, i, first, end, mid, now, k);
    }
    assert r.cells == now;
    SameRefresh(mid, now, m.group, m.os, i, i + 1);
    ShapeSlots(m);
  }

  lemma TripIsAt(m: Machine, i: nat, first: nat, end: nat, mid: seq<Cell>, now: seq<Cell>, k: nat)
    requires Shaped(m) && PlanShaped(m) && Span(m.group, |m.cells|, i, first, end) && k < |m.cells|
    requires AllRecordAt(m.cells, m.group, i, m.epochActive, end, mid) && AllUnheldAt(m.cells, m.group, i, mid, end, now)
    ensures var which := HeldBelow(m.cells, m.group, i, end);
            Trip(TakeIn(m, which), i, which).cells[k] == now[k]
    ensures NativeProt(now[k].p) == NativeProt(mid[k].p) && now[k].p.status == mid[k].p.status
  {
    hide NativeProt, LetGo, Recording, CaughtUp, Snapshot, Unheld, SameGroup, HeldBelow, RefreshOs, DestTaken;
    assert RecordAt(m.cells, m.group, i, m.epochActive, end, mid, k);
    assert UnheldAt(m.cells, m.group, i, mid, end, now, k);
    assert SameGroup(m.group, i, k) <==> first <= k < end;
    RecordingLetsGo(m.cells[k], m.epochActive);
    RecordingLetsGo(mid[k], m.epochActive);
  }

  /** What the OS is told depends on the pages' protections alone. */
  lemma SameRefresh(a: seq<Cell>, b: seq<Cell>, g: nat, os: seq<Prot>, lo: nat, hi: nat)
    requires g > 0 && |a| == |b| == |os|
    requires forall k | 0 <= k < |a| :: NativeProt(a[k].p) == NativeProt(b[k].p) && a[k].p.status == b[k].p.status
    ensures RefreshOs(a, g, os, lo, hi) == RefreshOs(b, g, os, lo, hi)
  {
    forall k | 0 <= k < |a| ensures GroupProt(a, g, k) == GroupProt(b, g, k) {
      GroupProtDepends(a, b, g, k);
    }
  }

  // ---- nobody mid-copy ----

  /** No copier is part way through a page. */
  ghost predicate Quiet(cells: seq<Cell>) {
    forall k | 0 <= k < |cells| :: !cells[k].p.planHold.Copying?
  }

  lemma TakeReady(m: Machine, base: seq<PageBytes>, list: seq<nat>, dest: seq<PageBytes>, first: nat, end: nat)
    requires Inv(m, base) && Quiet(m.cells) && end <= |m.cells|
    requires m.plan.Open? ==> m.plan.list == list && m.plan.dest == dest
    ensures CanTake(m.cells, m.plan.Open?, list, dest, first, end)
  {
    ShapeSlots(m);
  }

  lemma TakeInNone(m: Machine)
    requires PlanShaped(m)
    ensures TakeIn(m, {}) == m
  {
    assert TakeIn(m, {}).cells == m.cells;
    if m.plan.Open? { assert DestTaken(m.cells, m.plan.list, m.plan.dest, {}) == m.plan.dest; }
  }

  /** Copying some owed pages and letting them go keeps the block sound. */
  lemma TakeInKeeps(m: Machine, base: seq<PageBytes>, which: set<nat>)
    requires Inv(m, base)
    ensures Inv(TakeIn(m, which), base) && (Enrolled(m) ==> Enrolled(TakeIn(m, which)))
  {
    if Enrolled(m) { TakeInEnrols(m, which); }
    TakeInSound(m, base, which);
  }

  lemma TakeInEnrols(m: Machine, which: set<nat>)
    requires Shaped(m) && PlanShaped(m) && Enrolled(m)
    ensures Enrolled(TakeIn(m, which))
  {
    assert forall k | 0 <= k < |m.cells| :: Enlisted(TakeIn(m, which).cells[k]) == Enlisted(m.cells[k]);
  }

  lemma TakeInSound(m: Machine, base: seq<PageBytes>, which: set<nat>)
    requires Inv(m, base)
    ensures Inv(TakeIn(m, which), base)
  {
    var t := TakeIn(m, which);
    forall k | 0 <= k < |m.cells|
      ensures CellOk(t.cells[k], base[k]) && OwesNothingFree(t.cells[k]) && (Armed(t.cells[k].p) ==> Armed(m.cells[k].p))
      ensures t.cells[k].p.status == m.cells[k].p.status && t.cells[k].p.planSlot == m.cells[k].p.planSlot
      ensures t.cells[k].p.planHold == m.cells[k].p.planHold || t.cells[k].p.planHold == Clear
    {
      assert OwesNothingFree(m.cells[k]);
    }
    RetoldWatched(m, t.cells, t.os, {});
    assert t == m.(cells := t.cells, os := t.os).(plan := t.plan);
  }

  lemma TakeInQuiet(m: Machine, which: set<nat>)
    requires PlanShaped(m) && Quiet(m.cells)
    ensures Quiet(TakeIn(m, which).cells)
    ensures forall k | 0 <= k < |m.cells| && k in which :: TakeIn(m, which).cells[k].p.planHold == Clear
  {
  }

  /** The machine after a write fault on page i: the planned state given what it
      is owed of the pages let go, and those pages recorded. */
  ghost function Faulted(m: Machine, i: nat): Machine
    requires Shaped(m) && PlanShaped(m) && i < |m.cells|
  {
    var which := HeldBelow(m.cells, m.group, i, |m.cells|);
    Trip(TakeIn(m, which), i, which)
  }

  /** The machine after a guest write to page i. */
  ghost function Overwritten(m: Machine, i: nat, bytes: PageBytes): Machine
    requires Shaped(m) && PlanShaped(m) && i < |m.cells|
  {
    var which := if Writable(m.os[i]) then {} else HeldBelow(m.cells, m.group, i, |m.cells|);
    GuestWrite(TakeIn(m, which), i, bytes, which)
  }

  lemma OverwrittenIs(m: Machine, i: nat, bytes: PageBytes)
    requires Shaped(m) && PlanShaped(m) && i < |m.cells|
    ensures Shaped(Faulted(m, i)) && |Faulted(m, i).cells| == |m.cells|
    ensures Overwritten(m, i, bytes) == Store(if Writable(m.os[i]) then m else Faulted(m, i), i, bytes)
  {
    TakeInNone(m);
  }

  lemma FaultServes(m: Machine, base: seq<PageBytes>, i: nat)
    requires Inv(m, base) && Quiet(m.cells) && i < |m.cells| && Tracked(m.cells[i].p.status)
    ensures |Faulted(m, i).cells| == |m.cells|
    ensures Faulted(m, i).cells[i].p.dirty && Faulted(m, i).cells[i].p.status == m.cells[i].p.status
  {
    hide Inv, Trip, TakeIn, HeldBelow;
    FaultKeeps(m, base, i);
  }

  /** The write fault keeps the block sound, and the write can then go ahead. */
  lemma FaultKeeps(m: Machine, base: seq<PageBytes>, i: nat)
    requires Inv(m, base) && Quiet(m.cells) && i < |m.cells| && Tracked(m.cells[i].p.status)
    ensures var which := HeldBelow(m.cells, m.group, i, |m.cells|);
            var r := Trip(TakeIn(m, which), i, which);
            Inv(r, base) && Quiet(r.cells) && |r.cells| == |m.cells| && Writable(r.os[i])
            && r.cells[i].p.dirty && r.cells[i].p.status == m.cells[i].p.status
            && (Enrolled(m) ==> Enrolled(r))
  {
    hide *;
    FaultReady(m, base, i);
    var which := HeldBelow(m.cells, m.group, i, |m.cells|);
    var t := TakeIn(m, which);
    TripKeeps(t, base, i, which);
    TripServes(t, base, i, which);
    TripHolds(t, base, i, which);
  }

  /** Letting pages go leaves what they owe the plan as it was. */
  lemma TripHolds(m: Machine, base: seq<PageBytes>, i: nat, also: set<nat>)
    requires Inv(m, base) && Quiet(m.cells) && i < |m.cells| && LetsGo(m.cells, m.group, i, also, i)
    ensures var r := Trip(m, i, also);
            && |r.cells| == |r.os| == |m.cells| && Quiet(r.cells) && r.cells[i].p.dirty && r.cells[i].p.status == m.cells[i].p.status
  {
    hide NativeProt, Touches, GroupProt, SameGroup, LetGo, Watched, Tight;
    var r := Trip(m, i, also);
    LetGoOk(m.cells[i], base[i], m.epochActive);
    forall k | 0 <= k < |m.cells| ensures !r.cells[k].p.planHold.Copying? {
      if LetsGo(m.cells, m.group, i, also, k) { LetGoOk(m.cells[k], base[k], m.epochActive); }
    }
  }

  lemma FaultReady(m: Machine, base: seq<PageBytes>, i: nat)
    requires Inv(m, base) && Quiet(m.cells) && i < |m.cells| && Tracked(m.cells[i].p.status)
    ensures var which := HeldBelow(m.cells, m.group, i, |m.cells|);
            var t := TakeIn(m, which);
            && m.group > 0 && PlanShaped(m) && Shaped(t) && t.group == m.group
            && |t.cells| == |m.cells| && t.cells[i].p.status == m.cells[i].p.status
            && Inv(t, base) && (Enrolled(m) ==> Enrolled(t)) && Quiet(t.cells) && LetsGo(t.cells, m.group, i, which, i)
            && (forall q | 0 <= q < |t.cells| && LetsGo(t.cells, m.group, i, which, q) :: t.cells[q].p.planHold == Clear)
  {
    var which := HeldBelow(m.cells, m.group, i, |m.cells|);
    var t := TakeIn(m, which);
    TakeInKeeps(m, base, which);
    TakeInQuiet(m, which);
    assert FoundHeld(m.cells, m.group, i, i);
    assert forall q | 0 <= q < |t.cells| && q !in which :: t.cells[q] == m.cells[q];
  }

  /** A baseline copy changes nothing about who is held. */
  lemma FoundHeldSnapshot(was: seq<Cell>, now: seq<Cell>, g: nat, i: nat, q: nat, active: bool)
    requires g > 0 && i < |was| == |now| && q < |was| && RecordAt(was, g, i, active, q, now, q)
    ensures FoundHeld(now, g, i, q) == FoundHeld(was, g, i, q)
    ensures now[q].p.planHold == was[q].p.planHold && now[q].p.planSlot == was[q].p.planSlot && now[q].mem == was[q].mem
    ensures FoundHeld(was, g, i, q) ==> now[q] == Snapshot(was[q])
  {
  }

  /** Pages [lo, hi) refreshed, the rest as they were. */
  ghost predicate RangeRefreshed(was: seq<Cell>, lo: nat, hi: nat, now: seq<Cell>) {
    |now| == |was| && forall k | 0 <= k < |was| :: now[k] == if lo <= k < hi then Refreshed(was[k]) else was[k]
  }

  lemma RunToldBy(run: ProtRun, was: seq<Cell>, now: seq<Cell>)
    requires run.open && run.start <= run.last && RangeRefreshed(was, run.start, run.last + 1, now)
    ensures RunTold(run, was, now)
  {
  }

  /** The walk has not reached page k. */
  lemma AtAhead(w: Walk, k: nat, run: ProtRun, cells: seq<Cell>, os: seq<Prot>)
    requires At(w, k, run, cells, os) && k < |w.goal|
    ensures |cells| == |w.goal| == |w.orig| == |w.noted| && cells[k] == w.orig[k]
  {
  }

  lemma AtLength(w: Walk, k: nat, run: ProtRun, cells: seq<Cell>, os: seq<Prot>)
    requires At(w, k, run, cells, os)
    ensures |cells| == |w.orig|
  {
  }

  /** Passing a page that is not noted and stays as it was. */
  lemma AdvanceOne(w: Walk, k: nat, run: ProtRun, cells: seq<Cell>, os: seq<Prot>)
    requires At(w, k, run, cells, os) && k < |w.goal| && !w.noted[k] && w.goal[k] == w.orig[k]
    ensures At(w, k + 1, run, cells, os)
  {
    Advance(w, k, k + 1, run, cells, cells, os);
  }

  // ---- an epoch opening ----

  function Shadowed(c: Cell): Cell {
    if c.p.hot then c.(p := c.p.(shadow := Some(c.mem))) else c
  }

  function Reheld(c: Cell): Cell {
    c.(unheld := false, p := c.p.(held := c.p.held || EpochTracks(c.p)))
  }

  function Rehold(cells: seq<Cell>): (r: seq<Cell>)
    ensures |r| == |cells|
    ensures forall i | 0 <= i < |cells| :: r[i] == if cells[i].unheld then Reheld(cells[i]) else cells[i]
  {
    seq(|cells|, i requires 0 <= i < |cells| => if cells[i].unheld then Reheld(cells[i]) else cells[i])
  }

  function UnheldBits(cells: seq<Cell>): (r: seq<bool>)
    ensures |r| == |cells|
    ensures forall i | 0 <= i < |cells| :: r[i] == cells[i].unheld
  {
    seq(|cells|, i requires 0 <= i < |cells| => cells[i].unheld)
  }

  lemma OpenedCell(c: Cell)
    ensures var s := Shadowed(Forgotten(c));
            Opened(c) == (if c.unheld then Refreshed(Reheld(s)) else s) && s.unheld == c.unheld
  {
  }

  /** Forgetting, shadowing and holding again make up an epoch opening. */
  lemma OpenedIs(m: Machine, found: seq<Cell>, cells: seq<Cell>, os: seq<Prot>)
    requires Shaped(m) && |found| == |m.cells|
    requires forall k | 0 <= k < |found| :: found[k] == Shadowed(EpochClear(m).cells[k])
    requires cells == Settled(Rehold(found), UnheldBits(found))
    requires os == SettledOs(Rehold(found), UnheldBits(found), m.group, m.os)
    ensures EpochBegin(m) == m.(cells := cells, os := os, epochActive := true, epochNo := (m.epochNo + 1) % 65536)
  {
    hide Shadowed, Reheld, GroupProt, Opened, Refreshed, SameGroup;
    var r, goal, noted := EpochBegin(m), Rehold(found), UnheldBits(found);
    forall k | 0 <= k < |cells| ensures r.cells[k] == cells[k] {
      OpenedCell(m.cells[k]);
    }
    assert r.cells == cells;
    forall k | 0 <= k < |cells| ensures noted[k] == m.cells[k].unheld {
      OpenedCell(m.cells[k]);
    }
    forall k | 0 <= k < |cells| ensures r.os[k] == os[k] {
      SettledProt(goal, noted, m.group, k);
      assert GroupUnheld(m.cells, m.group, k) == GroupNoted(noted, m.group, k);
    }
    assert r.os == os;
  }

  /** Refreshing a page does not change what its host page is given. */
  lemma SettledProt(goal: seq<Cell>, noted: seq<bool>, g: nat, k: nat)
    requires g > 0 && |noted| == |goal| && k < |goal|
    ensures GroupProt(Settled(goal, noted), g, k) == GroupProt(goal, g, k)
  {
    hide GroupProt, NativeProt, SameGroup, Refreshed;
    var r := Settled(goal, noted);
    forall j | 0 <= j < |goal| ensures NativeProt(r[j].p) == NativeProt(goal[j].p) && r[j].p.status == goal[j].p.status {
      SameNative(goal[j]);
    }
    GroupProtDepends(r, goal, g, k);
  }

  lemma BeginQuiet(m: Machine, base: seq<PageBytes>)
    requires Inv(m, base) && Quiet(m.cells)
    ensures Quiet(EpochBegin(m).cells)
  {
    hide Opened, GroupProt, Watched, Tight, CellOk;
    var r := EpochBegin(m);
    forall k | 0 <= k < |r.cells| ensures !r.cells[k].p.planHold.Copying? {
      OpenedOk(m.cells[k], base[k]);
    }
  }

  // ---- heat ----

  function GoesHot(c: Cell): Cell {
    c.(p := c.p.(shadow := Some(c.mem), hot := true, heat := 0), unheld := false)
  }

  lemma HeatStart(cells: seq<Cell>, epochNo: nat)
    ensures HeatBelow(cells, epochNo, 0) == cells
  {
  }

  lemma HeatStep(cells: seq<Cell>, epochNo: nat, k: nat)
    requires k < |cells|
    ensures var r := HeatBelow(cells, epochNo, k);
            HeatBelow(cells, epochNo, k + 1) == r[k := Heated(r[k], epochNo, CountHot(r) < HOT_MOST)]
  {
  }

  lemma DeltaQuiet(m: Machine, base: seq<PageBytes>)
    requires Inv(m, base) && Quiet(m.cells)
    ensures Quiet(CompareHot(m).cells) && Quiet(SaveDelta(m).0.cells)
  {
    hide Compared, Heated, Watched, Tight;
    var c, r := CompareHot(m), SaveDelta(m).0;
    CompareKeeps(m, base);
    forall k | 0 <= k < |c.cells|
      ensures !c.cells[k].p.planHold.Copying? && !r.cells[k].p.planHold.Copying?
    {
      HeatedArms(m.cells[k], base[k], 0, false);
      HeatedArms(c.cells[k], base[k], m.epochNo, true);
      HeatedArms(c.cells[k], base[k], m.epochNo, false);
    }
  }

  /** The list of set bits is as long as the count kept beside them. */
  lemma {:induction false} PicksCount(bits: seq<bool>)
    ensures |Picks(bits, |bits|)| == Count(bits)
  {
    if bits != [] {
      var n := |bits| - 1;
      PicksCount(bits[..n]);
      PicksPrefix(bits, n);
    }
  }

  lemma {:induction false} PicksPrefix(bits: seq<bool>, k: nat)
    requires k <= |bits|
    ensures Picks(bits[..k], k) == Picks(bits, k)
  {
    PicksAgree(bits[..k], bits, k);
  }

  lemma {:induction false} PicksAgree(a: seq<bool>, b: seq<bool>, k: nat)
    requires k <= |a| && k <= |b| && forall i | 0 <= i < k :: a[i] == b[i]
    ensures Picks(a, k) == Picks(b, k)
  {
    if k > 0 { PicksAgree(a, b, k - 1); }
  }

  // ---- the pages a state carries ----

  predicate NoneSet(bits: seq<bool>, a: nat, b: nat)
    requires a <= b <= |bits|
  {
    forall k | a <= k < b :: !bits[k]
  }

  lemma {:induction false} PicksSkip(bits: seq<bool>, a: nat, b: nat)
    requires a <= b <= |bits| && forall k | a <= k < b :: !bits[k]
    ensures Picks(bits, b) == Picks(bits, a)
  {
    if a < b { PicksSkip(bits, a, b - 1); }
  }

  /** From one carried page to the next, and from the start to the first. */
  lemma CarriedNext(cells: seq<Cell>, a: nat, b: nat)
    requires a <= b <= |cells| && (forall k | a < k < b :: !Carried(cells[k])) && (a < b ==> Carried(cells[a]) || a == 0)
    ensures |Picks(CarriedBits(cells), b)| == |Picks(CarriedBits(cells), a)| + (if a < b && Carried(cells[a]) then 1 else 0)
  {
    if a < b { PicksSkip(CarriedBits(cells), a + 1, b); }
  }

  // ---- planning a state ----

  /** PlanHeld, but for the refresh. */
  function PlanMark(c: Cell, slot: nat): Cell {
    if Tracked(c.p.status) then c.(p := c.p.(planSlot := slot, planHold := Owed, held := c.p.held || !c.p.hot))
    else c.(p := c.p.(planSlot := slot))
  }

  function PlanGoal(cells: seq<Cell>): (r: seq<Cell>)
    ensures |r| == |cells|
    ensures forall i | 0 <= i < |cells| ::
              r[i] == if Carried(cells[i]) then PlanMark(cells[i], |Picks(CarriedBits(cells), i)|) else cells[i]
  {
    seq(|cells|, i requires 0 <= i < |cells| =>
          if Carried(cells[i]) then PlanMark(cells[i], |Picks(CarriedBits(cells), i)|) else cells[i])
  }

  function PlanNoted(cells: seq<Cell>): (r: seq<bool>)
    ensures |r| == |cells| && forall i | 0 <= i < |cells| :: r[i] == PlanTells(cells[i])
  {
    seq(|cells|, i requires 0 <= i < |cells| => PlanTells(cells[i]))
  }

  /** The buffer as the walk leaves it. */
  ghost predicate PlanDestIs(cells: seq<Cell>, list: seq<nat>, blank: PageBytes, dest: seq<PageBytes>) {
    && |dest| == |list|
    && forall k | 0 <= k < |list| ::
         list[k] < |cells| && dest[k] == if Tracked(cells[list[k]].p.status) then blank else cells[list[k]].mem
  }

  /** The list and the buffer when the walk is at page i. */
  ghost predicate PlanLists(was: seq<Cell>, i: nat, blank: PageBytes, list: seq<nat>, dest: seq<PageBytes>) {
    i <= |was| && list == Picks(CarriedBits(was), i) && PlanDestIs(was, list, blank, dest)
  }

  lemma PlanListed(was: seq<Cell>, i: nat, list: seq<nat>, blank: PageBytes, dest: seq<PageBytes>)
    requires i < |was| && Carried(was[i]) && PlanLists(was, i, blank, list, dest)
    ensures PlanLists(was, i + 1, blank, list + [i], dest + [if Tracked(was[i].p.status) then blank else was[i].mem])
    ensures list == Picks(CarriedBits(was), i)
  {
  }

  lemma PlanMarked(was: seq<Cell>, i: nat)
    requires i < |was| && Carried(was[i])
    ensures PlanGoal(was)[i] == PlanMark(was[i], |Picks(CarriedBits(was), i)|)
    ensures PlanNoted(was)[i] == Tracked(was[i].p.status)
  {
  }

  ghost predicate PlanWalking(w: Walk, g: nat, k: nat, run: ProtRun, cells: seq<Cell>, os: seq<Prot>) {
    w.goal == PlanGoal(w.orig) && w.noted == PlanNoted(w.orig) && w.g == g && At(w, k, run, cells, os)
  }

  lemma PlanStart(w: Walk, blank: PageBytes)
    requires w.goal == PlanGoal(w.orig) && w.noted == PlanNoted(w.orig) && |w.os0| == |w.orig| && w.g > 0
    ensures PlanWalking(w, w.g, 0, NO_RUN, w.orig, w.os0) && PlanLists(w.orig, 0, blank, [], [])
  {
    Start(w);
  }

  /** Passing pages no state carries. */
  lemma PlanSkip(w: Walk, g: nat, k: nat, k': nat, run: ProtRun, cells: seq<Cell>, os: seq<Prot>,
                 blank: PageBytes, list: seq<nat>, dest: seq<PageBytes>)
    requires PlanWalking(w, g, k, run, cells, os) && PlanLists(w.orig, k, blank, list, dest) && k <= k' <= |cells| == |w.orig|
    requires forall j | k <= j < k' :: !Carried(cells[j])
    ensures PlanWalking(w, g, k', run, cells, os) && PlanLists(w.orig, k', blank, list, dest)
    ensures k' < |cells| ==> cells[k'] == w.orig[k']
  {
    PicksSkip(CarriedBits(w.orig), k, k');
    Advance(w, k, k', run, cells, cells, os);
  }

  lemma PlanLength(w: Walk, g: nat, k: nat, run: ProtRun, cells: seq<Cell>, os: seq<Prot>)
    requires PlanWalking(w, g, k, run, cells, os)
    ensures |cells| == |w.orig|
  {
  }

  lemma PlanOver(w: Walk, g: nat, run: ProtRun, cells: seq<Cell>, os: seq<Prot>)
    requires PlanWalking(w, g, |w.orig|, run, cells, os)
    ensures w.g == g && |w.goal| == |w.orig| && At(w, |w.goal|, run, cells, os)
  {
  }

  /** The magic, the hash, the block's range and the two maps. */
  function HeaderSize(npages: nat): nat {
    20 + 32 + 16 + npages * 2
  }

  lemma PlanSorted(cells: seq<Cell>)
    ensures Sorted(Picks(CarriedBits(cells), |cells|))
  {
    PicksSorted(CarriedBits(cells), |cells|);
  }

  lemma PlannedAt(c: Cell, slot: nat)
    ensures PlanHeld(c, slot) == if Tracked(c.p.status) then Refreshed(PlanMark(c, slot)) else PlanMark(c, slot)
  {
  }

  /** Marking, copying and refreshing make up planning a state. */
  lemma PlannedIs(m: Machine, blank: PageBytes, cells: seq<Cell>, os: seq<Prot>, list: seq<nat>, dest: seq<PageBytes>)
    requires Shaped(m)
    requires cells == Settled(PlanGoal(m.cells), PlanNoted(m.cells))
    requires os == SettledOs(PlanGoal(m.cells), PlanNoted(m.cells), m.group, m.os)
    requires PlanLists(m.cells, |m.cells|, blank, list, dest)
    ensures PlanState(m, blank) == m.(cells := cells, os := os, plan := Open(StatusMap(m.cells), DirtyMap(m.cells), list, dest))
    ensures list == Picks(CarriedBits(m.cells), |m.cells|)
  {
    hide PlanHeld, PlanMark, GroupProt, Refreshed, SameGroup, Picks, Carried;
    var r, goal, noted := PlanState(m, blank), PlanGoal(m.cells), PlanNoted(m.cells);
    forall k | 0 <= k < |cells| ensures r.cells[k] == cells[k] {
      PlannedAt(m.cells[k], |Picks(CarriedBits(m.cells), k)|);
    }
    assert r.cells == cells;
    forall k | 0 <= k < |cells| ensures r.os[k] == os[k] {
      SettledProt(goal, noted, m.group, k);
      assert GroupTold(m.cells, m.group, k) == GroupNoted(noted, m.group, k);
    }
    assert r.os == os;
    assert r.plan.dest == dest;
  }

  lemma PlanQuiet(m: Machine, base: seq<PageBytes>, blank: PageBytes)
    requires Inv(m, base) && Quiet(m.cells)
    ensures Quiet(PlanState(m, blank).cells)
  {
    hide Picks, GroupProt, Watched, Tight;
  }

  // ---- filling a plan ----

  function Listed(list: seq<nat>, from: nat, to: nat): (r: set<nat>)
    requires to <= |list|
    ensures forall i: nat :: i in r <==> exists k | from <= k < to :: list[k] == i
  {
    if from < to then Listed(list, from, to - 1) + {list[to - 1]} else {}
  }

  /** How many pages of the plan's stretch nobody has copied yet. */
  function OwedIn(cells: seq<Cell>, list: seq<nat>, from: nat, to: nat): nat
    requires to <= |list| && forall k | 0 <= k < |list| :: list[k] < |cells|
  {
    if from < to then OwedIn(cells, list, from, to - 1) + (if cells[list[to - 1]].p.planHold == Owed then 1 else 0) else 0
  }

  /** Which of them. */
  function OwedPlaces(cells: seq<Cell>, list: seq<nat>, from: nat, to: nat): set<int>
    requires to <= |list| && forall k | 0 <= k < |list| :: list[k] < |cells|
  {
    set k | from <= k < to && cells[list[k]].p.planHold == Owed
  }

  lemma {:induction false} OwedCounts(cells: seq<Cell>, list: seq<nat>, from: nat, end: nat)
    requires end <= |list| && forall k | 0 <= k < |list| :: list[k] < |cells|
    ensures OwedIn(cells, list, from, end) == |OwedPlaces(cells, list, from, end)|
    decreases end
  {
    var owed := OwedPlaces(cells, list, from, end);
    if from < end {
      OwedCounts(cells, list, from, end - 1);
      assert owed == OwedPlaces(cells, list, from, end - 1) + (if cells[list[end - 1]].p.planHold == Owed then {end - 1} else {});
    } else {
      assert owed == {};
    }
  }

  lemma TakenIs(m: Machine, i: nat, cells: seq<Cell>, dest: seq<PageBytes>)
    requires PlanShaped(m) && i < |m.cells| && cells == m.cells[i := CaughtUp(m.cells[i])]
    requires m.plan.Open? ==> dest == DestAfter(m.cells, true, m.plan.list, m.plan.dest, {} + {i})
    ensures TakeIn(m, {i}) == m.(cells := cells, plan := if m.plan.Idle? then Idle else m.plan.(dest := dest))
  {
    ShapeSlots(m);
    assert {} + {i} == {i};
    assert TakeIn(m, {i}).cells == cells;
  }

  lemma TakeInMore(m: Machine, which: set<nat>, i: nat)
    requires PlanShaped(m) && PlanShaped(TakeIn(m, which))
    ensures TakeIn(TakeIn(m, which), {i}) == TakeIn(m, which + {i})
  {
    var t := TakeIn(m, which);
    var a, b := TakeIn(t, {i}), TakeIn(m, which + {i});
    assert a.cells == b.cells;
    if m.plan.Open? {
      assert a.plan.dest == b.plan.dest;
    }
  }

  /** What filling relies on: the block sound when it began. */
  ghost predicate FillOk(m: Machine, base: seq<PageBytes>, list: seq<nat>, from: nat, to: nat) {
    && Inv(m, base) && Quiet(m.cells) && m.plan.Open? && m.plan.list == list && Sorted(list) && from <= to <= |list|
    && (forall k | 0 <= k < |list| :: list[k] < |m.cells|)
  }

  lemma FillStart(m: Machine, base: seq<PageBytes>, list: seq<nat>, from: nat, to: nat)
    requires Inv(m, base) && Quiet(m.cells) && m.plan.Open? && m.plan.list == list && Sorted(list) && from <= to <= |list|
    ensures FillOk(m, base, list, from, to) && PlanShaped(m)
    ensures TakeIn(m, Listed(list, from, from)) == m && OwedIn(m.cells, list, from, from) == 0
  {
    TakeInNone(m);
    assert Listed(list, from, from) == {};
  }

  lemma FillReady(m: Machine, base: seq<PageBytes>, list: seq<nat>, from: nat, to: nat, k: nat)
    requires FillOk(m, base, list, from, to) && from <= k < to
    ensures PlanShaped(m)
    ensures var t := TakeIn(m, Listed(list, from, k));
            && |t.cells| == |m.cells| && list[k] < |t.cells| && t.plan.Open? && t.plan.list == list
            && CanTake(t.cells, true, list, t.plan.dest, list[k], list[k] + 1)
            && (t.cells[list[k]].p.planHold == Owed <==> m.cells[list[k]].p.planHold == Owed)
  {
    hide Watched, Tight, CellsOk, DestTaken, Listed;
    var t := TakeIn(m, Listed(list, from, k));
    TakeInKeeps(m, base, Listed(list, from, k));
    TakeInQuiet(m, Listed(list, from, k));
    TakeReady(t, base, list, t.plan.dest, list[k], list[k] + 1);
    assert list[k] !in Listed(list, from, k);
  }

  lemma FillStep(m: Machine, base: seq<PageBytes>, list: seq<nat>, from: nat, to: nat, k: nat)
    requires FillOk(m, base, list, from, to) && from <= k < to
    ensures PlanShaped(m) && PlanShaped(TakeIn(m, Listed(list, from, k)))
    ensures TakeIn(TakeIn(m, Listed(list, from, k)), {list[k]}) == TakeIn(m, Listed(list, from, k + 1))
    ensures OwedIn(m.cells, list, from, k + 1) == OwedIn(m.cells, list, from, k) + (if m.cells[list[k]].p.planHold == Owed then 1 else 0)
    ensures |TakeIn(m, Listed(list, from, k + 1)).cells| == |m.cells|
  {
    hide Watched, Tight, CellsOk, DestTaken;
    TakeInKeeps(m, base, Listed(list, from, k));
    TakeInMore(m, Listed(list, from, k), list[k]);
  }

  lemma FillDone(m: Machine, base: seq<PageBytes>, list: seq<nat>, from: nat, to: nat)
    requires FillOk(m, base, list, from, to)
    ensures PlanShaped(m) && Inv(TakeIn(m, Listed(list, from, to)), base) && Quiet(TakeIn(m, Listed(list, from, to)).cells)
    ensures Enrolled(m) ==> Enrolled(TakeIn(m, Listed(list, from, to)))
  {
    TakeInKeeps(m, base, Listed(list, from, to));
    TakeInQuiet(m, Listed(list, from, to));
  }

  // ---- finishing a plan ----

  ghost function ListBits(list: seq<nat>, n: nat): (r: seq<bool>) {
    seq(n, i requires 0 <= i < n => i in list)
  }

  lemma ListBitsLength(list: seq<nat>, n: nat)
    ensures |ListBits(list, n)| == n
  {
  }

  function AfterListed(list: seq<nat>, k: nat): nat
    requires k <= |list|
  {
    if k == 0 then 0 else list[k - 1] + 1
  }

  /** From one listed page to the next. */
  lemma ListSkip(w: Walk, list: seq<nat>, k: nat, run: ProtRun, cells: seq<Cell>, os: seq<Prot>)
    requires Sorted(list) && k < |list| && list[k] < |w.orig| && w.goal == w.orig && w.noted == ListBits(list, |w.orig|)
    requires At(w, AfterListed(list, k), run, cells, os)
    ensures At(w, list[k], run, cells, os) && w.noted[list[k]] && |cells| == |w.goal| && cells == cells[list[k] := w.goal[list[k]]]
  {
    hide OsAt;
    forall a | 0 <= a < |list| ensures list[a] < AfterListed(list, k) || list[k] <= list[a] {
    }
    Advance(w, AfterListed(list, k), list[k], run, cells, cells, os);
  }

  lemma ListEnd(w: Walk, list: seq<nat>, run: ProtRun, cells: seq<Cell>, os: seq<Prot>)
    requires Sorted(list) && w.goal == w.orig && w.noted == ListBits(list, |w.orig|)
    requires At(w, AfterListed(list, |list|), run, cells, os)
    ensures At(w, |w.goal|, run, cells, os)
  {
    hide OsAt;
    forall a | 0 <= a < |list| ensures list[a] < AfterListed(list, |list|) {
    }
    Advance(w, AfterListed(list, |list|), |w.goal|, run, cells, cells, os);
  }

  /** With every listed page copied, nothing is owed. */
  lemma AllCopied(m: Machine, base: seq<PageBytes>, list: seq<nat>)
    requires Inv(m, base) && Quiet(m.cells) && m.plan.Open? && m.plan.list == list
    ensures PlanShaped(m)
    ensures var t := TakeIn(m, Listed(list, 0, |list|));
            t.plan.Open? && t.plan.list == list && (forall i | 0 <= i < |t.cells| :: t.cells[i].p.planHold == Clear)
    ensures forall k | 0 <= k < |list| :: list[k] < |m.cells|
  {
    hide Watched, Tight, CellsOk, DestTaken;
    var t := TakeIn(m, Listed(list, 0, |list|));
    forall i | 0 <= i < |t.cells| ensures t.cells[i].p.planHold == Clear {
      if m.cells[i].p.planHold != Clear {
        assert list[m.cells[i].p.planSlot] == i;
        assert i in Listed(list, 0, |list|);
      }
    }
  }

  lemma ListedFit(m: Machine, base: seq<PageBytes>)
    requires Inv(m, base) && m.plan.Open?
    ensures forall k | 0 <= k < |m.plan.list| :: m.plan.list[k] < |m.cells|
  {
  }

  lemma FinishQuiet(m: Machine)
    requires Shaped(m) && m.plan.Open? && forall i | 0 <= i < |m.cells| :: m.cells[i].p.planHold == Clear
    ensures Quiet(FinishPlan(m).cells)
  {
    hide GroupProt;
  }

  lemma FinishedIs(m: Machine, cells: seq<Cell>, os: seq<Prot>)
    requires Shaped(m) && m.plan.Open? && forall k | 0 <= k < |m.plan.list| :: m.plan.list[k] < |m.cells|
    requires cells == Settled(m.cells, ListBits(m.plan.list, |m.cells|))
    requires os == SettledOs(m.cells, ListBits(m.plan.list, |m.cells|), m.group, m.os)
    ensures FinishPlan(m) == m.(cells := cells, os := os, plan := Idle)
  {
    hide GroupProt, Refreshed, SameGroup;
    var r, list, noted := FinishPlan(m), m.plan.list, ListBits(m.plan.list, |m.cells|);
    assert r.cells == cells;
    forall k | 0 <= k < |cells| ensures r.os[k] == os[k] {
      SettledProt(m.cells, noted, m.group, k);
      ListedGroup(list, noted, m.group, k);
    }
    assert r.os == os;
  }

  lemma ListedGroup(list: seq<nat>, noted: seq<bool>, g: nat, i: nat)
    requires g > 0 && noted == ListBits(list, |noted|) && forall k | 0 <= k < |list| :: list[k] < |noted|
    ensures GroupPlanned(list, g, i) <==> GroupNoted(noted, g, i)
  {
    if GroupPlanned(list, g, i) {
      var k :| 0 <= k < |list| && SameGroup(g, i, list[k]);
      assert noted[list[k]];
    }
    if GroupNoted(noted, g, i) {
      var j :| 0 <= j < |noted| && noted[j] && SameGroup(g, i, j);
      assert j in list;
    }
  }

  /** Until the seal the baseline is zeros. */
  ghost predicate BaseOk(sealed: bool, base: seq<PageBytes>) {
    !sealed ==> base == ZeroImage(|base|)
  }

  lemma BaseLength(m: Machine, sealed: bool, base: seq<PageBytes>)
    requires Inv(m, base) && BaseOk(sealed, base)
    ensures |base| == |m.cells| && (!sealed ==> base == ZeroImage(|m.cells|))
  {
  }

  function MadeInvisible(c: Cell): Cell {
    SetDirty(c, true).(p := c.p.(dirty := true, invisible := true))
  }

  lemma HideQuiet(m: Machine, lo: nat, hi: nat)
    requires Shaped(m) && lo <= hi <= |m.cells| && Quiet(m.cells)
    ensures Quiet(Hide(m, lo, hi).cells)
  {
    hide RefreshOs;
  }

  /** SealedCell, but for the refresh and the epoch. */
  function Sealing(c: Cell): Cell {
    if c.p.dirty && !c.p.invisible then
      var clean := SetDirty(Cool(c), false);
      clean.(p := clean.p.(snap := if clean.mem == Zeros() then ZeroSnap else NoSnap))
    else c
  }

  lemma SealingIs(c: Cell)
    ensures SealedCell(c) == Refreshed(Sealing(Forgotten(c))) && SealedCell(c).p.planHold == c.p.planHold
  {
  }

  lemma SealedIs(m: Machine, cells: seq<Cell>, os: seq<Prot>)
    requires Shaped(m) && |cells| == |m.cells| && os == RefreshOs(cells, m.group, m.os, 0, |cells|)
    requires forall k | 0 <= k < |cells| :: cells[k] == Refreshed(Sealing(EpochClear(m).cells[k]))
    ensures Seal(m) == m.(cells := cells, os := os, epochActive := false)
  {
    hide RefreshOs, Sealing, Refreshed, SealedCell;
    forall k | 0 <= k < |cells| ensures Seal(m).cells[k] == cells[k] { SealingIs(m.cells[k]); }
    assert Seal(m).cells == cells;
  }

  lemma SealQuiet(m: Machine)
    requires Shaped(m) && Quiet(m.cells)
    ensures Quiet(Seal(m).cells)
  {
    hide RefreshOs, SealedCell;
    forall k | 0 <= k < |m.cells| ensures !Seal(m).cells[k].p.planHold.Copying? { SealingIs(m.cells[k]); }
  }

  lemma RefreshNone(cells: seq<Cell>, g: nat, os: seq<Prot>)
    requires g > 0 && cells == [] && os == []
    ensures RefreshOs(cells, g, os, 0, 0) == os
  {
  }

  lemma PokeHolds(m: Machine, i: nat, bytes: PageBytes)
    requires i < |m.cells| && Quiet(m.cells) && m.plan.Idle? && PlanOk(m)
    ensures m.cells[i].p.planHold == Clear && CaughtUp(m.cells[i]) == m.cells[i] && Quiet(Poke(m, i, bytes).cells)
  {
  }

  lemma OnesTold(cells: seq<Cell>, os0: seq<Prot>, os: seq<Prot>, lo: nat, hi: nat)
    requires |os0| == |os| == |cells| && lo < hi <= |cells|
    requires forall k | 0 <= k < |os| :: os[k] == if lo <= k < hi then NativeProt(cells[k].p) else os0[k]
    ensures os == RefreshOs(cells, 1, os0, lo, hi)
  {
    forall k | 0 <= k < |os| ensures os[k] == RefreshOs(cells, 1, os0, lo, hi)[k] {
      if lo <= k < hi { assert SameGroup(1, k, k); }
      assert Touches(1, k, lo, hi) <==> lo <= k < hi;
    }
  }

  // ---- host page arithmetic ----

  lemma GroupSpan(g: nat, first: nat, n: nat)
    requires g > 0 && first % g == 0
    ensures forall j: nat :: SameGroup(g, first, j) <==> first <= j < first + g
  {
    forall j: nat ensures SameGroup(g, first, j) <==> first <= j < first + g {
      InGroup(g, first, j);
    }
  }

  lemma InGroup(g: nat, first: nat, j: nat)
    requires g > 0 && first % g == 0
    ensures SameGroup(g, first, j) <==> first <= j < first + g
  {
    var q := first / g;
    assert first == q * g;
    var r := j / g;
    assert j == r * g + j % g;
    if r < q { MulMonotone(g, r + 1, q); }
    if q < r { MulMonotone(g, q + 1, r); }
  }

  lemma RoundDown(g: nat, lo: nat)
    requires g > 0
    ensures (lo - lo % g) % g == 0 && lo - lo % g <= lo < lo - lo % g + g
    ensures SameGroup(g, lo - lo % g, lo)
  {
    var q := lo / g;
    assert lo - lo % g == q * g;
    MultipleOf(g, q);
    InGroup(g, lo - lo % g, lo);
  }

  lemma MultipleOf(g: nat, q: nat)
    requires g > 0
    ensures (q * g) % g == 0
  {
    if q > 0 {
      MultipleOf(g, q - 1);
      assert q * g == (q - 1) * g + g;
      RoundUp(g, (q - 1) * g);
    }
  }

  lemma RoundUp(g: nat, a: nat)
    requires g > 0 && a % g == 0
    ensures (a + g) % g == 0
  {
    var q := a / g;
    assert a == q * g;
    assert a + g == (q + 1) * g + 0;
    DivModUnique(g, a + g, q + 1, 0);
  }

  lemma DivModUnique(g: nat, a: nat, q: nat, r: nat)
    requires g > 0 && a == q * g + r && r < g
    ensures a / g == q && a % g == r
  {
    var q', r' := a / g, a % g;
    assert a == q' * g + r';
    if q < q' { MulMonotone(g, q + 1, q'); }
    if q' < q { MulMonotone(g, q' + 1, q); }
  }

  lemma GroupProtShared(cells: seq<Cell>, g: nat, first: nat)
    requires g > 0 && first % g == 0 && first < |cells|
    ensures forall p | first <= p < first + g && p < |cells| :: GroupProt(cells, g, p) == GroupProt(cells, g, first)
  {
    forall p | first <= p < first + g && p < |cells| ensures GroupProt(cells, g, p) == GroupProt(cells, g, first) {
      InGroup(g, first, p);
      GroupProtSame(cells, g, first, p);
    }
  }

  lemma GroupProtSame(cells: seq<Cell>, g: nat, i: nat, p: nat)
    requires g > 0 && i < |cells| && p < |cells| && SameGroup(g, i, p)
    ensures GroupProt(cells, g, i) == GroupProt(cells, g, p)
  {
    assert forall j: nat :: SameGroup(g, i, j) == SameGroup(g, p, j);
    assert GroupArmed(cells, g, i) == GroupArmed(cells, g, p);
    assert GroupWants(cells, g, i) == GroupWants(cells, g, p);
    assert GroupRuns(cells, g, i) == GroupRuns(cells, g, p);
    assert GroupReads(cells, g, i) == GroupReads(cells, g, p);
  }

  /** The pages of the host pages [lo, hi) touches are those from lo rounded
      down to hi rounded up. */
  lemma GroupsTold(cells: seq<Cell>, g: nat, os0: seq<Prot>, os: seq<Prot>, lo: nat, hi: nat, first: nat, end: nat)
    requires g > 0 && |os0| == |os| == |cells| && lo < hi <= |cells|
    requires first % g == 0 && first <= lo < first + g && end % g == 0 && hi <= end < hi + g
    requires forall p | 0 <= p < |os| :: os[p] == if first <= p < end then GroupProt(cells, g, p) else os0[p]
    ensures os == RefreshOs(cells, g, os0, lo, hi)
  {
    forall p | 0 <= p < |os| ensures Touches(g, p, lo, hi) <==> first <= p < end {
      TouchesSpan(g, p, lo, hi, first, end);
    }
  }

  lemma TouchesSpan(g: nat, p: nat, lo: nat, hi: nat, first: nat, end: nat)
    requires g > 0 && lo < hi && first % g == 0 && first <= lo < first + g && end % g == 0 && hi <= end < hi + g
    ensures Touches(g, p, lo, hi) <==> first <= p < end
  {
    if Touches(g, p, lo, hi) {
      var j: nat :| lo <= j < hi && SameGroup(g, p, j);
      NotBelow(g, first, p, j);
      NotAbove(g, end, p, j);
    }
    if first <= p < end {
      SpanTouches(g, p, lo, hi, first, end);
    }
  }

  lemma SpanTouches(g: nat, p: nat, lo: nat, hi: nat, first: nat, end: nat)
    requires g > 0 && lo < hi && first % g == 0 && first <= lo < first + g && end % g == 0 && hi <= end < hi + g
    requires first <= p < end
    ensures Touches(g, p, lo, hi)
  {
    if p < lo {
      InGroup(g, first, p);
      InGroup(g, first, lo);
      assert SameGroup(g, p, lo);
    } else if p >= hi {
      LastGroup(g, end, p, hi - 1);
    } else {
      assert SameGroup(g, p, p);
    }
  }

  lemma NotBelow(g: nat, first: nat, p: nat, j: nat)
    requires g > 0 && first % g == 0 && first <= j && SameGroup(g, p, j)
    ensures first <= p
  {
    if p < first {
      GroupsAreStretches(g, p, j, first);
      InGroup(g, first, p);
    }
  }

  lemma NotAbove(g: nat, end: nat, p: nat, j: nat)
    requires g > 0 && end % g == 0 && j < end && SameGroup(g, p, j)
    ensures p < end
  {
    if p >= end {
      GroupsAreStretches(g, j, p, end);
      InGroup(g, end, j);
    }
  }

  /** What group_native_prot has seen of a stretch of pages. */
  datatype Flags = Flags(r: bool, w: bool, x: bool, held: bool)

  function FlagsIn(cells: seq<Cell>, a: nat, b: nat): Flags
    requires a <= b <= |cells|
  {
    if a == b then Flags(false, false, false, false)
    else
      var f, p := FlagsIn(cells, a, b - 1), NativeProt(cells[b - 1].p);
      Flags(f.r || p != NoAccess, f.w || Writable(p), f.x || Executable(p), f.held || Armed(cells[b - 1].p))
  }

  lemma {:induction false} FlagsAre(cells: seq<Cell>, a: nat, b: nat)
    requires a <= b <= |cells|
    ensures FlagsIn(cells, a, b).r <==> exists j | a <= j < b :: NativeProt(cells[j].p) != NoAccess
    ensures FlagsIn(cells, a, b).w <==> exists j | a <= j < b :: Writable(NativeProt(cells[j].p))
    ensures FlagsIn(cells, a, b).x <==> exists j | a <= j < b :: Executable(NativeProt(cells[j].p))
    ensures FlagsIn(cells, a, b).held <==> exists j | a <= j < b :: Armed(cells[j].p)
  {
    hide NativeProt, Writable, Executable, Armed;
    if a < b { FlagsAre(cells, a, b - 1); }
  }

  lemma FlagsMean(cells: seq<Cell>, g: nat, first: nat, end: nat)
    requires g > 0 && first % g == 0 && first <= end <= |cells| && end <= first + g
    requires end == |cells| || end == first + g
    ensures var f := FlagsIn(cells, first, end);
            && f.held == GroupArmed(cells, g, first) && f.w == GroupWants(cells, g, first)
            && f.x == GroupRuns(cells, g, first) && f.r == GroupReads(cells, g, first)
  {
    FlagsAre(cells, first, end);
    GroupSpan(g, first, |cells|);
  }

  lemma LastGroup(g: nat, end: nat, p: nat, q: nat)
    requires g > 0 && end % g == 0 && q < p < end <= q + g
    ensures SameGroup(g, p, q)
  {
    assert end >= g by {
      if end < g { DivModUnique(g, end, 0, end); }
    }
    var k := end / g;
    assert end == k * g && k > 0;
    assert end - g == (k - 1) * g;
    MultipleOf(g, k - 1);
    InGroup(g, end - g, p);
    InGroup(g, end - g, q);
  }
}
