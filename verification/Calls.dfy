/** The guest's memory calls on page ranges: which ranges are accepted, what
    each call leaves, and that each keeps the block sound. */
module Calls {
  import opened Pages
  import opened Machine
  import opened Invariant
  import opened Workings
  import opened Arena

  /** validate: a byte range as (first page, pages), or nothing. Lengths are
      compared, never ends, so nothing wraps however large the request. */
  function PageRange(base: nat, npages: nat, start: nat, size: nat): (r: Option<(nat, nat)>)
    requires base % PAGESIZE == 0
    ensures r.Some? <==>
              && 0 < size && start % PAGESIZE == 0 && size % PAGESIZE == 0
              && base <= start && start + size <= base + npages * PAGESIZE
    ensures r.Some? ==>
              && 0 < r.value.1 && r.value.0 + r.value.1 <= npages
              && start == base + r.value.0 * PAGESIZE && size == r.value.1 * PAGESIZE
  {
    if size == 0 || start < base || start - base > npages * PAGESIZE || size > npages * PAGESIZE - (start - base)
       || start % PAGESIZE != 0 || size % PAGESIZE != 0 then None
    else Some(((start - base) / PAGESIZE, size / PAGESIZE))
  }

  /** prot_status */
  function ProtStatus(prot: Prot): (s: Status)
    ensures s != StFree && StatusProt(s) == prot
  {
    match prot
    case NoAccess => StNone
    case Read => StR
    case ReadWrite => StRW
    case ReadExec => StRX
    case ReadWriteExec => StRWX
    case ReadWriteStack => StRWStack
  }

  predicate AllTaken(cells: seq<Cell>, lo: nat, hi: nat)
    requires hi <= |cells|
  {
    forall k | lo <= k < hi :: cells[k].p.status != StFree
  }

  predicate AllGiven(cells: seq<Cell>, lo: nat, hi: nat)
    requires hi <= |cells|
  {
    forall k | lo <= k < hi :: cells[k].p.status == StFree
  }

  datatype Errno = Ok | EINVAL | EEXIST | ENOMEM | ENOSYS | ENOTSUP | EIO

  // ---- munmap and madvise ----

  /** What a planned state is owed is copied first. */
  ghost function Unmap(m: Machine, lo: nat, hi: nat, adviseOnly: bool): Machine
    requires Shaped(m) && PlanShaped(m) && lo <= hi <= |m.cells|
  {
    GiveBack(TakeIn(m, Range(lo, hi)), lo, hi, adviseOnly)
  }

  lemma UnmapKeeps(m: Machine, base: seq<PageBytes>, lo: nat, hi: nat, adviseOnly: bool)
    requires Inv(m, base) && Quiet(m.cells) && lo <= hi <= |m.cells|
    ensures Inv(Unmap(m, lo, hi, adviseOnly), base) && Quiet(Unmap(m, lo, hi, adviseOnly).cells)
    ensures Enrolled(m) ==> Enrolled(Unmap(m, lo, hi, adviseOnly))
  {
    hide Enrolled, Told, GivenBack, RefreshOs, Watched, Tight, CellOk, DestTaken;
    var t := TakeIn(m, Range(lo, hi));
    TakeInKeeps(m, base, Range(lo, hi));
    TakeInQuiet(m, Range(lo, hi));
    GiveBackKeeps(t, base, lo, hi, adviseOnly);
    var r := Unmap(m, lo, hi, adviseOnly);
    forall k | 0 <= k < |r.cells| ensures !r.cells[k].p.planHold.Copying? {
      GivenBackOk(t.cells[k], base[k], t.epochActive, adviseOnly);
    }
  }

  /** Pages given back read zero, keep their protection only when the call was
      advice, and a visible one is clean exactly when the seal knows it as zeros.
      No other page changes. */
  ghost predicate GivenUp(was: seq<Cell>, now: seq<Cell>, lo: nat, hi: nat, adviseOnly: bool)
    requires hi <= |was| == |now|
  {
    && (forall k | lo <= k < hi ::
          && now[k].mem == Zeros() && now[k].p.status == (if adviseOnly then was[k].p.status else StFree)
          && (!now[k].p.invisible ==> (now[k].p.dirty <==> now[k].p.snap != ZeroSnap)))
    && forall k | 0 <= k < |was| && !(lo <= k < hi) :: now[k] == was[k]
  }

  lemma UnmapGives(m: Machine, base: seq<PageBytes>, lo: nat, hi: nat, adviseOnly: bool)
    requires Inv(m, base) && lo <= hi <= |m.cells|
    ensures |Unmap(m, lo, hi, adviseOnly).cells| == |m.cells|
    ensures GivenUp(m.cells, Unmap(m, lo, hi, adviseOnly).cells, lo, hi, adviseOnly)
  {
    hide Unmap, Watched, Tight, GivenBack, CellOk, Coherent, Anchored;
    var now := Unmap(m, lo, hi, adviseOnly).cells;
    UnmapCells(m, lo, hi, adviseOnly);
    forall k | lo <= k < hi
      ensures && now[k].mem == Zeros() && now[k].p.status == (if adviseOnly then m.cells[k].p.status else StFree)
              && (!now[k].p.invisible ==> (now[k].p.dirty <==> now[k].p.snap != ZeroSnap))
    {
      CaughtUpSound(m, base, k);
      UnmappedCell(CaughtUp(m.cells[k]), base[k], m.epochActive, adviseOnly);
    }
  }

  lemma UnmapCells(m: Machine, lo: nat, hi: nat, adviseOnly: bool)
    requires Shaped(m) && PlanShaped(m) && lo <= hi <= |m.cells|
    ensures var now := Unmap(m, lo, hi, adviseOnly).cells;
            |now| == |m.cells| && forall k | 0 <= k < |now| ::
              now[k] == if lo <= k < hi then GivenBack(CaughtUp(m.cells[k]), m.epochActive, adviseOnly) else m.cells[k]
  {
    hide RefreshOs, DestTaken, GivenBack, CaughtUp;
  }

  lemma CaughtUpSound(m: Machine, base: seq<PageBytes>, k: nat)
    requires Inv(m, base) && k < |m.cells|
    ensures CellOk(CaughtUp(m.cells[k]), base[k]) && CaughtUp(m.cells[k]).p.status == m.cells[k].p.status
  {
    hide Watched, Tight, PlanOk;
  }

  lemma UnmappedCell(c: Cell, base: PageBytes, active: bool, adviseOnly: bool)
    requires CellOk(c, base)
    ensures var d := GivenBack(c, active, adviseOnly);
            && d.mem == Zeros() && d.p.status == (if adviseOnly then c.p.status else StFree)
            && (!d.p.invisible ==> (d.p.dirty <==> d.p.snap != ZeroSnap))
  {
    hide Emptied, Coherent, Anchored, NativeProt;
    EmptiedOk(c, base, active);
    EmptiedMarks(c, active);
  }

  lemma EmptiedMarks(c: Cell, active: bool)
    ensures var e := Emptied(c, active);
            e.p.status == c.p.status && e.p.invisible == c.p.invisible
            && (e.p.dirty <==> !e.p.invisible && e.p.snap != ZeroSnap)
  {
  }

  // ---- mmap and mprotect ----

  lemma ProtectQuiet(m: Machine, base: seq<PageBytes>, lo: nat, hi: nat, s: Status)
    requires Inv(m, base) && Quiet(m.cells) && lo <= hi <= |m.cells| && s != StFree
    ensures Quiet(Protect(m, lo, hi, s).cells)
  {
    hide Protected, RefreshOs, Watched, Tight, CellOk;
    var r := Protect(m, lo, hi, s);
    forall k | 0 <= k < |r.cells| ensures !r.cells[k].p.planHold.Copying? {
      ProtectedOk(m.cells[k], base[k], m.epochActive, s);
    }
  }

  /** The allocated pages of a range. */
  function TakenIn(cells: seq<Cell>, lo: nat, hi: nat): (r: set<nat>)
    requires hi <= |cells|
    ensures forall k: nat :: k in r <==> lo <= k < hi && cells[k].p.status != StFree
  {
    if lo < hi then TakenIn(cells, lo, hi - 1) + (if cells[hi - 1].p.status != StFree then {hi - 1} else {}) else {}
  }

  /** A fresh fixed mapping's page: what it held before is zeros first. */
  function Overlaid(c: Cell, active: bool): Cell {
    if c.p.status == StFree then c else GivenBack(CaughtUp(c), active, true)
  }

  /** mmap at an address. With zeroOverlap, pages already allocated come back
      zero-filled, copied first for a planned state that is owed them. */
  ghost function MapFixed(m: Machine, lo: nat, hi: nat, s: Status, zeroOverlap: bool): Machine
    requires Shaped(m) && PlanShaped(m) && lo <= hi <= |m.cells|
  {
    if !zeroOverlap then Protect(m, lo, hi, s)
    else
      var t := TakeIn(m, TakenIn(m.cells, lo, hi));
      Protect(t.(cells := seq(|m.cells|, i requires 0 <= i < |m.cells| =>
                                if lo <= i < hi then Overlaid(m.cells[i], m.epochActive) else m.cells[i])),
              lo, hi, s)
  }

  lemma MapPlain(m: Machine, lo: nat, hi: nat, s: Status)
    requires Shaped(m) && PlanShaped(m) && lo <= hi <= |m.cells|
    ensures MapFixed(m, lo, hi, s, false) == Protect(m, lo, hi, s)
  {
  }

  lemma OverlaidOk(c: Cell, base: PageBytes, active: bool, s: Status)
    requires CellOk(c, base) && s != StFree && !c.p.planHold.Copying? && OwesNothingFree(c)
    ensures var d := Protected(Overlaid(c, active), active, s);
            && CellOk(d, base) && OwesNothingFree(d) && d.p.planHold == Clear && d.p.planSlot == c.p.planSlot && d.p.status == s
            && (c.p.status != StFree ==> d.mem == Zeros()) && Told(d)
  {
    hide Told, Protected, GivenBack, Emptied, Coherent, Anchored;
    if c.p.status == StFree {
      ProtectedOk(c, base, active, s);
    } else {
      var t := CaughtUp(c);
      CaughtUpOk(c, base);
      GivenBackOk(t, base, active, true);
      UnmappedCell(t, base, active, true);
      ProtectedOk(GivenBack(t, active, true), base, active, s);
    }
    ProtectedMem(Overlaid(c, active), active, s);
  }

  lemma MapFixedKeeps(m: Machine, base: seq<PageBytes>, lo: nat, hi: nat, s: Status, zeroOverlap: bool)
    requires Inv(m, base) && Quiet(m.cells) && lo <= hi <= |m.cells| && s != StFree
    ensures Inv(MapFixed(m, lo, hi, s, zeroOverlap), base) && Quiet(MapFixed(m, lo, hi, s, zeroOverlap).cells)
    ensures Enrolled(m) ==> Enrolled(MapFixed(m, lo, hi, s, zeroOverlap))
  {
    if zeroOverlap {
      OverlapKeeps(m, base, lo, hi, s);
    } else {
      ProtectKeeps(m, base, lo, hi, s);
      ProtectQuiet(m, base, lo, hi, s);
    }
  }

  lemma OverlapKeeps(m: Machine, base: seq<PageBytes>, lo: nat, hi: nat, s: Status)
    requires Inv(m, base) && Quiet(m.cells) && lo <= hi <= |m.cells| && s != StFree
    ensures Inv(MapFixed(m, lo, hi, s, true), base) && Quiet(MapFixed(m, lo, hi, s, true).cells)
    ensures Enrolled(m) ==> Enrolled(MapFixed(m, lo, hi, s, true))
  {
    hide Enrolled, Told, Protected, Overlaid, RefreshOs, Watched, Tight, CellOk, DestTaken, TakenIn, CaughtUp;
    var t := TakeIn(m, TakenIn(m.cells, lo, hi));
    TakeInKeeps(m, base, TakenIn(m.cells, lo, hi));
    var r := MapFixed(m, lo, hi, s, true);
    forall k | 0 <= k < |r.cells|
      ensures CellOk(r.cells[k], base[k]) && OwesNothingFree(r.cells[k]) && SamePlan(t.cells[k], r.cells[k])
      ensures !r.cells[k].p.planHold.Copying? && (if lo <= k < hi then Told(r.cells[k]) else r.cells[k] == t.cells[k])
    {
      assert OwesNothingFree(m.cells[k]);
      OverlaidOk(m.cells[k], base[k], m.epochActive, s);
      CaughtUpHold(m.cells[k]);
    }
    AssembleRange(t, base, r.cells, lo, hi);
    assert r == t.(cells := r.cells, os := RefreshOs(r.cells, t.group, t.os, lo, hi));
    if Enrolled(m) { RefreshEnrolled(t, r.cells, lo, hi); }
  }

  lemma CaughtUpOk(c: Cell, base: PageBytes)
    requires CellOk(c, base)
    ensures CellOk(CaughtUp(c), base)
  {
  }

  lemma CaughtUpHold(c: Cell)
    requires !c.p.planHold.Copying?
    ensures CaughtUp(c).p.planHold == Clear && CaughtUp(c).p.planSlot == c.p.planSlot
  {
  }

  // ---- the zeroing loop of a fixed mapping ----

  ghost predicate OverlaidAt(was: seq<Cell>, active: bool, lo: nat, i: nat, now: seq<Cell>) {
    |now| == |was| && forall k | 0 <= k < |was| :: now[k] == if lo <= k < i then Overlaid(was[k], active) else was[k]
  }

  ghost predicate OsKept(g: nat, lo: nat, hi: nat, was: seq<Prot>, now: seq<Prot>)
    requires g > 0
  {
    |now| == |was| && forall k | 0 <= k < |was| && !Touches(g, k, lo, hi) :: now[k] == was[k]
  }

  /** The block when every allocated page of [lo, i) has been zeroed. */
  ghost predicate OverlapAt(m: Machine, lo: nat, hi: nat, i: nat, now: Machine)
    requires Shaped(m) && hi <= |m.cells|
  {
    && lo <= i <= hi && OverlaidAt(m.cells, m.epochActive, lo, i, now.cells)
    && OsKept(m.group, lo, hi, m.os, now.os)
    && now == m.(cells := now.cells, os := now.os, plan := PlanAfter(m, TakenIn(m.cells, lo, i)))
  }

  lemma OverlapStart(m: Machine, lo: nat, hi: nat)
    requires Shaped(m) && lo <= hi <= |m.cells|
    ensures OverlapAt(m, lo, hi, lo, m)
  {
    if m.plan.Open? { TakeNobody(m.cells, true, m.plan.list, m.plan.dest); }
  }

  lemma OverlaidHold(c: Cell, base: PageBytes, active: bool)
    requires CellOk(c, base) && !c.p.planHold.Copying?
    ensures var d := Overlaid(c, active);
            d.p.planSlot == c.p.planSlot && (d.p.planHold == c.p.planHold || d.p.planHold == Clear)
            && (c.p.status != StFree ==> d.p.status != StFree)
  {
    hide GivenBack, Anchored, Coherent;
    CaughtUpOk(c, base);
    CaughtUpHold(c);
    GivenBackOk(CaughtUp(c), base, active, true);
    UnmappedCell(CaughtUp(c), base, active, true);
  }

  lemma OverlapCanTake(m: Machine, base: seq<PageBytes>, lo: nat, hi: nat, i: nat, now: Machine, j: nat)
    requires Inv(m, base) && Quiet(m.cells) && hi <= |m.cells| && OverlapAt(m, lo, hi, i, now) && i <= j <= hi
    ensures now.plan.Open? ==> CanTake(now.cells, true, now.plan.list, now.plan.dest, i, j)
    ensures now.plan.Idle? ==> forall list, dest :: CanTake(now.cells, false, list, dest, i, j)
  {
    hide Overlaid, Watched, Tight, CellOk, TakenIn, DestTaken, OsKept;
    forall k | 0 <= k < |m.cells|
      ensures now.cells[k].p.planSlot == m.cells[k].p.planSlot
      ensures now.cells[k].p.planHold == m.cells[k].p.planHold || now.cells[k].p.planHold == Clear
    {
      OverlaidHold(m.cells[k], base[k], m.epochActive);
    }
    ShapeSlots(m);
    if m.plan.Open? {
      DestLength(m.cells, m.plan.list, m.plan.dest, TakenIn(m.cells, lo, i));
      forall k | 0 <= k < |m.cells| ensures SlotOk(now.cells, m.plan.list, k) {
        assert SlotOk(m.cells, m.plan.list, k);
      }
    }
  }

  lemma DestLength(cells: seq<Cell>, list: seq<nat>, dest: seq<PageBytes>, which: set<nat>)
    ensures |DestAfter(cells, true, list, dest, which)| == |dest|
  {
  }

  /** One stretch of allocated pages zeroed. */
  lemma OverlapStretch(m: Machine, base: seq<PageBytes>, lo: nat, hi: nat, i: nat, now: Machine, j: nat, next: Machine)
    requires Inv(m, base) && Quiet(m.cells) && hi <= |m.cells| && OverlapAt(m, lo, hi, i, now) && i < j <= hi
    requires AllTaken(m.cells, i, j) && PlanShaped(now) && next == Unmap(now, i, j, true)
    ensures OverlapAt(m, lo, hi, j, next)
  {
    OverlapCells(m, lo, hi, i, now, j, next);
    OverlapOs(m, lo, hi, i, now, j, next);
    OverlapPlan(m, lo, hi, i, now, j, next);
  }

  lemma OverlapCells(m: Machine, lo: nat, hi: nat, i: nat, now: Machine, j: nat, next: Machine)
    requires Shaped(m) && hi <= |m.cells| && OverlapAt(m, lo, hi, i, now) && i < j <= hi
    requires AllTaken(m.cells, i, j) && PlanShaped(now) && next == Unmap(now, i, j, true)
    ensures OverlaidAt(m.cells, m.epochActive, lo, j, next.cells)
    ensures next == now.(cells := next.cells, os := next.os, plan := next.plan)
  {
    hide GivenBack, CaughtUp, DestTaken, TakenIn, RefreshOs, OsKept, PlanShaped;
  }

  lemma OverlapOs(m: Machine, lo: nat, hi: nat, i: nat, now: Machine, j: nat, next: Machine)
    requires Shaped(m) && hi <= |m.cells| && OverlapAt(m, lo, hi, i, now) && i < j <= hi
    requires PlanShaped(now) && next == Unmap(now, i, j, true)
    ensures OsKept(m.group, lo, hi, m.os, next.os)
  {
    hide GivenBack, CaughtUp, DestTaken, TakenIn, GroupProt, PlanShaped, SameGroup;
    forall k | 0 <= k < |m.os| && !Touches(m.group, k, lo, hi) ensures !Touches(m.group, k, i, j) {
    }
  }

  lemma OverlapPlan(m: Machine, lo: nat, hi: nat, i: nat, now: Machine, j: nat, next: Machine)
    requires Shaped(m) && PlanShaped(m) && hi <= |m.cells| && OverlapAt(m, lo, hi, i, now) && i < j <= hi
    requires AllTaken(m.cells, i, j) && PlanShaped(now) && next == Unmap(now, i, j, true)
    ensures next.plan == PlanAfter(m, TakenIn(m.cells, lo, j))
  {
    hide GivenBack, RefreshOs, OsKept, TakenIn, Overlaid;
    ShapeSlots(m);
    ShapeSlots(now);
    if m.plan.Open? {
      var list, dest := m.plan.list, m.plan.dest;
      var mid := DestTaken(m.cells, list, dest, TakenIn(m.cells, lo, i));
      assert DestTaken(now.cells, list, mid, Range(i, j)) == DestTaken(m.cells, list, dest, TakenIn(m.cells, lo, j));
    }
  }

  /** What lies ahead of the loop is as it was. */
  lemma OverlapAhead(m: Machine, lo: nat, hi: nat, i: nat, now: Machine)
    requires Shaped(m) && hi <= |m.cells| && OverlapAt(m, lo, hi, i, now)
    ensures |now.cells| == |m.cells| && (i < hi ==> now.cells[i] == m.cells[i])
  {
  }

  lemma OverlapTaken(m: Machine, lo: nat, hi: nat, i: nat, now: Machine, j: nat)
    requires Shaped(m) && hi <= |m.cells| && OverlapAt(m, lo, hi, i, now) && i < j <= hi && |now.cells| == |m.cells|
    requires AllTaken(now.cells, i, j)
    ensures AllTaken(m.cells, i, j)
  {
    forall k | i <= k < j ensures m.cells[k].p.status != StFree {
      assert now.cells[k] == m.cells[k];
    }
  }

  /** Passing a free page. */
  lemma OverlapPass(m: Machine, lo: nat, hi: nat, i: nat, now: Machine)
    requires Shaped(m) && hi <= |m.cells| && OverlapAt(m, lo, hi, i, now) && i < hi && m.cells[i].p.status == StFree
    ensures OverlapAt(m, lo, hi, i + 1, now)
  {
    hide GivenBack, RefreshOs, OsKept, DestAfter;
    assert TakenIn(m.cells, lo, i + 1) == TakenIn(m.cells, lo, i);
  }

  /** Protecting the range afterwards is the fixed mapping. */
  lemma OverlapDone(m: Machine, lo: nat, hi: nat, now: Machine, s: Status)
    requires Shaped(m) && PlanShaped(m) && hi <= |m.cells| && OverlapAt(m, lo, hi, hi, now)
    ensures Shaped(now) && |now.cells| == |m.cells| && Protect(now, lo, hi, s) == MapFixed(m, lo, hi, s, true)
  {
    hide Overlaid, Protected, GroupProt, Touches, TakenIn, DestTaken;
    ShapeSlots(m);
    var r, f := Protect(now, lo, hi, s), MapFixed(m, lo, hi, s, true);
    var t := TakeIn(m, TakenIn(m.cells, lo, hi));
    assert r.cells == f.cells;
    assert r.os == f.os;
    assert r.plan == f.plan;
  }

  // ---- mremap in place ----

  /** What mremap answers. A shrink to the same size is a munmap of nothing,
      which is refused. */
  function RemapErr(base: nat, cells: seq<Cell>, start: nat, size: nat, newSize: nat): Errno
    requires base % PAGESIZE == 0
  {
    var r, f := PageRange(base, |cells|, start, size), PageRange(base, |cells|, start, newSize);
    if size == 0 || newSize == 0 then EINVAL
    else if start == 0 then ENOSYS
    else if r == None || !AllTaken(cells, r.value.0, r.value.0 + r.value.1) then EINVAL
    else if newSize > size then
      if f == None then EINVAL
      else if !AllGiven(cells, r.value.0 + r.value.1, f.value.0 + f.value.1) then EEXIST else Ok
    else if newSize == size || newSize % PAGESIZE != 0 then EINVAL else Ok
  }

  ghost function Remapped(base: nat, m: Machine, start: nat, size: nat, newSize: nat): Machine
    requires base % PAGESIZE == 0 && Shaped(m) && PlanShaped(m) && RemapErr(base, m.cells, start, size, newSize) == Ok
  {
    var r := PageRange(base, |m.cells|, start, size).value;
    if newSize > size then
      var f := PageRange(base, |m.cells|, start, newSize).value;
      Protect(m, r.0 + r.1, f.0 + f.1, m.cells[r.0].p.status)
    else
      Unmap(m, r.0 + newSize / PAGESIZE, r.0 + r.1, false)
  }

  lemma FirstTaken(cells: seq<Cell>, lo: nat, hi: nat)
    requires lo < hi <= |cells| && AllTaken(cells, lo, hi)
    ensures cells[lo].p.status != StFree
  {
  }

  /** The tail a shrink gives back. */
  lemma TailTaken(base: nat, cells: seq<Cell>, start: nat, size: nat, newSize: nat)
    requires base % PAGESIZE == 0 && 0 < newSize <= size
    requires var r := PageRange(base, |cells|, start, size); r.Some? && AllTaken(cells, r.value.0, r.value.0 + r.value.1)
    ensures var r := PageRange(base, |cells|, start, size);
            var t := PageRange(base, |cells|, start + newSize, size - newSize);
            && (t.Some? <==> newSize < size && newSize % PAGESIZE == 0)
            && (t.Some? ==> t.value.0 == r.value.0 + newSize / PAGESIZE && t.value.0 + t.value.1 == r.value.0 + r.value.1
                            && AllTaken(cells, t.value.0, t.value.0 + t.value.1))
  {
  }

  lemma ProtectHold(c: Cell, active: bool, s: Status)
    ensures Protected(c, active, s).p.planHold == c.p.planHold
  {
  }

  // ---- mremap that moves ----

  function Filled(c: Cell, hidden: bool, bytes: PageBytes): Cell {
    Cool(SetDirty(c.(p := c.p.(invisible := hidden)), true)).(mem := bytes)
  }

  lemma LandedIsFilled(c: Cell, active: bool, s: Status, hidden: bool, bytes: PageBytes)
    ensures Landed(c, active, s, hidden, bytes) == Filled(Protected(c, active, s), hidden, bytes)
  {
  }

  /** Where the page that lands k pages on comes from: past the old range, its
      last page lends its protection. */
  function MoveSource(lo: nat, count: nat, k: nat): (i: nat)
    requires count > 0
    ensures lo <= i < lo + count
  {
    if k < count then lo + k else lo + count - 1
  }

  /** The first k pages of the new range landed. */
  ghost function LandRun(m: Machine, lo: nat, count: nat, to: nat, k: nat): (r: Machine)
    requires Shaped(m) && count > 0 && lo + count <= |m.cells| && to + k <= |m.cells|
    ensures Shaped(r) && |r.cells| == |m.cells| && r.group == m.group && r.epochActive == m.epochActive && r.plan == m.plan
    ensures forall i | 0 <= i < |m.cells| && !(to <= i < to + k) :: r.cells[i] == m.cells[i]
    decreases k
  {
    if k == 0 then m
    else
      var c := m.cells[MoveSource(lo, count, k - 1)];
      Land(LandRun(m, lo, count, to, k - 1), to + k - 1, c.p.status, c.p.invisible, if k - 1 < count then c.mem else Zeros())
  }

  lemma LandRunStart(m: Machine, lo: nat, count: nat, to: nat)
    requires Shaped(m) && count > 0 && lo + count <= |m.cells| && to <= |m.cells|
    ensures LandRun(m, lo, count, to, 0) == m
  {
  }

  lemma LandRunStep(m: Machine, lo: nat, count: nat, to: nat, k: nat)
    requires Shaped(m) && count > 0 && lo + count <= |m.cells| && to + k < |m.cells|
    ensures var c := m.cells[MoveSource(lo, count, k)];
            LandRun(m, lo, count, to, k + 1) ==
              Land(LandRun(m, lo, count, to, k), to + k, c.p.status, c.p.invisible, if k < count then c.mem else Zeros())
    ensures |LandRun(m, lo, count, to, k + 1).cells| == |m.cells|
  {
  }

  /** mremap_move_impl: landed page by page, then the old range given back. */
  ghost function MoveTo(m: Machine, lo: nat, count: nat, to: nat, newCount: nat): Machine
    requires Shaped(m) && PlanShaped(m) && count > 0 && lo + count <= |m.cells| && to + newCount <= |m.cells|
  {
    var r := LandRun(m, lo, count, to, newCount);
    if PlanShaped(r) then Unmap(r, lo, lo + count, false) else r
  }

  /** mremap_move_impl's answer: to where the arena has room, or why not. */
  ghost predicate Moves(base: nat, m: Machine, start: nat, size: nat, newSize: nat, arenaStart: nat, arenaSize: nat,
                        e: Errno, at: nat, after: Machine)
    requires base % PAGESIZE == 0 && Shaped(m) && PlanShaped(m)
  {
    var r, a := PageRange(base, |m.cells|, start, size), PageRange(base, |m.cells|, arenaStart, arenaSize);
    if r == None || newSize == 0 || newSize % PAGESIZE != 0 || !AllTaken(m.cells, r.value.0, r.value.0 + r.value.1) || a == None
    then e == EINVAL && after == m
    else
      var n := newSize / PAGESIZE;
      var lo, hi := a.value.0, a.value.0 + a.value.1;
      if e == Ok then
        && at >= base && at % PAGESIZE == 0
        && var to := (at - base) / PAGESIZE;
        && Placement(StatusMap(m.cells), lo, hi, n, Some(to))
        && lo <= to && to + n <= hi && AllGiven(m.cells, to, to + n)
        && after == MoveTo(m, r.value.0, r.value.1, to, n)
      else e == ENOMEM && Placement(StatusMap(m.cells), lo, hi, n, None) && after == m
  }

  /** A move that shows a page which was mapped writable unseen. */
  ghost predicate Unveils(base: nat, m: Machine, start: nat, size: nat, newSize: nat, at: nat)
    requires base % PAGESIZE == 0
  {
    var r := PageRange(base, |m.cells|, start, size);
    && m.group == 1 && r.Some? && at >= base
    && var (lo, count) := r.value;
    && var to, n := (at - base) / PAGESIZE, newSize / PAGESIZE;
    && count > 0 && lo + count <= |m.cells| && to + n <= |m.cells| && !Veiled(m.cells, lo, count, to, n)
  }

  lemma LandQuiet(m: Machine, base: seq<PageBytes>, i: nat, s: Status, hidden: bool, bytes: PageBytes)
    requires Inv(m, base) && Quiet(m.cells) && i < |m.cells| && s != StFree && m.cells[i].p.status == StFree
    ensures Quiet(Land(m, i, s, hidden, bytes).cells)
  {
    hide Landed, RefreshOs, Watched, Tight, CellOk;
    LandedOk(m.cells[i], base[i], m.epochActive, s, hidden, bytes);
  }

  /** The move's page j shows a page that was mapped writable unseen. */
  predicate UncoversAt(cells: seq<Cell>, lo: nat, count: nat, to: nat, j: nat)
    requires count > 0 && lo + count <= |cells| && to + j < |cells|
  {
    var c := cells[MoveSource(lo, count, j)];
    Uncovers(cells[to + j], c.p.status, c.p.invisible)
  }

  /** No page of the new range that was mapped writable unseen is made visible. */
  ghost predicate Veiled(cells: seq<Cell>, lo: nat, count: nat, to: nat, k: nat)
    requires count > 0 && lo + count <= |cells| && to + k <= |cells|
  {
    forall j | 0 <= j < k :: !UncoversAt(cells, lo, count, to, j)
  }

  lemma LandElsewhere(m: Machine, i: nat, s: Status, hidden: bool, bytes: PageBytes, j: nat)
    requires Shaped(m) && m.group == 1 && i < |m.cells| && j < |m.cells| && j != i
    ensures Land(m, i, s, hidden, bytes).cells[j] == m.cells[j] && Land(m, i, s, hidden, bytes).os[j] == m.os[j]
  {
    hide Landed, Protected, GroupProt;
    assert !Touches(1, j, i, i + 1);
  }

  lemma LandUncovers(m: Machine, base: PageBytes, i: nat, s: Status, hidden: bool, bytes: PageBytes)
    requires Shaped(m) && m.group == 1 && i < |m.cells| && CellOk(m.cells[i], base) && Uncovers(m.cells[i], s, hidden)
    requires m.cells[i].p.status == StFree && m.cells[i].p.planHold == Clear && s != StFree
    ensures var r := Land(m, i, s, hidden, bytes); Writable(r.os[i]) && !Enlisted(r.cells[i])
  {
    hide Landed, Protected, Protect, Uncovers, Enlisted, CellOk;
    LandIsSwap(m, i, s, hidden, bytes);
    ToldAlone(m, i, s);
    LandedListed(m.cells[i], base, m.epochActive, s, hidden, bytes);
  }

  /** A page the landing has uncovered stays writable and on no list. */
  lemma {:induction false} LandRunUncovers(m: Machine, base: seq<PageBytes>, lo: nat, count: nat, to: nat, k: nat, j: nat)
    requires Inv(m, base) && m.group == 1 && count > 0 && lo + count <= |m.cells| && to + k <= |m.cells| && j < k
    requires AllTaken(m.cells, lo, lo + count) && AllGiven(m.cells, to, to + k) && UncoversAt(m.cells, lo, count, to, j)
    ensures var r := LandRun(m, lo, count, to, k); Writable(r.os[to + j]) && !Enlisted(r.cells[to + j])
    decreases k
  {
    hide LandRun, Land, Uncovers, Enlisted, Watched, Tight, CellOk;
    var r, c := LandRun(m, lo, count, to, k - 1), m.cells[MoveSource(lo, count, k - 1)];
    var bytes: PageBytes := if k - 1 < count then c.mem else Zeros();
    LandRunStep(m, lo, count, to, k - 1);
    if j == k - 1 {
      assert CellOk(m.cells[to + j], base[to + j]) && OwesNothingFree(m.cells[to + j]);
      LandUncovers(r, base[to + j], to + j, c.p.status, c.p.invisible, bytes);
    } else {
      LandRunUncovers(m, base, lo, count, to, k - 1, j);
      LandElsewhere(r, to + k - 1, c.p.status, c.p.invisible, bytes, to + j);
    }
  }

  lemma {:induction false} LandRunKeeps(m: Machine, base: seq<PageBytes>, lo: nat, count: nat, to: nat, k: nat)
    requires Inv(m, base) && Quiet(m.cells) && count > 0 && lo + count <= |m.cells| && to + k <= |m.cells|
    requires AllTaken(m.cells, lo, lo + count) && AllGiven(m.cells, to, to + k)
    ensures Inv(LandRun(m, lo, count, to, k), base) && Quiet(LandRun(m, lo, count, to, k).cells)
    ensures Enrolled(m) && Veiled(m.cells, lo, count, to, k) ==> Enrolled(LandRun(m, lo, count, to, k))
  {
    hide Enrolled, Uncovers, Land, Watched, Tight, CellsOk, PlanOk, Quiet;
    if k > 0 {
      assert Veiled(m.cells, lo, count, to, k) ==> Veiled(m.cells, lo, count, to, k - 1) && !UncoversAt(m.cells, lo, count, to, k - 1);
      LandRunKeeps(m, base, lo, count, to, k - 1);
      var r, c := LandRun(m, lo, count, to, k - 1), m.cells[MoveSource(lo, count, k - 1)];
      LandKeeps(r, base, to + k - 1, c.p.status, c.p.invisible, if k - 1 < count then c.mem else Zeros());
      LandQuiet(r, base, to + k - 1, c.p.status, c.p.invisible, if k - 1 < count then c.mem else Zeros());
    }
  }

  /** What the landing loop finds when it comes to page k. */
  lemma LandReady(m: Machine, base: seq<PageBytes>, lo: nat, count: nat, to: nat, newCount: nat, k: nat)
    requires Inv(m, base) && count > 0 && lo + count <= |m.cells| && k < newCount && to + newCount <= |m.cells|
    requires AllTaken(m.cells, lo, lo + count) && AllGiven(m.cells, to, to + newCount)
    ensures var r, i := LandRun(m, lo, count, to, k), MoveSource(lo, count, k);
            && r.cells[to + k].p.planHold == Clear && r.cells[i] == m.cells[i] && m.cells[i].p.status != StFree
  {
    hide Land, Watched, Tight, CellsOk;
    assert OwesNothingFree(m.cells[to + k]);
  }

  lemma MoveKeeps(m: Machine, base: seq<PageBytes>, lo: nat, count: nat, to: nat, newCount: nat)
    requires Inv(m, base) && Quiet(m.cells) && count > 0 && lo + count <= |m.cells| && to + newCount <= |m.cells|
    requires AllTaken(m.cells, lo, lo + count) && AllGiven(m.cells, to, to + newCount)
    ensures Inv(MoveTo(m, lo, count, to, newCount), base) && Quiet(MoveTo(m, lo, count, to, newCount).cells)
    ensures PlanShaped(LandRun(m, lo, count, to, newCount))
    ensures Enrolled(m) ==> (Enrolled(MoveTo(m, lo, count, to, newCount)) <==> m.group != 1 || Veiled(m.cells, lo, count, to, newCount))
  {
    hide Enrolled, UncoversAt, Quiet, Unmap, LandRun, Watched, Tight, CellsOk, PlanShaped;
    LandRunKeeps(m, base, lo, count, to, newCount);
    var r := LandRun(m, lo, count, to, newCount);
    UnmapKeeps(r, base, lo, lo + count, false);
    if m.group != 1 {
      UnmapGroup(r, lo, lo + count, false);
      EnrolledGrouped(Unmap(r, lo, lo + count, false));
    } else if !Veiled(m.cells, lo, count, to, newCount) {
      var j :| 0 <= j < newCount && UncoversAt(m.cells, lo, count, to, j);
      LandRunUncovers(m, base, lo, count, to, newCount, j);
      assert !(lo <= to + j < lo + count) by { assert m.cells[to + j].p.status == StFree; }
      UnmapElsewhere(r, lo, lo + count, to + j);
      NotEnrolled(Unmap(r, lo, lo + count, false), to + j);
    }
  }

  lemma UnmapGroup(m: Machine, lo: nat, hi: nat, adviseOnly: bool)
    requires Shaped(m) && PlanShaped(m) && lo <= hi <= |m.cells|
    ensures Shaped(Unmap(m, lo, hi, adviseOnly)) && Unmap(m, lo, hi, adviseOnly).group == m.group
  {
  }

  lemma UnmapElsewhere(m: Machine, lo: nat, hi: nat, i: nat)
    requires Shaped(m) && PlanShaped(m) && m.group == 1 && lo <= hi <= |m.cells| && i < |m.cells| && !(lo <= i < hi)
    ensures var r := Unmap(m, lo, hi, false);
            |r.cells| == |r.os| == |m.cells| && r.group == 1 && r.cells[i] == m.cells[i] && r.os[i] == m.os[i]
  {
    hide GivenBack, GroupProt, DestTaken, CaughtUp;
    assert !Touches(1, i, lo, hi);
  }

  lemma LandedShows(c: Cell, active: bool, s: Status, hidden: bool, bytes: PageBytes)
    ensures var d := Landed(c, active, s, hidden, bytes);
            d.mem == bytes && d.p.status == s && d.p.invisible == hidden && d.p.dirty
  {
    hide NativeProt, EpochNote;
  }

  /** A move carries the bytes over and frees what they left: every page of the
      new range holds what the old range held there, zeros past it. */
  lemma {:induction false} MoveCarries(m: Machine, lo: nat, count: nat, to: nat, k: nat, j: nat)
    requires Shaped(m) && count > 0 && lo + count <= |m.cells| && to + k <= |m.cells| && j < k
    ensures var c := LandRun(m, lo, count, to, k).cells[to + j];
            && c.mem == (if j < count then m.cells[lo + j].mem else Zeros())
            && c.p.status == m.cells[MoveSource(lo, count, j)].p.status
            && c.p.invisible == m.cells[MoveSource(lo, count, j)].p.invisible && c.p.dirty
  {
    hide Landed, Protect, LandRun;
    LandRunStep(m, lo, count, to, k - 1);
    var c := m.cells[MoveSource(lo, count, k - 1)];
    LandedShows(LandRun(m, lo, count, to, k - 1).cells[to + k - 1], m.epochActive, c.p.status, c.p.invisible,
                if k - 1 < count then c.mem else Zeros());
    if j < k - 1 {
      MoveCarries(m, lo, count, to, k - 1, j);
    }
  }
}
