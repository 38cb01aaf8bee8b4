/** What the guest's and the loader's calls do, page by page: which statuses and
    bytes they leave where, and that they leave the rest alone. */
module Effects {
  import opened Pages
  import opened Machine
  import opened Deltas
  import opened Invariant
  import opened Restore
  import opened Workings
  import opened Calls
  import opened Sweeps
  import opened Loads

  // ---- mprotect and mmap ----

  /** A page as the guest sees it: what it holds and whether states show it. */
  predicate SameContents(c: Cell, d: Cell) {
    d.mem == c.mem && d.p.dirty == c.p.dirty && d.p.invisible == c.p.invisible
  }

  /** The range has the status asked for and the bytes it had; the rest is as it
      was. */
  ghost predicate Reprotected(was: seq<Cell>, now: seq<Cell>, lo: nat, hi: nat, s: Status) {
    && lo <= hi <= |was| == |now|
    && (forall k | lo <= k < hi :: now[k].p.status == s && SameContents(was[k], now[k]))
    && forall k | 0 <= k < |was| && !(lo <= k < hi) :: now[k] == was[k]
  }

  lemma ProtectedPage(c: Cell, active: bool, s: Status)
    ensures Protected(c, active, s).p.status == s && SameContents(c, Protected(c, active, s))
  {
    hide NativeProt;
  }

  lemma ProtectGives(m: Machine, lo: nat, hi: nat, s: Status)
    requires Shaped(m) && lo <= hi <= |m.cells|
    ensures Reprotected(m.cells, Protect(m, lo, hi, s).cells, lo, hi, s)
  {
    hide Protected, RefreshOs, SameContents;
    forall k | lo <= k < hi ensures Protect(m, lo, hi, s).cells[k].p.status == s && SameContents(m.cells[k], Protect(m, lo, hi, s).cells[k]) {
      ProtectedPage(m.cells[k], m.epochActive, s);
    }
  }

  /** The range has the status asked for; what was allocated there reads zero if
      asked, and every other page what it held. */
  ghost predicate Mapped(was: seq<Cell>, now: seq<Cell>, lo: nat, hi: nat, s: Status, zeroOverlap: bool) {
    && lo <= hi <= |was| == |now|
    && (forall k | lo <= k < hi ::
          && now[k].p.status == s && now[k].p.invisible == was[k].p.invisible
          && now[k].mem == if zeroOverlap && was[k].p.status != StFree then Zeros() else was[k].mem)
    && forall k | 0 <= k < |was| && !(lo <= k < hi) :: now[k] == was[k]
  }

  lemma OverlaidPage(c: Cell, base: PageBytes, active: bool, s: Status)
    requires CellOk(c, base)
    ensures var d := Protected(Overlaid(c, active), active, s);
            && d.p.status == s && d.p.invisible == c.p.invisible
            && d.mem == if c.p.status != StFree then Zeros() else c.mem
  {
    hide GivenBack, Protected;
    ProtectedPage(Overlaid(c, active), active, s);
    if c.p.status != StFree {
      UnmappedCell(CaughtUp(c), base, active, true);
      GivenBackSight(CaughtUp(c), active);
    }
  }

  lemma GivenBackSight(c: Cell, active: bool)
    ensures GivenBack(c, active, true).p.invisible == c.p.invisible
  {
    hide NativeProt, Emptied;
    EmptiedMarks(c, active);
  }

  lemma MapGives(m: Machine, base: seq<PageBytes>, lo: nat, hi: nat, s: Status, zeroOverlap: bool)
    requires Inv(m, base) && lo <= hi <= |m.cells|
    ensures Mapped(m.cells, MapFixed(m, lo, hi, s, zeroOverlap).cells, lo, hi, s, zeroOverlap)
  {
    hide Protected, RefreshOs, Overlaid, CellOk, TakenIn, DestTaken, Watched, Tight;
    var now := MapFixed(m, lo, hi, s, zeroOverlap).cells;
    forall k | lo <= k < hi
      ensures now[k].p.status == s && now[k].p.invisible == m.cells[k].p.invisible
      ensures now[k].mem == if zeroOverlap && m.cells[k].p.status != StFree then Zeros() else m.cells[k].mem
    {
      assert CellOk(m.cells[k], base[k]);
      ProtectedPage(m.cells[k], m.epochActive, s);
      OverlaidPage(m.cells[k], base[k], m.epochActive, s);
    }
  }

  /** Newly mapped: the status asked for, reading zero but for pages states
      never show; the rest is as it was. */
  ghost predicate MappedNew(was: seq<Cell>, now: seq<Cell>, lo: nat, hi: nat, s: Status) {
    && Reprotected(was, now, lo, hi, s)
    && forall k | lo <= k < hi && !was[k].p.invisible :: now[k].mem == Zeros()
  }

  lemma NewMapGives(m: Machine, base: seq<PageBytes>, lo: nat, hi: nat, s: Status)
    requires Inv(m, base) && lo <= hi <= |m.cells| && AllGiven(m.cells, lo, hi)
    ensures MappedNew(m.cells, Protect(m, lo, hi, s).cells, lo, hi, s)
  {
    hide Protect;
    ProtectGives(m, lo, hi, s);
    forall k | lo <= k < hi && !m.cells[k].p.invisible ensures m.cells[k].mem == Zeros() {
      assert CellOk(m.cells[k], base[k]);
    }
  }

  // ---- mremap ----

  /** In place: past a shrunk range the pages are free and read zero; a grown one
      has its first page's status on pages that hold what they held; no other
      page changes. */
  ghost predicate Resized(was: seq<Cell>, now: seq<Cell>, lo: nat, count: nat, newCount: nat) {
    && 0 < count && lo + count <= |was| == |now| && lo + newCount <= |was|
    && (forall k | lo + newCount <= k < lo + count :: now[k].p.status == StFree && now[k].mem == Zeros())
    && (forall k | lo + count <= k < lo + newCount :: now[k].p.status == was[lo].p.status && SameContents(was[k], now[k]))
    && (forall k | 0 <= k < |was| && (k < lo + count || lo + newCount <= k) && (k < lo + newCount || lo + count <= k) :: now[k] == was[k])
  }

  lemma RemapGives(base: nat, m: Machine, seal: seq<PageBytes>, start: nat, size: nat, newSize: nat)
    requires base % PAGESIZE == 0 && Inv(m, seal) && RemapErr(base, m.cells, start, size, newSize) == Ok
    ensures var r := PageRange(base, |m.cells|, start, size).value;
            Resized(m.cells, Remapped(base, m, start, size, newSize).cells, r.0, r.1, newSize / PAGESIZE)
  {
    hide Protect, Unmap, CellOk, Watched, Tight, PlanShaped, SameContents, GivenUp, AllTaken, AllGiven;
    var r := PageRange(base, |m.cells|, start, size).value;
    var n := newSize / PAGESIZE;
    if newSize > size {
      ProtectGives(m, r.0 + r.1, r.0 + n, m.cells[r.0].p.status);
    } else {
      UnmapGives(m, seal, r.0 + n, r.0 + r.1, false);
      GivenUpPages(m.cells, Unmap(m, r.0 + n, r.0 + r.1, false).cells, r.0 + n, r.0 + r.1);
    }
  }

  lemma GivenUpPages(was: seq<Cell>, now: seq<Cell>, lo: nat, hi: nat)
    requires hi <= |was| == |now| && GivenUp(was, now, lo, hi, false)
    ensures forall k | lo <= k < hi :: now[k].p.status == StFree && now[k].mem == Zeros()
    ensures forall k | 0 <= k < |was| && !(lo <= k < hi) :: now[k] == was[k]
  {
  }

  /** A page holds what the page that was moved there held, zeros past those
      there were, with the status and visibility of the page it comes from. */
  ghost predicate Arrived(was: seq<Cell>, d: Cell, lo: nat, count: nat, j: nat)
    requires 0 < count && lo + count <= |was|
  {
    && d.mem == (if j < count then was[lo + j].mem else Zeros())
    && var from := if j < count then lo + j else lo + count - 1;
       d.p.status == was[from].p.status && d.p.invisible == was[from].p.invisible && d.p.dirty
  }

  /** Moved: the new range holds what the old one held; the old range is free
      and reads zero; no other page changes. */
  ghost predicate Transferred(was: seq<Cell>, now: seq<Cell>, lo: nat, count: nat, to: nat, n: nat) {
    && 0 < count && lo + count <= |was| == |now| && to + n <= |was|
    && (forall k | to <= k < to + n :: Arrived(was, now[k], lo, count, k - to))
    && (forall k | lo <= k < lo + count :: now[k].p.status == StFree && now[k].mem == Zeros())
    && forall k | 0 <= k < |was| && !(lo <= k < lo + count) && !(to <= k < to + n) :: now[k] == was[k]
  }

  lemma RunArrives(m: Machine, lo: nat, count: nat, to: nat, n: nat, k: nat)
    requires Shaped(m) && count > 0 && lo + count <= |m.cells| && to + n <= |m.cells| && to <= k < to + n
    ensures Arrived(m.cells, LandRun(m, lo, count, to, n).cells[k], lo, count, k - to)
  {
    hide LandRun;
    MoveCarries(m, lo, count, to, n, k - to);
  }

  lemma MoveGives(m: Machine, base: seq<PageBytes>, lo: nat, count: nat, to: nat, n: nat)
    requires Inv(m, base) && Quiet(m.cells) && count > 0 && lo + count <= |m.cells| && to + n <= |m.cells|
    requires AllTaken(m.cells, lo, lo + count) && AllGiven(m.cells, to, to + n)
    ensures Transferred(m.cells, MoveTo(m, lo, count, to, n).cells, lo, count, to, n)
  {
    hide LandRun, Unmap, CellOk, Watched, Tight, PlanShaped, Quiet, GivenUp, Arrived;
    LandRunKeeps(m, base, lo, count, to, n);
    MoveKeeps(m, base, lo, count, to, n);
    var r := LandRun(m, lo, count, to, n);
    var now := Unmap(r, lo, lo + count, false).cells;
    UnmapGives(r, base, lo, lo + count, false);
    GivenUpPages(r.cells, now, lo, lo + count);
    forall k | to <= k < to + n ensures Arrived(m.cells, now[k], lo, count, k - to) {
      RunArrives(m, lo, count, to, n, k);
      assert m.cells[k].p.status == StFree;
    }
  }

  // ---- before the seal ----

  /** Hidden: the range is in no state from now on, and holds what it held. */
  ghost predicate Hid(was: seq<Cell>, now: seq<Cell>, lo: nat, hi: nat) {
    && lo <= hi <= |was| == |now|
    && (forall k | lo <= k < hi ::
          now[k].p.invisible && now[k].p.dirty && now[k].p.status == was[k].p.status && now[k].mem == was[k].mem)
    && forall k | 0 <= k < |was| && !(lo <= k < hi) :: now[k] == was[k]
  }

  lemma HideGives(m: Machine, lo: nat, hi: nat)
    requires Shaped(m) && lo <= hi <= |m.cells|
    ensures Hid(m.cells, Hide(m, lo, hi).cells, lo, hi)
  {
    hide NativeProt, RefreshOs;
  }

  /** Sealed: every page as it was, the visible ones clean. */
  ghost predicate SealedOver(was: seq<Cell>, now: seq<Cell>) {
    && |now| == |was|
    && forall k | 0 <= k < |was| ::
         && now[k].p.status == was[k].p.status && now[k].mem == was[k].mem && now[k].p.invisible == was[k].p.invisible
         && now[k].p.dirty == (was[k].p.dirty && was[k].p.invisible)
  }

  lemma SealedPage(c: Cell)
    ensures var d := SealedCell(c);
            d.p.status == c.p.status && d.mem == c.mem && d.p.invisible == c.p.invisible && d.p.dirty == (c.p.dirty && c.p.invisible)
  {
    hide NativeProt;
  }

  lemma SealGives(m: Machine)
    requires Shaped(m)
    ensures SealedOver(m.cells, Seal(m).cells)
  {
    hide SealedCell, RefreshOs;
    forall k | 0 <= k < |m.cells|
      ensures var c, d := m.cells[k], Seal(m).cells[k];
              d.p.status == c.p.status && d.mem == c.mem && d.p.invisible == c.p.invisible && d.p.dirty == (c.p.dirty && c.p.invisible)
    {
      SealedPage(m.cells[k]);
    }
  }

  // ---- a load cut off ----

  /** What a load shows on a page: the state's status, and on a visible page the
      state's mark, with the stream's bytes if dirty and the sealed ones if not. */
  predicate ShowsState(v: PageView, invisible: bool, s: Status, d: bool, bytes: PageBytes, base: PageBytes) {
    v == if invisible then Hidden(s) else Shown(s, d, if d then bytes else base)
  }

  lemma LoadedShows(c: Cell, base: PageBytes, s: Status, d: bool, bytes: PageBytes)
    requires CellOk(c, base)
    ensures ShowsState(ViewOf(LoadedCell(c, s, d, bytes)), c.p.invisible, s, d, bytes, base)
    ensures ShowsState(ViewOf(Refreshed(LoadedCell(c, s, d, bytes))), c.p.invisible, s, d, bytes, base)
  {
    hide NativeProt;
  }

  /** A stream that ends early: the pages before the first it has no bytes for are
      the state's; that one holds what arrived and is dirty, its status as it was;
      the rest are untouched. */
  lemma CutShows(m: Machine, base: seq<PageBytes>, st: State, partial: PageBytes, i: nat)
    requires Inv(m, base) && |st.status| == |st.dirty| == |m.cells| && i < |m.cells|
    ensures var f, r := FailsFrom(m.cells, st, 0), Loaded(m, st, partial);
            && |r.cells| == |m.cells|
            && (i < f ==> ShowsState(ViewOf(r.cells[i]), m.cells[i].p.invisible, st.status[i], st.dirty[i], StreamBytes(m.cells, st, i), base[i]))
            && (i == f ==> ViewOf(r.cells[i]) == Shown(m.cells[i].p.status, true, partial))
            && (i > f ==> r.cells[i] == m.cells[i])
  {
    hide LoadedCell, Refreshed, GroupProt, NativeProt, StreamBytes, Watched, Tight, CellOk, ShowsState, FailsFrom, NeedsMore;
    assert CellOk(m.cells[i], base[i]);
    var f := FailsFrom(m.cells, st, 0);
    LoadedShows(m.cells[i], base[i], st.status[i], st.dirty[i], StreamBytes(m.cells, st, i));
    if i == f { FailedShows(m.cells, st, i, partial); }
  }

  lemma FailedShows(cells: seq<Cell>, st: State, i: nat, partial: PageBytes)
    requires |st.dirty| == |cells| && i < |cells| && NeedsMore(cells, st, i)
    ensures ViewOf(FailedCell(cells[i], partial)) == Shown(cells[i].p.status, true, partial)
  {
  }

  // ---- epochs opened and over ----

  /** Nothing is recorded of any page. */
  predicate NothingRecorded(cells: seq<Cell>) {
    forall k | 0 <= k < |cells| :: !cells[k].p.epochDirty && !cells[k].stat
  }

  /** No epoch is open, and nothing is left of one. */
  predicate EpochOver(m: Machine) {
    !m.epochActive && NothingRecorded(m.cells)
  }

  lemma BeginOpens(m: Machine)
    requires Shaped(m)
    ensures EpochBegin(m).epochActive && NothingRecorded(EpochBegin(m).cells)
  {
    hide NativeProt, GroupProt;
  }

  lemma ClearEnds(m: Machine)
    ensures EpochOver(EpochClear(m))
  {
  }

  lemma ReadiedEnds(m: Machine)
    requires Shaped(m) && PlanShaped(m)
    ensures EpochOver(Readied(m)) && Readied(m).plan.Idle?
  {
    hide EpochOver, Refreshed, GroupProt, DestTaken;
    ReadiedIdle(m);
    if m.plan.Idle? { ClearEnds(m); } else { ClearEnds(FinishPlan(TakeIn(m, Listed(m.plan.list, 0, |m.plan.list|)))); }
  }

  predicate SameRecord(c: Cell, d: Cell) {
    d.p.epochDirty == c.p.epochDirty && d.stat == c.stat
  }

  lemma RefreshedRecord(c: Cell)
    ensures SameRecord(c, Refreshed(c))
  {
    hide NativeProt;
  }

  lemma LoadedRecord(c: Cell, s: Status, d: bool, bytes: PageBytes)
    ensures SameRecord(c, LoadedCell(c, s, d, bytes))
  {
    hide LoadFilled, LoadMarked, NoteStatus;
    var f := LoadFilled(c, d, bytes);
    var l := if c.p.invisible then c else LoadMarked(f, d);
    FilledRecord(c, d, bytes);
    MarkedRecord(f, d);
    NotedRecord(l, s);
  }

  lemma FilledRecord(c: Cell, d: bool, bytes: PageBytes)
    ensures SameRecord(c, LoadFilled(c, d, bytes))
  {
  }

  lemma MarkedRecord(c: Cell, d: bool)
    ensures SameRecord(c, LoadMarked(c, d))
  {
  }

  lemma NotedRecord(c: Cell, s: Status)
    ensures SameRecord(c, NoteStatus(c, s))
  {
  }

  lemma FailedRecord(c: Cell, partial: PageBytes)
    ensures SameRecord(c, FailedCell(c, partial))
  {
  }

  /** A load leaves no epoch open, whole or cut off. */
  lemma LoadEnds(m: Machine, st: State, partial: PageBytes)
    requires Shaped(m) && |st.status| == |st.dirty| == |m.cells| && EpochOver(m)
    ensures EpochOver(Loaded(m, st, partial)) && Loaded(m, st, partial).plan == m.plan
  {
    hide LoadedCell, FailedCell, Refreshed, GroupProt, NativeProt, StreamBytes, FailsFrom;
    forall k | 0 <= k < |m.cells|
      ensures !Loaded(m, st, partial).cells[k].p.epochDirty && !Loaded(m, st, partial).cells[k].stat
    {
      var c := m.cells[k];
      var l, f := LoadedCell(c, st.status[k], st.dirty[k], StreamBytes(m.cells, st, k)), FailedCell(c, partial);
      LoadedRecord(c, st.status[k], st.dirty[k], StreamBytes(m.cells, st, k));
      FailedRecord(c, partial);
      RefreshedRecord(l);
      RefreshedRecord(f);
    }
  }

  /** Nor does a delta applied. */
  lemma ApplyEnds(m: Machine, d: Delta)
    requires Shaped(m)
    ensures EpochOver(ApplyDelta(m, d))
  {
    hide EpochOver, Refreshed, GroupProt, NativeProt;
    var m1 := Swept(m, Restatused(m.cells, d));
    ClearEnds(Swept(m1, Patched(m1.cells, d)));
  }

  /** Nor does the seal. */
  lemma SealEnds(m: Machine)
    requires Shaped(m)
    ensures EpochOver(Seal(m))
  {
    hide NativeProt, RefreshOs;
  }
}
