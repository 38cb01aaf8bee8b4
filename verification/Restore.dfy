/** Boot, seal, and the two ways a machine is put back: a whole state loaded, a
    delta applied. */
module Restore {
  import opened Pages
  import opened Machine
  import opened Deltas
  import opened Invariant

  // ---- boot and seal ----

  function ZeroImage(n: nat): (r: seq<PageBytes>) {
    var z: PageBytes := Zeros();
    seq(n, i requires 0 <= i < n => z)
  }

  /** mb_block_new: every page free and reading zero. */
  function NewMachine(n: nat, group: nat): Machine {
    Machine(seq(n, i requires 0 <= i < n => Cell(FRESH_PAGE, Zeros(), false, false)), group,
            seq(n, i requires 0 <= i < n => NoAccess), false, 0, Idle)
  }

  /** copy_from_external, the loader writing a page through the mirror. */
  function Poke(m: Machine, i: nat, bytes: PageBytes): Machine
    requires i < |m.cells|
  {
    m.(cells := m.cells[i := Poked(m.cells[i], bytes)])
  }

  function Poked(c: Cell, bytes: PageBytes): Cell {
    Cool(SetDirty(c, true)).(mem := bytes)
  }

  /** mark_invisible. */
  ghost function Hide(m: Machine, lo: nat, hi: nat): Machine
    requires Shaped(m) && lo <= hi <= |m.cells|
  {
    var cells := seq(|m.cells|, i requires 0 <= i < |m.cells| =>
                       if lo <= i < hi then Refreshed(SetDirty(m.cells[i], true).(p := m.cells[i].p.(dirty := true, invisible := true)))
                       else m.cells[i]);
    m.(cells := cells, os := RefreshOs(cells, m.group, m.os, lo, hi))
  }

  /** seal_impl: what every page holds now is the baseline. */
  ghost function Seal(m: Machine): Machine
    requires Shaped(m)
  {
    var cells := seq(|m.cells|, i requires 0 <= i < |m.cells| => SealedCell(m.cells[i]));
    m.(cells := cells, epochActive := false, os := RefreshOs(cells, m.group, m.os, 0, |m.cells|))
  }

  /** The sealed image: what every visible page holds. */
  function Image(m: Machine): (base: seq<PageBytes>) {
    seq(|m.cells|, i requires 0 <= i < |m.cells| => SealedAs(m.cells[i]))
  }

  function SealedAs(c: Cell): PageBytes {
    if c.p.invisible then Zeros() else c.mem
  }

  /** Before the seal the baseline is zeros, and a new block is sound against it. */
  lemma NewIsSound(n: nat, group: nat)
    requires group > 0
    ensures Inv(NewMachine(n, group), ZeroImage(n)) && Enrolled(NewMachine(n, group))
  {
  }

  lemma PokeKeeps(m: Machine, i: nat, bytes: PageBytes)
    requires Inv(m, ZeroImage(|m.cells|)) && i < |m.cells| && m.cells[i].p.status != StFree
    ensures Inv(Poke(m, i, bytes), ZeroImage(|m.cells|)) && (Enrolled(m) ==> Enrolled(Poke(m, i, bytes)))
  {
    var r := Poke(m, i, bytes);
    assert CellOk(r.cells[i], Zeros());
    Assemble(m, ZeroImage(|m.cells|), r.cells, r.os, {});
  }

  predicate NoneHotIn(cells: seq<Cell>, lo: nat, hi: nat)
    requires lo <= hi <= |cells|
  {
    forall i | lo <= i < hi :: !cells[i].p.hot
  }

  /** Hiding pages keeps the invariant exactly when none of them is hot. */
  lemma HideKeeps(m: Machine, lo: nat, hi: nat)
    requires Inv(m, ZeroImage(|m.cells|)) && lo <= hi <= |m.cells|
    ensures Inv(Hide(m, lo, hi), ZeroImage(|m.cells|)) <==> NoneHotIn(m.cells, lo, hi)
    ensures NoneHotIn(m.cells, lo, hi) && Enrolled(m) ==> Enrolled(Hide(m, lo, hi))
  {
    if NoneHotIn(m.cells, lo, hi) {
      HideNoneHot(m, lo, hi);
    } else {
      hide NativeProt, RefreshOs;
      var i :| lo <= i < hi && m.cells[i].p.hot;
      assert Hide(m, lo, hi).cells[i].p.hot && Hide(m, lo, hi).cells[i].p.invisible;
      assert !CellOk(Hide(m, lo, hi).cells[i], ZeroImage(|m.cells|)[i]);
    }
  }

  lemma HideNoneHot(m: Machine, lo: nat, hi: nat)
    requires Inv(m, ZeroImage(|m.cells|)) && lo <= hi <= |m.cells| && NoneHotIn(m.cells, lo, hi)
    ensures Inv(Hide(m, lo, hi), ZeroImage(|m.cells|)) && (Enrolled(m) ==> Enrolled(Hide(m, lo, hi)))
  {
    var r, base := Hide(m, lo, hi), ZeroImage(|m.cells|);
    forall i | 0 <= i < |m.cells|
      ensures CellOk(r.cells[i], base[i]) && SamePlan(m.cells[i], r.cells[i]) && OwesNothingFree(r.cells[i])
    {
      assert OwesNothingFree(m.cells[i]);
    }
    AssembleRange(m, base, r.cells, lo, hi);
    if Enrolled(m) { RefreshEnrolled(m, r.cells, lo, hi); }
  }

  lemma SealedOk(c: Cell)
    requires CellOk(c, Zeros())
    ensures CellOk(SealedCell(c), SealedAs(c)) && SamePlan(c, SealedCell(c)) && SealedAs(SealedCell(c)) == SealedAs(c)
    ensures !SealedCell(c).p.invisible ==> !SealedCell(c).p.dirty
    ensures Told(SealedCell(c))
  {
    hide NativeProt;
    RefreshedTold(Forgotten(c));
    var clean := SetDirty(Cool(Forgotten(c)), false);
    RefreshedTold(clean.(p := clean.p.(snap := if clean.mem == Zeros() then ZeroSnap else NoSnap)));
  }

  /** Sealing makes the live image the baseline of every page: all visible
      pages clean, and the invariant holding against that image from here. */
  lemma SealEstablishes(m: Machine)
    requires Inv(m, ZeroImage(|m.cells|)) && m.plan.Idle?
    ensures Inv(Seal(m), Image(m)) && Image(Seal(m)) == Image(m) && Enrolled(Seal(m))
    ensures forall i | 0 <= i < |m.cells| && !m.cells[i].p.invisible :: !Seal(m).cells[i].p.dirty
  {
    var r := Seal(m);
    forall i | 0 <= i < |m.cells|
      ensures CellOk(r.cells[i], SealedAs(m.cells[i])) && SamePlan(m.cells[i], r.cells[i]) && SealedAs(r.cells[i]) == SealedAs(m.cells[i])
      ensures !m.cells[i].p.invisible ==> !r.cells[i].p.dirty
      ensures Told(r.cells[i])
    {
      SealedOk(m.cells[i]);
    }
    assert Enrolled(r) by { SealEnrols(m, r.cells); }
    RefreshWatched(m, r.cells, 0, |m.cells|);
    var n := m.(cells := r.cells, os := r.os);
    assert r == n.(epochActive := false) && Watched(n) && Tight(n);
  }

  lemma SealEnrols(m: Machine, cells: seq<Cell>)
    requires Shaped(m) && |cells| == |m.cells| && forall i | 0 <= i < |cells| :: Told(cells[i])
    ensures Enrolled(m.(cells := cells, os := RefreshOs(cells, m.group, m.os, 0, |cells|)))
  {
    if m.group == 1 {
      forall i | 0 <= i < |cells| ensures Touches(1, i, 0, |cells|) { assert SameGroup(1, i, i); }
    }
  }

  // ---- the watch across a sweep ----

  /** Untracked before, tracked after, and its own protection no different. */
  predicate SilentlyArmed(c: Cell, d: Cell) {
    !Tracked(c.p.status) && Tracked(d.p.status) && NativeProt(c.p) == NativeProt(d.p)
  }

  /** A host page the OS lets be written, none of whose pages changes its own
      protection, holds a page that the sweep silently arms. */
  ghost predicate LeavesOpen(m: Machine, cells: seq<Cell>)
    requires Shaped(m) && |cells| == |m.cells|
  {
    exists i, j | 0 <= i < |cells| && 0 <= j < |cells| && Writable(m.os[i]) && SilentlyArmed(m.cells[j], cells[j]) ::
      SameGroup(m.group, i, j) && !GroupMoved(m.cells, cells, m.group, i)
  }

  lemma GroupMovedShared(before: seq<Cell>, after: seq<Cell>, g: nat, i: nat, j: nat)
    requires |before| == |after| && g > 0 && j < |before| && SameGroup(g, i, j) && Moved(before, after, j)
    ensures GroupMoved(before, after, g, i)
  {
  }

  lemma SweptOpen(m: Machine, cells: seq<Cell>, i: nat, j: nat)
    requires Shaped(m) && |cells| == |m.cells| && i < |cells| && j < |cells| && Writable(m.os[i])
    requires SilentlyArmed(m.cells[j], cells[j]) && !GroupMoved(m.cells, cells, m.group, i)
    ensures Writable(Swept(m, cells).os[i]) && Armed(Swept(m, cells).cells[j].p)
  {
  }

  lemma ArmedHow(c: Cell, d: Cell)
    requires NativeProt(c.p) == NativeProt(d.p)
    ensures SilentlyArmed(c, d) || (Armed(d.p) ==> Armed(c.p))
  {
  }

  lemma SweptShut(m: Machine, cells: seq<Cell>, i: nat, j: nat)
    requires Shaped(m) && Watched(m) && |cells| == |m.cells| && i < |cells| && j < |cells|
    requires !LeavesOpen(m, cells) && SameGroup(m.group, i, j) && Writable(Swept(m, cells).os[i])
    ensures !Armed(cells[j].p)
  {
    if GroupMoved(m.cells, cells, m.group, i) {
      GroupProtSafe(cells, m.group, i, j);
    } else if Moved(m.cells, cells, j) {
      GroupMovedShared(m.cells, cells, m.group, i, j);
    } else {
      ArmedHow(m.cells[j], cells[j]);
    }
  }

  /** A sweep keeps the watch exactly when it leaves no host page open. */
  lemma SweptWatched(m: Machine, cells: seq<Cell>)
    requires Shaped(m) && Watched(m) && |cells| == |m.cells|
    ensures Watched(Swept(m, cells)) <==> !LeavesOpen(m, cells)
  {
    if LeavesOpen(m, cells) {
      var i, j :| 0 <= i < |cells| && 0 <= j < |cells| && Writable(m.os[i]) && SilentlyArmed(m.cells[j], cells[j])
        && SameGroup(m.group, i, j) && !GroupMoved(m.cells, cells, m.group, i);
      SweptOpen(m, cells, i, j);
    } else {
      var r := Swept(m, cells);
      forall i, j | 0 <= i < |cells| && 0 <= j < |cells| && Writable(r.os[i]) && Armed(r.cells[j].p)
        ensures !SameGroup(m.group, i, j)
      {
        if SameGroup(m.group, i, j) {
          SweptShut(m, cells, i, j);
        }
      }
    }
  }

  lemma SweptTight(m: Machine, cells: seq<Cell>)
    requires Shaped(m) && Watched(m) && Tight(m) && |cells| == |m.cells|
    ensures Tight(Swept(m, cells))
    ensures m.group == 1 ==> !LeavesOpen(m, cells)
  {
    var r := Swept(m, cells);
    if m.group == 1 {
      forall i | 0 <= i < |cells| && Writable(r.os[i]) ensures Tracked(r.cells[i].p.status) {
        assert SameGroup(1, i, i);
        if !GroupMoved(m.cells, cells, 1, i) {
          assert !Armed(m.cells[i].p);
          assert !Moved(m.cells, cells, i);
        }
      }
    }
  }

  /** A sweep keeps the list, when no page it leaves untold falls off. */
  lemma SweptEnrolled(m: Machine, cells: seq<Cell>)
    requires Shaped(m) && Tight(m) && Enrolled(m) && |cells| == |m.cells|
    requires forall i | 0 <= i < |cells| :: StaysListed(m.cells[i], cells[i])
    ensures Enrolled(Swept(m, cells))
  {
    hide NativeProt, Refreshed, Enlisted;
    var r := Swept(m, cells);
    if m.group == 1 {
      forall i | 0 <= i < |cells| && Writable(r.os[i]) ensures Enlisted(r.cells[i]) {
        assert SameGroup(1, i, i);
        assert GroupMoved(m.cells, cells, 1, i) <==> Moved(m.cells, cells, i);
        RefreshedTold(cells[i]);
      }
    }
  }

  lemma SweptSound(m: Machine, cells: seq<Cell>, base: seq<PageBytes>)
    requires Sound(m, base) && CellsOk(cells, base) && |cells| == |m.cells|
    requires forall i | 0 <= i < |cells| :: SamePlan(m.cells[i], cells[i])
    requires m.plan.Idle?
    ensures Sound(Swept(m, cells), base)
    ensures forall i | 0 <= i < |cells| :: ViewOf(Swept(m, cells).cells[i]) == ViewOf(cells[i])
  {
    var r := Swept(m, cells);
    forall i | 0 <= i < |cells|
      ensures CellOk(r.cells[i], base[i]) && SamePlan(m.cells[i], r.cells[i]) && ViewOf(r.cells[i]) == ViewOf(cells[i])
    {
    }
  }

  // ---- loading a state ----

  /** The view a state describes on a machine with these invisible pages. */
  function StateView(cells: seq<Cell>, st: State, base: seq<PageBytes>): (v: seq<PageView>)
    requires Fits(cells, st) && |base| == |cells|
  {
    seq(|cells|, i requires 0 <= i < |cells| =>
          if cells[i].p.invisible then Hidden(st.status[i])
          else Shown(st.status[i], st.dirty[i], if st.dirty[i] then BroughtBytes(cells, st, i) else base[i]))
  }

  predicate ViewsOk(v: seq<PageView>, base: seq<PageBytes>) {
    |v| == |base| && forall i | 0 <= i < |v| :: ViewOk(v[i], base[i])
  }

  lemma ClearKeeps(m: Machine, base: seq<PageBytes>)
    requires Sound(m, base)
    ensures Sound(EpochClear(m), base)
    ensures Watched(m) ==> Watched(EpochClear(m))
    ensures Tight(m) ==> Tight(EpochClear(m))
    ensures forall i | 0 <= i < |m.cells| :: ViewOf(EpochClear(m).cells[i]) == ViewOf(m.cells[i])
  {
    var r := EpochClear(m);
    forall i | 0 <= i < |m.cells|
      ensures CellOk(r.cells[i], base[i]) && SamePlan(m.cells[i], r.cells[i]) && ViewOf(r.cells[i]) == ViewOf(m.cells[i])
      ensures Armed(r.cells[i].p) == Armed(m.cells[i].p)
    {
    }
  }

  lemma LoadedAt(m: Machine, base: seq<PageBytes>, st: State, i: nat)
    requires Sound(m, base) && Fits(m.cells, st) && ViewsOk(StateView(m.cells, st, base), base) && i < |m.cells|
    ensures CellOk(LoadedCells(m.cells, st)[i], base[i]) && SamePlan(m.cells[i], LoadedCells(m.cells, st)[i])
    ensures ViewOf(LoadedCells(m.cells, st)[i]) == StateView(m.cells, st, base)[i]
  {
    assert ViewOk(StateView(m.cells, st, base)[i], base[i]);
    LoadedOk(m.cells[i], base[i], st.status[i], st.dirty[i], BroughtBytes(m.cells, st, i));
  }

  lemma ClearFits(m: Machine, base: seq<PageBytes>, st: State)
    requires Sound(m, base) && Fits(m.cells, st)
    ensures Fits(EpochClear(m).cells, st)
    ensures StateView(EpochClear(m).cells, st, base) == StateView(m.cells, st, base)
  {
    assert BroughtBits(EpochClear(m).cells, st.dirty) == BroughtBits(m.cells, st.dirty);
  }

  lemma LoadSound(m: Machine, base: seq<PageBytes>, st: State)
    requires Sound(m, base) && m.plan.Idle? && Fits(m.cells, st) && ViewsOk(StateView(m.cells, st, base), base)
    ensures Sound(LoadState(m, st), base)
    ensures ViewOfMachine(LoadState(m, st)) == StateView(m.cells, st, base)
  {
    var clear := EpochClear(m);
    ClearKeeps(m, base);
    ClearFits(m, base, st);
    LoadedSound(clear, base, st);
  }

  lemma LoadedSound(m: Machine, base: seq<PageBytes>, st: State)
    requires Sound(m, base) && m.plan.Idle? && Fits(m.cells, st) && ViewsOk(StateView(m.cells, st, base), base)
    ensures Sound(Swept(m, LoadedCells(m.cells, st)), base)
    ensures ViewOfMachine(Swept(m, LoadedCells(m.cells, st))) == StateView(m.cells, st, base)
  {
    var cells := LoadedCells(m.cells, st);
    forall i | 0 <= i < |cells|
      ensures CellOk(cells[i], base[i]) && SamePlan(m.cells[i], cells[i])
      ensures ViewOf(cells[i]) == StateView(m.cells, st, base)[i]
    {
      LoadedAt(m, base, st, i);
    }
    SweptSound(m, cells, base);
  }

  /** What a load will make of a page's record, as far as its protection goes. */
  function LoadRecord(p: Page, s: Status, d: bool): Page {
    p.(status := s, dirty := if p.invisible then p.dirty else d, hot := p.hot && s == p.status && (p.invisible || d))
  }

  /** A change that makes a read-only page writable without a change of
      protection: it stays clean or held. */
  predicate ArmsInPlace(p: Page, s: Status, dirty: bool) {
    && ((p.status == StR && (s == StRW || s == StRWStack)) || (p.status == StRX && s == StRWX))
    && (!dirty || p.held || p.planHold != Clear)
  }

  ghost predicate LoadMoves(m: Machine, st: State, f: nat, i: nat)
    requires Shaped(m) && f <= |st.status| == |st.dirty| == |m.cells|
  {
    exists q | 0 <= q < f ::
      SameGroup(m.group, i, q) && NativeProt(m.cells[q].p) != NativeProt(LoadRecord(m.cells[q].p, st.status[q], st.dirty[q]))
  }

  /** A state read as far as page f leaves a hole in the watch: a host page the
      OS lets be written, none of whose pages changes its protection, with a
      read-only page in it that becomes writable and must fault. */
  ghost predicate LoadOpens(m: Machine, st: State, f: nat)
    requires Shaped(m) && f <= |st.status| == |st.dirty| == |m.cells|
  {
    exists i, j | 0 <= i < |m.cells| && 0 <= j < f && Writable(m.os[i])
                  && ArmsInPlace(m.cells[j].p, st.status[j], LoadRecord(m.cells[j].p, st.status[j], st.dirty[j]).dirty) ::
      SameGroup(m.group, i, j) && !LoadMoves(m, st, f, i)
  }

  lemma LoadRecordIs(c: Cell, s: Status, d: bool, bytes: PageBytes)
    requires Coherent(c)
    ensures var r := LoadedCell(c, s, d, bytes);
            && NativeProt(r.p) == NativeProt(LoadRecord(c.p, s, d)) && StaysListed(c, r)
            && (SilentlyArmed(c, r) <==> ArmsInPlace(c.p, s, LoadRecord(c.p, s, d).dirty))
  {
    hide NativeProt, ArmsInPlace, LoadedCell, LoadRecord;
    var r := LoadedCell(c, s, d, bytes);
    LoadedFields(c, s, d, bytes);
    ProtFields(r.p, LoadRecord(c.p, s, d));
    ArmsPage(c.p, r.p);
  }

  /** All of a page's record that its protection depends on. */
  predicate SameFields(p: Page, q: Page) {
    p.status == q.status && p.planHold == q.planHold && p.hot == q.hot && p.dirty == q.dirty && p.held == q.held
  }

  lemma ProtFields(p: Page, q: Page)
    requires SameFields(p, q)
    ensures NativeProt(p) == NativeProt(q)
  {
  }

  /** A change of status, of dirt, or of both. */
  predicate Recast(p: Page, q: Page) {
    p.planHold == q.planHold && p.held == q.held && (q.hot ==> p.hot && p.status == q.status)
  }

  lemma ArmsPage(p: Page, q: Page)
    requires Recast(p, q) && (p.hot ==> Tracked(p.status))
    ensures !Tracked(p.status) && Tracked(q.status) && NativeProt(p) == NativeProt(q) <==> ArmsInPlace(p, q.status, q.dirty)
  {
  }

  lemma LoadedFields(c: Cell, s: Status, d: bool, bytes: PageBytes)
    requires Coherent(c)
    ensures var r := LoadedCell(c, s, d, bytes);
            SameFields(r.p, LoadRecord(c.p, s, d)) && Recast(c.p, r.p) && r.p.status == s && StaysListed(c, r)
  {
  }

  lemma LoadRecordsAre(m: Machine, base: seq<PageBytes>, st: State)
    requires CellsOk(m.cells, base) && Fits(m.cells, st)
    ensures var cells := LoadedCells(m.cells, st);
            forall q | 0 <= q < |m.cells| ::
              && NativeProt(cells[q].p) == NativeProt(LoadRecord(m.cells[q].p, st.status[q], st.dirty[q]))
              && StaysListed(m.cells[q], cells[q])
              && (SilentlyArmed(m.cells[q], cells[q]) <==>
                  ArmsInPlace(m.cells[q].p, st.status[q], LoadRecord(m.cells[q].p, st.status[q], st.dirty[q]).dirty))
  {
    hide LoadedCell, LoadRecord, NativeProt, SilentlyArmed, ArmsInPlace, StaysListed;
    var cells := LoadedCells(m.cells, st);
    forall q | 0 <= q < |m.cells|
      ensures && NativeProt(cells[q].p) == NativeProt(LoadRecord(m.cells[q].p, st.status[q], st.dirty[q]))
              && StaysListed(m.cells[q], cells[q])
              && (SilentlyArmed(m.cells[q], cells[q]) <==>
                  ArmsInPlace(m.cells[q].p, st.status[q], LoadRecord(m.cells[q].p, st.status[q], st.dirty[q]).dirty))
    {
      assert CellOk(m.cells[q], base[q]);
      LoadRecordIs(m.cells[q], st.status[q], st.dirty[q], BroughtBytes(m.cells, st, q));
    }
  }

  lemma LoadOpensIs(m: Machine, base: seq<PageBytes>, st: State)
    requires Shaped(m) && CellsOk(m.cells, base) && Fits(m.cells, st)
    ensures LeavesOpen(m, LoadedCells(m.cells, st)) <==> LoadOpens(m, st, |m.cells|)
  {
    hide LoadedCells, LoadRecord, NativeProt, SilentlyArmed, ArmsInPlace, CellsOk, Picks, BroughtBytes;
    LoadRecordsAre(m, base, st);
    var cells := LoadedCells(m.cells, st);
    assert |cells| == |m.cells|;
    forall i | 0 <= i < |m.cells|
      ensures GroupMoved(m.cells, cells, m.group, i) <==> LoadMoves(m, st, |m.cells|, i)
    {
      assert forall q | 0 <= q < |m.cells| ::
          Moved(m.cells, cells, q) <==> NativeProt(m.cells[q].p) != NativeProt(LoadRecord(m.cells[q].p, st.status[q], st.dirty[q]));
    }
  }

  /** Forgetting the epoch changes neither what a load brings nor what it opens. */
  lemma ClearOpens(m: Machine, st: State)
    requires Shaped(m) && |st.status| == |st.dirty| == |m.cells|
    ensures LoadOpens(EpochClear(m), st, |m.cells|) <==> LoadOpens(m, st, |m.cells|)
  {
    var r := EpochClear(m);
    forall q | 0 <= q < |m.cells|
      ensures NativeProt(r.cells[q].p) == NativeProt(m.cells[q].p)
      ensures NativeProt(LoadRecord(r.cells[q].p, st.status[q], st.dirty[q])) == NativeProt(LoadRecord(m.cells[q].p, st.status[q], st.dirty[q]))
      ensures ArmsInPlace(r.cells[q].p, st.status[q], LoadRecord(r.cells[q].p, st.status[q], st.dirty[q]).dirty)
          <==> ArmsInPlace(m.cells[q].p, st.status[q], LoadRecord(m.cells[q].p, st.status[q], st.dirty[q]).dirty)
    {
    }
    assert forall i | 0 <= i < |m.cells| :: LoadMoves(r, st, |m.cells|, i) <==> LoadMoves(m, st, |m.cells|, i);
  }

  /** A load keeps the watch exactly when the state opens no host page, and
      always does where a host page is one machine page. */
  lemma LoadWatched(m: Machine, base: seq<PageBytes>, st: State)
    requires Inv(m, base) && Fits(m.cells, st)
    ensures Watched(LoadState(m, st)) <==> !LoadOpens(m, st, |m.cells|)
    ensures Tight(LoadState(m, st)) && (Enrolled(m) ==> Enrolled(LoadState(m, st)))
    ensures m.group == 1 ==> Watched(LoadState(m, st))
  {
    hide LoadedCells, LoadOpens, LeavesOpen, Watched, Tight, Enrolled, Swept, CellOk, PlanOk, Fits, StateView;
    ClearKeeps(m, base);
    ClearFits(m, base, st);
    var clear, cells := EpochClear(m), LoadedCells(EpochClear(m).cells, st);
    LoadRecordsAre(clear, base, st);
    SweptWatched(clear, cells);
    SweptTight(clear, cells);
    LoadOpensIs(clear, base, st);
    ClearOpens(m, st);
    ClearWatched(m);
    if Enrolled(m) { SweptEnrolled(clear, cells); }
  }

  lemma SavedFits(x: Machine, m: Machine, base: seq<PageBytes>)
    requires Sound(x, base) && |base| == |m.cells| && SameVisibility(x.cells, m.cells)
    ensures Fits(m.cells, SaveState(x))
    ensures StateView(m.cells, SaveState(x), base) == ViewOfMachine(x)
    ensures ViewsOk(ViewOfMachine(x), base)
  {
    var st := SaveState(x);
    var bits := CarriedBits(x.cells);
    assert BroughtBits(m.cells, st.dirty) == bits;
    PicksSorted(bits, |x.cells|);
    forall i | 0 <= i < |x.cells|
      ensures StateView(m.cells, st, base)[i] == ViewOfMachine(x)[i] && ViewOk(ViewOfMachine(x)[i], base[i])
    {
      SavedAt(x, m, base, i);
    }
  }

  lemma SavedAt(x: Machine, m: Machine, base: seq<PageBytes>, i: nat)
    requires Sound(x, base) && |base| == |m.cells| && SameVisibility(x.cells, m.cells) && Fits(m.cells, SaveState(x)) && i < |x.cells|
    ensures StateView(m.cells, SaveState(x), base)[i] == ViewOfMachine(x)[i] && ViewOk(ViewOfMachine(x)[i], base[i])
  {
    hide Picks, Coherent;
    var st, bits := SaveState(x), CarriedBits(x.cells);
    assert BroughtBits(m.cells, st.dirty) == bits;
    PicksSorted(bits, |x.cells|);
    assert CellOk(x.cells[i], base[i]);
    if bits[i] {
      assert Picks(bits, |x.cells|)[|Picks(bits, i)|] == i;
    }
  }

  /** The state round trip: a state saved from one machine and loaded into any
      other of the same seal shows exactly what the first one showed. */
  lemma StateRoundTrip(x: Machine, m: Machine, base: seq<PageBytes>)
    requires Sound(x, base) && Sound(m, base) && m.plan.Idle? && SameVisibility(x.cells, m.cells)
    ensures Fits(m.cells, SaveState(x))
    ensures Sound(LoadState(m, SaveState(x)), base)
    ensures ViewOfMachine(LoadState(m, SaveState(x))) == ViewOfMachine(x)
    ensures SameVisibility(LoadState(m, SaveState(x)).cells, x.cells)
  {
    SavedFits(x, m, base);
    LoadSound(m, base, SaveState(x));
    var r := LoadState(m, SaveState(x));
    forall i | 0 <= i < |x.cells| ensures r.cells[i].p.invisible == x.cells[i].p.invisible {
      assert ViewOfMachine(r)[i] == ViewOfMachine(x)[i];
    }
  }

  // ---- applying a delta ----

  function FirstPass(c: Cell, s: Option<Status>): Cell {
    var r := if s.Some? then NoteStatus(c, s.value) else c;
    if NativeProt(r.p) != NativeProt(c.p) then Refreshed(r) else r
  }

  function SecondPass(c: Cell, ch: Option<Change>): Cell {
    var r := if ch.Some? then PatchedCell(c, ch.value.clean, ch.value.bytes) else c;
    if NativeProt(r.p) != NativeProt(c.p) then Refreshed(r) else r
  }

  /** Anchored, but for a free page's bytes, which the second pass brings. */
  predicate HalfOk(c: Cell, base: PageBytes) {
    && Coherent(c)
    && SnapIs(c.p.snap, base)
    && (c.p.dirty || c.p.invisible ==> c.p.snap != NoSnap)
    && (!c.p.invisible && !c.p.dirty ==> c.mem == base)
  }

  lemma FirstPassOk(c: Cell, base: PageBytes, s: Option<Status>)
    requires CellOk(c, base)
    ensures HalfOk(FirstPass(c, s), base) && SamePlan(c, FirstPass(c, s))
    ensures ViewOf(FirstPass(c, s)) == ApplyToView(ViewOf(c), s, None)
  {
  }

  lemma PatchedOk(c: Cell, base: PageBytes, ch: Change)
    requires HalfOk(c, base) && ViewOk(ApplyToView(ViewOf(c), None, Some(ch)), base)
    ensures CellOk(PatchedCell(c, ch.clean, ch.bytes), base) && SamePlan(c, PatchedCell(c, ch.clean, ch.bytes))
  {
  }

  lemma RefreshedOk(c: Cell, base: PageBytes)
    requires CellOk(c, base)
    ensures CellOk(Forgotten(Refreshed(c)), base) && SamePlan(c, Forgotten(Refreshed(c)))
  {
  }

  lemma SecondPassOk(c: Cell, base: PageBytes, ch: Option<Change>)
    requires HalfOk(c, base) && ViewOk(ApplyToView(ViewOf(c), None, ch), base)
    ensures CellOk(Forgotten(SecondPass(c, ch)), base) && SamePlan(c, Forgotten(SecondPass(c, ch)))
  {
    var r := if ch.Some? then PatchedCell(c, ch.value.clean, ch.value.bytes) else c;
    assert CellOk(r, base) && SamePlan(c, r) by {
      if ch.Some? { PatchedOk(c, base, ch.value); }
    }
    RefreshedOk(r, base);
  }

  lemma AppliedOk(c: Cell, base: PageBytes, s: Option<Status>, ch: Option<Change>)
    requires CellOk(c, base) && ViewOk(ApplyToView(ViewOf(c), s, ch), base)
    ensures CellOk(Forgotten(SecondPass(FirstPass(c, s), ch)), base)
    ensures SamePlan(c, Forgotten(SecondPass(FirstPass(c, s), ch)))
  {
    FirstPassOk(c, base, s);
    SecondPassOk(FirstPass(c, s), base, ch);
  }

  lemma ApplyCells(m: Machine, d: Delta, i: nat)
    requires Shaped(m) && i < |m.cells|
    ensures ApplyDelta(m, d).cells[i] ==
              Forgotten(SecondPass(FirstPass(m.cells[i], Find(d.status, i)), Find(d.data, i)))
  {
    var m1 := Swept(m, Restatused(m.cells, d));
    var m2 := Swept(m1, Patched(m1.cells, d));
    assert ApplyDelta(m, d) == EpochClear(m2);
  }

  /** A delta that describes a machine of the same seal keeps every page sound. */
  lemma ApplySound(m: Machine, base: seq<PageBytes>, d: Delta)
    requires Sound(m, base) && m.plan.Idle? && ViewsOk(ApplyView(ViewOfMachine(m), d), base)
    ensures Sound(ApplyDelta(m, d), base)
  {
    var r := ApplyDelta(m, d);
    forall i | 0 <= i < |m.cells| ensures CellOk(r.cells[i], base[i]) && SamePlan(m.cells[i], r.cells[i]) {
      ApplyCells(m, d, i);
      assert ViewOk(ApplyView(ViewOfMachine(m), d)[i], base[i]);
      AppliedOk(m.cells[i], base[i], Find(d.status, i), Find(d.data, i));
    }
  }

  /** A host page the OS lets be written, untouched by both passes of an apply,
      holding a page the two of them silently arm. */
  ghost predicate BothLeaveOpen(m: Machine, c1: seq<Cell>, m1: Machine, c2: seq<Cell>)
    requires Shaped(m) && |c1| == |c2| == |m.cells| && m1 == Swept(m, c1)
  {
    exists i, j | 0 <= i < |c1| && 0 <= j < |c1| && Writable(m.os[i]) && SilentlyArmed(m.cells[j], c2[j]) ::
      SameGroup(m.group, i, j) && !GroupMoved(m.cells, c1, m.group, i)
      && !GroupMoved(m1.cells, c2, m.group, i)
  }

  /** The second pass moves no statuses. */
  ghost predicate KeepsStatus(a: seq<Cell>, b: seq<Cell>) {
    |a| == |b| && forall j | 0 <= j < |a| :: a[j].p.status == b[j].p.status
  }

  lemma BothShut(m: Machine, c1: seq<Cell>, m1: Machine, c2: seq<Cell>, i: nat, j: nat)
    requires Shaped(m) && Watched(m) && |c1| == |m.cells| && m1 == Swept(m, c1) && i < |m.cells| && j < |m.cells| && SameGroup(m.group, i, j)
    requires KeepsStatus(m1.cells, c2) && !BothLeaveOpen(m, c1, m1, c2)
    requires Writable(Swept(m1, c2).os[i])
    ensures !Armed(c2[j].p)
  {
    if GroupMoved(m1.cells, c2, m.group, i) {
      GroupProtSafe(c2, m.group, i, j);
    } else {
      assert NativeProt(m1.cells[j].p) == NativeProt(c2[j].p);
      if GroupMoved(m.cells, c1, m.group, i) {
        GroupProtSafe(c1, m.group, i, j);
      } else {
        assert NativeProt(m.cells[j].p) == NativeProt(c1[j].p);
        ArmedHow(m.cells[j], c2[j]);
      }
    }
  }

  lemma BothOpen(m: Machine, c1: seq<Cell>, m1: Machine, c2: seq<Cell>, i: nat, j: nat)
    requires Shaped(m) && |c1| == |c2| == |m.cells| && m1 == Swept(m, c1) && i < |m.cells| && j < |m.cells|
    requires Writable(m.os[i]) && SilentlyArmed(m.cells[j], c2[j]) && !GroupMoved(m.cells, c1, m.group, i)
    requires !GroupMoved(m1.cells, c2, m.group, i)
    ensures Writable(Swept(m1, c2).os[i]) && Armed(Swept(m1, c2).cells[j].p)
  {
    assert m1.os[i] == m.os[i];
    assert NativeProt(Swept(m1, c2).cells[j].p) == NativeProt(c2[j].p);
  }

  lemma BothOpenUnwatched(m: Machine, c1: seq<Cell>, m1: Machine, c2: seq<Cell>)
    requires Shaped(m) && |c1| == |c2| == |m.cells| && m1 == Swept(m, c1) && BothLeaveOpen(m, c1, m1, c2)
    ensures !Watched(Swept(m1, c2))
  {
    var i, j :| 0 <= i < |c1| && 0 <= j < |c1| && Writable(m.os[i]) && SilentlyArmed(m.cells[j], c2[j])
      && SameGroup(m.group, i, j) && !GroupMoved(m.cells, c1, m.group, i) && !GroupMoved(m1.cells, c2, m.group, i);
    BothOpen(m, c1, m1, c2, i, j);
  }

  lemma SweptArmed(m: Machine, cells: seq<Cell>)
    requires Shaped(m) && |cells| == |m.cells|
    ensures forall j | 0 <= j < |cells| :: Armed(Swept(m, cells).cells[j].p) == Armed(cells[j].p)
  {
  }

  lemma BothShutWatched(m: Machine, c1: seq<Cell>, m1: Machine, c2: seq<Cell>)
    requires Shaped(m) && Watched(m) && |c1| == |m.cells| && m1 == Swept(m, c1) && KeepsStatus(m1.cells, c2)
    requires !BothLeaveOpen(m, c1, m1, c2)
    ensures Watched(Swept(m1, c2))
  {
    hide BothLeaveOpen, GroupMoved, GroupProt, NativeProt;
    var r := Swept(m1, c2);
    SweptArmed(m1, c2);
    forall i, j | 0 <= i < |c1| && 0 <= j < |c1| && Writable(r.os[i]) && Armed(r.cells[j].p)
      ensures !SameGroup(m.group, i, j)
    {
      if SameGroup(m.group, i, j) {
        BothShut(m, c1, m1, c2, i, j);
      }
    }
  }

  lemma BothSweepsWatched(m: Machine, c1: seq<Cell>, m1: Machine, c2: seq<Cell>)
    requires Shaped(m) && Watched(m) && |c1| == |m.cells| && m1 == Swept(m, c1) && KeepsStatus(m1.cells, c2)
    ensures Watched(Swept(m1, c2)) <==> !BothLeaveOpen(m, c1, m1, c2)
  {
    if BothLeaveOpen(m, c1, m1, c2) {
      BothOpenUnwatched(m, c1, m1, c2);
    } else {
      BothShutWatched(m, c1, m1, c2);
    }
  }

  lemma ClearWatched(m: Machine)
    requires Shaped(m)
    ensures Watched(EpochClear(m)) <==> Watched(m)
    ensures Tight(EpochClear(m)) <==> Tight(m)
    ensures Enrolled(EpochClear(m)) <==> Enrolled(m)
  {
    hide NativeProt;
    var r := EpochClear(m);
    forall i | 0 <= i < |m.cells| ensures NativeProt(r.cells[i].p) == NativeProt(m.cells[i].p) {
      ProtFields(r.cells[i].p, m.cells[i].p);
    }
    assert forall i | 0 <= i < |m.cells| ::
        Armed(r.cells[i].p) == Armed(m.cells[i].p) && r.cells[i].p.status == m.cells[i].p.status
        && Enlisted(r.cells[i]) == Enlisted(m.cells[i]);
  }

  lemma PatchKeepsStatus(cells: seq<Cell>, d: Delta)
    ensures KeepsStatus(cells, Patched(cells, d))
  {
    hide PatchedCell;
    forall j | 0 <= j < |cells| ensures Patched(cells, d)[j].p.status == cells[j].p.status {
      if Find(d.data, j).Some? { PatchFields(cells[j], cells[j].p, Find(d.data, j).value); }
    }
  }

  lemma PatchFields(c: Cell, p: Page, ch: Change)
    requires SameFields(c.p, p) && c.p.invisible == p.invisible
    ensures var e := PatchedCell(c, ch.clean, ch.bytes);
            SameFields(e.p, Redone(p, Some(ch))) && e.p.status == c.p.status && Recast(c.p, e.p)
  {
    hide Snapshot, SetDirty;
    var filled := Snapshot(c).(mem := ch.bytes);
    SnapshotFields(c);
    DirtFields(filled, false);
    DirtFields(filled, true);
  }

  lemma SnapshotFields(c: Cell)
    ensures Snapshot(c).p == c.p.(snap := Snapshot(c).p.snap)
  {
  }

  lemma DirtFields(c: Cell, d: bool)
    ensures var r := SetDirty(c, d).p;
            r.status == c.p.status && r.planHold == c.p.planHold && r.held == c.p.held && r.invisible == c.p.invisible
            && r.dirty == d && r.hot == (c.p.hot && d)
  {
  }

  /** What the two passes of an apply will make of a page's record. */
  function Restamped(p: Page, s: Option<Status>): Page {
    match s case None => p case Some(t) => p.(status := t, hot := p.hot && t == p.status)
  }

  function Redone(p: Page, ch: Option<Change>): Page {
    match ch
    case None => p
    case Some(c) => if c.clean && !p.invisible then p.(dirty := false, hot := false) else p.(dirty := true)
  }

  /** Either pass changes the protection of a page of page i's host page. */
  ghost predicate ApplyMoves(m: Machine, d: Delta, i: nat)
    requires Shaped(m)
  {
    exists q | 0 <= q < |m.cells| :: SameGroup(m.group, i, q) && Restamps(m.cells[q].p, Find(d.status, q), Find(d.data, q))
  }

  predicate Restamps(p: Page, s: Option<Status>, ch: Option<Change>) {
    NativeProt(p) != NativeProt(Restamped(p, s)) || NativeProt(Restamped(p, s)) != NativeProt(Redone(Restamped(p, s), ch))
  }

  predicate ApplyArms(p: Page, s: Option<Status>, ch: Option<Change>) {
    s.Some? && ArmsInPlace(p, s.value, Redone(p, ch).dirty)
  }

  /** A delta leaves a hole in the watch: a host page the OS lets be written, no
      page of which changes its protection, with a read-only page in it that the
      delta makes writable and that must fault. */
  ghost predicate ApplyOpens(m: Machine, d: Delta)
    requires Shaped(m)
  {
    exists i, j | 0 <= i < |m.cells| && 0 <= j < |m.cells| && Writable(m.os[i])
                  && ApplyArms(m.cells[j].p, Find(d.status, j), Find(d.data, j)) ::
      SameGroup(m.group, i, j) && !ApplyMoves(m, d, i)
  }

  lemma RestampedIs(c: Cell, s: Option<Status>)
    requires Coherent(c)
    ensures var r := if s.Some? then NoteStatus(c, s.value) else c;
            NativeProt(r.p) == NativeProt(Restamped(c.p, s)) && StaysListed(c, r) && Coherent(r)
  {
  }

  lemma RedoneIs(c: Cell, s: Option<Status>, ch: Option<Change>)
    requires Coherent(c)
    ensures var r := if s.Some? then NoteStatus(c, s.value) else c;
            var e := if ch.Some? then PatchedCell(r, ch.value.clean, ch.value.bytes) else r;
            NativeProt(e.p) == NativeProt(Redone(Restamped(c.p, s), ch))
            && Recast(c.p, e.p) && e.p.status == Restamped(c.p, s).status && e.p.dirty == Redone(c.p, ch).dirty
  {
    hide NativeProt, PatchedCell, NoteStatus;
    var r := if s.Some? then NoteStatus(c, s.value) else c;
    var e := if ch.Some? then PatchedCell(r, ch.value.clean, ch.value.bytes) else r;
    if s.Some? { StatusFields(c, s.value); }
    if ch.Some? { PatchFields(r, Restamped(c.p, s), ch.value); }
    ProtFields(e.p, Redone(Restamped(c.p, s), ch));
  }

  lemma StatusFields(c: Cell, s: Status)
    ensures var r := NoteStatus(c, s);
            SameFields(r.p, Restamped(c.p, Some(s))) && r.p.invisible == c.p.invisible && Recast(c.p, r.p)
  {
  }

  lemma PatchedStays(c: Cell, ch: Change)
    ensures StaysListed(c, PatchedCell(c, ch.clean, ch.bytes))
  {
  }

  lemma ApplyArmsIs(c: Cell, s: Option<Status>, ch: Option<Change>)
    requires Coherent(c)
    ensures var r := if s.Some? then NoteStatus(c, s.value) else c;
            SilentlyArmed(c, if ch.Some? then PatchedCell(r, ch.value.clean, ch.value.bytes) else r) <==> ApplyArms(c.p, s, ch)
  {
    hide NativeProt, ArmsInPlace, PatchedCell, NoteStatus, Restamps;
    RedoneIs(c, s, ch);
    var r := if s.Some? then NoteStatus(c, s.value) else c;
    var e := if ch.Some? then PatchedCell(r, ch.value.clean, ch.value.bytes) else r;
    ArmsPage(c.p, e.p);
  }

  /** Page by page: whether a pass moves its protection, and whether the two
      together arm it in silence. */
  lemma ApplyRecordsAre(m: Machine, base: seq<PageBytes>, d: Delta, q: nat)
    requires Shaped(m) && CellsOk(m.cells, base) && q < |m.cells|
    ensures var c1 := Restatused(m.cells, d);
            var m1 := Swept(m, c1);
            var c2 := Patched(m1.cells, d);
            && (Moved(m.cells, c1, q) || Moved(m1.cells, c2, q)) == Restamps(m.cells[q].p, Find(d.status, q), Find(d.data, q))
            && (!Moved(m.cells, c1, q) && !Moved(m1.cells, c2, q) ==>
                  (SilentlyArmed(m.cells[q], c2[q]) <==> ApplyArms(m.cells[q].p, Find(d.status, q), Find(d.data, q))))
            && StaysListed(m.cells[q], c1[q]) && StaysListed(m1.cells[q], c2[q])
  {
    hide NativeProt, PatchedCell, NoteStatus, SilentlyArmed, ApplyArms, Restamped, Redone, StaysListed, Coherent, Refreshed;
    assert CellOk(m.cells[q], base[q]);
    var c, s, ch := m.cells[q], Find(d.status, q), Find(d.data, q);
    var m1 := Swept(m, Restatused(m.cells, d));
    RestampedIs(c, s);
    RedoneIs(c, s, ch);
    if ch.Some? { PatchedStays(m1.cells[q], ch.value); } else { assert StaysListed(m1.cells[q], m1.cells[q]) by { StaysSame(m1.cells[q]); } }
    ApplyArmsIs(c, s, ch);
  }

  lemma StaysSame(c: Cell)
    ensures StaysListed(c, c)
  {
  }

  lemma ApplyMovesIs(m: Machine, base: seq<PageBytes>, d: Delta, i: nat)
    requires Shaped(m) && CellsOk(m.cells, base)
    ensures var c1 := Restatused(m.cells, d);
            var m1 := Swept(m, c1);
            ApplyMoves(m, d, i) <==> GroupMoved(m.cells, c1, m.group, i) || GroupMoved(m1.cells, Patched(m1.cells, d), m.group, i)
  {
    hide CellsOk, Restatused, Patched, Swept, Restamps, Moved, SilentlyArmed, ApplyArms, StaysListed;
    var c1 := Restatused(m.cells, d);
    var m1 := Swept(m, c1);
    SweptSize(m, d);
    forall q | 0 <= q < |m.cells|
      ensures (Moved(m.cells, c1, q) || Moved(m1.cells, Patched(m1.cells, d), q)) == Restamps(m.cells[q].p, Find(d.status, q), Find(d.data, q))
    {
      ApplyRecordsAre(m, base, d, q);
    }
  }

  lemma SweptSize(m: Machine, d: Delta)
    requires Shaped(m)
    ensures var c1 := Restatused(m.cells, d);
            |c1| == |m.cells| == |Swept(m, c1).cells| == |Patched(Swept(m, c1).cells, d)|
    ensures Shaped(Swept(m, Restatused(m.cells, d))) && Swept(m, Restatused(m.cells, d)).group == m.group
  {
  }

  lemma ApplyOpensIs(m: Machine, base: seq<PageBytes>, d: Delta)
    requires Shaped(m) && CellsOk(m.cells, base)
    ensures var c1 := Restatused(m.cells, d);
            var m1 := Swept(m, c1);
            BothLeaveOpen(m, c1, m1, Patched(m1.cells, d)) <==> ApplyOpens(m, d)
  {
    hide CellsOk, Restatused, Patched, Swept, Restamps, Moved, SilentlyArmed, ApplyArms, ApplyMoves, GroupMoved, StaysListed;
    var c1 := Restatused(m.cells, d);
    var m1 := Swept(m, c1);
    var c2 := Patched(m1.cells, d);
    SweptSize(m, d);
    forall i | 0 <= i < |m.cells|
      ensures ApplyMoves(m, d, i) <==> GroupMoved(m.cells, c1, m.group, i) || GroupMoved(m1.cells, c2, m.group, i)
    {
      ApplyMovesIs(m, base, d, i);
    }
    forall i, j | 0 <= i < |m.cells| && 0 <= j < |m.cells| && SameGroup(m.group, i, j) && !ApplyMoves(m, d, i)
      ensures SilentlyArmed(m.cells[j], c2[j]) <==> ApplyArms(m.cells[j].p, Find(d.status, j), Find(d.data, j))
    {
      ApplyRecordsAre(m, base, d, j);
      StillHere(m, d, i, j);
    }
  }

  lemma StillHere(m: Machine, d: Delta, i: nat, j: nat)
    requires Shaped(m) && i < |m.cells| && j < |m.cells| && SameGroup(m.group, i, j)
    ensures var c1 := Restatused(m.cells, d);
            var m1 := Swept(m, c1);
            (!GroupMoved(m.cells, c1, m.group, i) && !GroupMoved(m1.cells, Patched(m1.cells, d), m.group, i)) ==>
              !Moved(m.cells, c1, j) && !Moved(m1.cells, Patched(m1.cells, d), j)
  {
  }

  /** Applying a delta keeps the watch exactly when it opens no host page, and
      always does where a host page is one machine page. */
  lemma ApplyWatched(m: Machine, base: seq<PageBytes>, d: Delta)
    requires Inv(m, base)
    ensures Watched(ApplyDelta(m, d)) <==> !ApplyOpens(m, d)
    ensures m.group == 1 ==> Watched(ApplyDelta(m, d))
    ensures Tight(ApplyDelta(m, d)) && (Enrolled(m) ==> Enrolled(ApplyDelta(m, d)))
  {
    hide Restatused, Patched, Swept, CellsOk, Watched, Tight, Enrolled, BothLeaveOpen, ApplyOpens, PlanOk, KeepsStatus;
    var c1 := Restatused(m.cells, d);
    var m1 := Swept(m, c1);
    var c2 := Patched(m1.cells, d);
    SweptSize(m, d);
    PatchKeepsStatus(m1.cells, d);
    BothSweepsWatched(m, c1, m1, c2);
    ApplyOpensIs(m, base, d);
    SweptSize1(m1, c2);
    ClearWatched(Swept(m1, c2));
    if m.group == 1 { BothSweepsTight(m, c1, c2); } else { GroupedTight(ApplyDelta(m, d)); }
    if Enrolled(m) && m.group == 1 { BothSweepsEnrolled(m, base, d); }
    if m.group != 1 { GroupedTight(ApplyDelta(m, d)); }
  }

  lemma GroupedTight(m: Machine)
    requires Shaped(m) && m.group != 1
    ensures Tight(m) && Enrolled(m)
  {
  }

  lemma SweptSize1(m: Machine, cells: seq<Cell>)
    requires Shaped(m) && |cells| == |m.cells|
    ensures Shaped(Swept(m, cells)) && Swept(m, cells).group == m.group && |Swept(m, cells).cells| == |m.cells|
  {
  }

  lemma BothSweepsEnrolled(m: Machine, base: seq<PageBytes>, d: Delta)
    requires Inv(m, base) && Enrolled(m) && m.group == 1
    ensures var m1 := Swept(m, Restatused(m.cells, d));
            Enrolled(Swept(m1, Patched(m1.cells, d)))
  {
    hide Restatused, Patched, Swept, Moved, Restamps, SilentlyArmed, ApplyArms, StaysListed, CellsOk, Watched, Tight, Enrolled, PlanOk;
    var c1 := Restatused(m.cells, d);
    var m1 := Swept(m, c1);
    var c2 := Patched(m1.cells, d);
    SweptSize(m, d);
    forall q | 0 <= q < |m.cells| ensures StaysListed(m.cells[q], c1[q]) && StaysListed(m1.cells[q], c2[q]) {
      ApplyRecordsAre(m, base, d, q);
    }
    SweptTight(m, c1);
    SweptEnrolled(m, c1);
    SweptEnrolled(m1, c2);
  }

  lemma BothSweepsTight(m: Machine, c1: seq<Cell>, c2: seq<Cell>)
    requires Shaped(m) && Watched(m) && Tight(m) && m.group == 1 && |c1| == |c2| == |m.cells|
    ensures Watched(Swept(Swept(m, c1), c2)) && Tight(Swept(Swept(m, c1), c2))
  {
    SweptWatched(m, c1);
    SweptTight(m, c1);
    SweptWatched(Swept(m, c1), c2);
    SweptTight(Swept(m, c1), c2);
  }
}
