/** Loading a state from a stream and applying a delta, entry by entry: what the
    loops keep, and what a stream that ends early leaves. */
module Loads {
  import opened Pages
  import opened Machine
  import opened Deltas
  import opened Invariant
  import opened Restore
  import opened Sweeps
  import opened Workings

  // ---- how far a stream reaches ----

  predicate NeedsMore(cells: seq<Cell>, st: State, i: nat)
    requires |st.dirty| == |cells| && i < |cells|
  {
    var bits := BroughtBits(cells, st.dirty);
    bits[i] && |st.data| <= |Picks(bits, i)|
  }

  /** The first page from i on that the stream has no bytes for. */
  function FailsFrom(cells: seq<Cell>, st: State, i: nat): (f: nat)
    requires |st.dirty| == |cells| && i <= |cells|
    ensures i <= f <= |cells| && (f < |cells| ==> NeedsMore(cells, st, f))
    ensures forall k | i <= k < f :: !NeedsMore(cells, st, k)
    decreases |cells| - i
  {
    if i == |cells| || NeedsMore(cells, st, i) then i else FailsFrom(cells, st, i + 1)
  }

  function StreamBytes(cells: seq<Cell>, st: State, i: nat): PageBytes
    requires |st.dirty| == |cells| && i < |cells|
  {
    var bits := BroughtBits(cells, st.dirty);
    if bits[i] && |Picks(bits, i)| < |st.data| then st.data[|Picks(bits, i)|] else Zeros()
  }

  /** The page the stream ended in: it holds what arrived, and is dirty. */
  function FailedCell(c: Cell, partial: PageBytes): Cell {
    if c.p.dirty then c.(mem := partial) else SetDirty(Snapshot(c).(mem := partial), true)
  }

  function LoadGoal(cells: seq<Cell>, st: State, f: nat, partial: PageBytes): (r: seq<Cell>)
    requires |st.status| == |st.dirty| == |cells|
    ensures |r| == |cells|
    ensures forall i | 0 <= i < |cells| ::
              r[i] == if i < f then LoadedCell(cells[i], st.status[i], st.dirty[i], StreamBytes(cells, st, i))
                      else if i == f then FailedCell(cells[i], partial) else cells[i]
  {
    seq(|cells|, i requires 0 <= i < |cells| =>
          if i < f then LoadedCell(cells[i], st.status[i], st.dirty[i], StreamBytes(cells, st, i))
          else if i == f then FailedCell(cells[i], partial) else cells[i])
  }

  function MovedBelow(before: seq<Cell>, after: seq<Cell>, f: nat): (r: seq<bool>)
    requires |before| == |after|
    ensures |r| == |before|
    ensures forall i | 0 <= i < |before| :: r[i] == (i < f && Moved(before, after, i))
  {
    seq(|before|, i requires 0 <= i < |before| => i < f && Moved(before, after, i))
  }

  /** The machine a load leaves, whole or cut off. */
  ghost function Loaded(m: Machine, st: State, partial: PageBytes): Machine
    requires Shaped(m) && |st.status| == |st.dirty| == |m.cells|
  {
    var f := FailsFrom(m.cells, st, 0);
    var goal := LoadGoal(m.cells, st, f, partial);
    var noted := MovedBelow(m.cells, goal, f);
    m.(cells := Settled(goal, noted), os := SettledOs(goal, noted, m.group, m.os))
  }

  /** The plan finished and the epoch forgotten, as a load finds the machine. */
  ghost function Readied(m: Machine): Machine
    requires Shaped(m) && PlanShaped(m)
  {
    if m.plan.Idle? then EpochClear(m)
    else EpochClear(FinishPlan(TakeIn(m, Listed(m.plan.list, 0, |m.plan.list|))))
  }

  lemma ReadiedLength(m: Machine)
    requires Shaped(m) && PlanShaped(m)
    ensures Shaped(Readied(m)) && |Readied(m).cells| == |m.cells| && Readied(m).group == m.group
  {
  }

  lemma ReadiedIdle(m: Machine)
    requires Shaped(m) && PlanShaped(m)
    ensures Readied(m).plan.Idle?
  {
  }

  // ---- a whole stream ----

  /** What a stream holds for this machine; what follows is the next reader's. */
  function Trimmed(cells: seq<Cell>, st: State): (r: State)
    requires |st.dirty| == |cells|
  {
    var n := |Picks(BroughtBits(cells, st.dirty), |cells|)|;
    st.(data := if n <= |st.data| then st.data[..n] else st.data)
  }

  lemma WholeFits(cells: seq<Cell>, st: State)
    requires |st.status| == |st.dirty| == |cells|
    ensures FailsFrom(cells, st, 0) == |cells| <==> Fits(cells, Trimmed(cells, st))
    ensures Fits(cells, Trimmed(cells, st)) ==>
              forall i | 0 <= i < |cells| && st.dirty[i] && !cells[i].p.invisible ::
                StreamBytes(cells, st, i) == BroughtBytes(cells, Trimmed(cells, st), i)
  {
    var bits, t, f := BroughtBits(cells, st.dirty), Trimmed(cells, st), FailsFrom(cells, st, 0);
    PicksSorted(bits, |cells|);
    assert BroughtBits(cells, t.dirty) == bits;
    if f < |cells| {
      assert bits[f];
    } else if !Fits(cells, t) {
      var last := Picks(bits, |cells|)[|Picks(bits, |cells|)| - 1];
      PicksLast(bits, |cells|);
      assert NeedsMore(cells, st, last);
    }
  }

  /** Only the earlier set bits come before the last one. */
  lemma {:induction false} PicksLast(bits: seq<bool>, k: nat)
    requires k <= |bits| && Picks(bits, k) != []
    ensures var last := Picks(bits, k)[|Picks(bits, k)| - 1];
            bits[last] && |Picks(bits, last)| == |Picks(bits, k)| - 1
  {
    if !bits[k - 1] { PicksLast(bits, k - 1); }
  }

  /** A stream that reaches to the end loads the state it holds. */
  lemma LoadedWhole(m: Machine, st: State, partial: PageBytes)
    requires Shaped(m) && |st.status| == |st.dirty| == |m.cells| && FailsFrom(m.cells, st, 0) == |m.cells|
    ensures Fits(m.cells, Trimmed(m.cells, st))
    ensures Loaded(m, st, partial) == Swept(m, LoadedCells(m.cells, Trimmed(m.cells, st)))
  {
    hide GroupProt, SameGroup, Refreshed, LoadedCell, FailsFrom, StreamBytes, BroughtBytes, Moved, Picks;
    WholeFits(m.cells, st);
    var n, t := |m.cells|, Trimmed(m.cells, st);
    var goal, cells := LoadGoal(m.cells, st, n, partial), LoadedCells(m.cells, t);
    forall i | 0 <= i < n ensures goal[i] == cells[i] {
      LoadedUnbrought(m.cells[i], st.status[i], st.dirty[i], StreamBytes(m.cells, st, i), BroughtBytes(m.cells, t, i));
    }
    assert goal == cells;
    SettledSwept(m, goal);
  }

  /** Noting every page whose protection moved is a sweep. */
  lemma SettledSwept(m: Machine, goal: seq<Cell>)
    requires Shaped(m) && |goal| == |m.cells|
    ensures var noted := MovedBelow(m.cells, goal, |goal|);
            Swept(m, goal) == m.(cells := Settled(goal, noted), os := SettledOs(goal, noted, m.group, m.os))
  {
    hide GroupProt, SameGroup, Refreshed, Moved;
    var noted, r := MovedBelow(m.cells, goal, |goal|), Swept(m, goal);
    forall k | 0 <= k < |goal| ensures GroupNoted(noted, m.group, k) == GroupMoved(m.cells, goal, m.group, k) {
      SameNoted(m.cells, goal, noted, m.group, k);
    }
    assert r.cells == Settled(goal, noted);
    assert r.os == SettledOs(goal, noted, m.group, m.os);
  }

  lemma SameNoted(before: seq<Cell>, after: seq<Cell>, noted: seq<bool>, g: nat, k: nat)
    requires |before| == |after| == |noted| && g > 0
    requires forall i | 0 <= i < |before| :: noted[i] == Moved(before, after, i)
    ensures GroupNoted(noted, g, k) == GroupMoved(before, after, g, k)
  {
    if GroupMoved(before, after, g, k) {
      var j :| 0 <= j < |before| && SameGroup(g, k, j) && Moved(before, after, j);
      assert noted[j];
    }
  }

  /** Bytes a state does not bring do not matter. */
  lemma LoadedUnbrought(c: Cell, s: Status, d: bool, a: PageBytes, b: PageBytes)
    requires d && !c.p.invisible ==> a == b
    ensures LoadedCell(c, s, d, a) == LoadedCell(c, s, d, b)
  {
  }

  // ---- the load's walk ----

  ghost predicate Settling(cells: seq<Cell>) {
    forall i | 0 <= i < |cells| :: Loadable(cells[i])
  }

  predicate Loadable(c: Cell) {
    (c.p.hot ==> c.p.dirty) && (c.p.dirty ==> c.p.snap != NoSnap)
  }

  /** The load at page i with `at` pages of the stream used. */
  ghost predicate Loading(w: Walk, g: nat, st: State, f: nat, partial: PageBytes, i: nat, at: nat, run: ProtRun,
                          cells: seq<Cell>, os: seq<Prot>) {
    && |st.status| == |st.dirty| == |w.orig| && w.goal == LoadGoal(w.orig, st, f, partial)
    && w.noted == MovedBelow(w.orig, w.goal, f) && w.g == g && Settling(w.orig)
    && i <= |w.orig| && f == FailsFrom(w.orig, st, i) && at == |Picks(BroughtBits(w.orig, st.dirty), i)|
    && At(w, i, run, cells, os)
  }

  lemma LoadStart(w: Walk, g: nat, st: State, partial: PageBytes)
    requires |st.status| == |st.dirty| == |w.orig| == |w.os0| && w.goal == LoadGoal(w.orig, st, FailsFrom(w.orig, st, 0), partial)
    requires w.noted == MovedBelow(w.orig, w.goal, FailsFrom(w.orig, st, 0)) && w.g == g > 0 && Settling(w.orig)
    ensures Loading(w, g, st, FailsFrom(w.orig, st, 0), partial, 0, 0, NO_RUN, w.orig, w.os0)
  {
    Start(w);
  }

  lemma LoadLength(w: Walk, g: nat, st: State, f: nat, partial: PageBytes, i: nat, at: nat, run: ProtRun, cells: seq<Cell>, os: seq<Prot>)
    requires Loading(w, g, st, f, partial, i, at, run, cells, os)
    ensures |cells| == |w.orig| == |w.goal| == |w.noted| == |st.status| == |st.dirty| && i <= f <= |cells|
    ensures i < |cells| ==> cells[i] == w.orig[i] && Loadable(w.orig[i])
  {
  }

  lemma LoadShape(w: Walk, g: nat, st: State, f: nat, partial: PageBytes, i: nat, at: nat, run: ProtRun, cells: seq<Cell>, os: seq<Prot>)
    requires Loading(w, g, st, f, partial, i, at, run, cells, os)
    ensures |w.orig| == |w.goal| == |w.noted| == |w.os0| && w.g == g > 0
  {
  }

  lemma SkippedCell(c: Cell, bytes: PageBytes)
    requires Loadable(c) && !c.p.dirty
    ensures LoadedCell(c, c.p.status, false, bytes) == c
  {
  }

  /** Passing a page clean before and after whose status stays. */
  lemma LoadSkip(w: Walk, g: nat, st: State, f: nat, partial: PageBytes, i: nat, at: nat, run: ProtRun, cells: seq<Cell>, os: seq<Prot>)
    requires Loading(w, g, st, f, partial, i, at, run, cells, os) && i < |w.orig|
    requires !st.dirty[i] && !w.orig[i].p.dirty && st.status[i] == w.orig[i].p.status
    ensures Loading(w, g, st, f, partial, i + 1, at, run, cells, os)
  {
    hide At, LoadedCell;
    assert !NeedsMore(w.orig, st, i);
    SkippedCell(w.orig[i], StreamBytes(w.orig, st, i));
    AdvanceOne(w, i, run, cells, os);
  }

  predicate Unchanged(dirty: seq<bool>, status: seq<Status>, dirtyMap: seq<bool>, statusMap: seq<Status>, a: nat, b: nat)
    requires a <= b <= |dirty| && b <= |status| && b <= |dirtyMap| && b <= |statusMap|
  {
    forall k | a <= k < b :: !dirty[k] && !dirtyMap[k] && status[k] == statusMap[k]
  }

  lemma {:induction false} LoadSkips(w: Walk, g: nat, st: State, f: nat, partial: PageBytes, i: nat, j: nat, at: nat, run: ProtRun,
                                     cells: seq<Cell>, os: seq<Prot>)
    requires Loading(w, g, st, f, partial, i, at, run, cells, os) && i <= j <= |w.orig| == |cells|
    requires forall k | i <= k < j :: !st.dirty[k] && !cells[k].p.dirty && st.status[k] == cells[k].p.status
    ensures Loading(w, g, st, f, partial, j, at, run, cells, os)
    decreases j - i
  {
    hide At, FailsFrom, Picks, LoadGoal, MovedBelow;
    if i < j {
      LoadLength(w, g, st, f, partial, i, at, run, cells, os);
      LoadSkip(w, g, st, f, partial, i, at, run, cells, os);
      LoadSkips(w, g, st, f, partial, i + 1, j, at, run, cells, os);
    }
  }

  /** The bytes page i will be given, and where the stream is after it. */
  lemma LoadReads(w: Walk, g: nat, st: State, f: nat, partial: PageBytes, i: nat, at: nat, run: ProtRun, cells: seq<Cell>, os: seq<Prot>)
    requires Loading(w, g, st, f, partial, i, at, run, cells, os) && i < |w.orig|
    ensures var brought := st.dirty[i] && !w.orig[i].p.invisible;
            && (f == i <==> brought && |st.data| <= at)
            && (f == i ==> w.goal[i] == FailedCell(w.orig[i], partial) && !w.noted[i])
            && (f > i ==> w.goal[i] == LoadedCell(w.orig[i], st.status[i], st.dirty[i], if brought then st.data[at] else Zeros()))
            && (f > i ==> w.noted[i] == Moved(w.orig, w.goal, i))
  {
    hide At, LoadedCell, FailedCell;
    assert NeedsMore(w.orig, st, i) == (st.dirty[i] && !w.orig[i].p.invisible && |st.data| <= at);
  }

  /** One page loaded: noted or not, the walk is one further. */
  lemma LoadedOne(w: Walk, g: nat, st: State, f: nat, partial: PageBytes, i: nat, at: nat, run: ProtRun, cells: seq<Cell>, os: seq<Prot>,
                  run': ProtRun, cells': seq<Cell>, os': seq<Prot>)
    requires Loading(w, g, st, f, partial, i, at, run, cells, os) && i < f && At(w, i + 1, run', cells', os')
    ensures Loading(w, g, st, f, partial, i + 1, if st.dirty[i] && !w.orig[i].p.invisible then at + 1 else at, run', cells', os')
  {
    hide At, LoadedCell;
    assert !NeedsMore(w.orig, st, i);
  }

  /** The stream ended in page f: the walk is over. */
  lemma LoadFailed(w: Walk, g: nat, st: State, f: nat, partial: PageBytes, at: nat, run: ProtRun, cells: seq<Cell>, cells': seq<Cell>, os: seq<Prot>)
    requires Loading(w, g, st, f, partial, f, at, run, cells, os) && f < |w.orig| == |cells| && cells' == cells[f := FailedCell(w.orig[f], partial)]
    ensures w.g == g && At(w, |w.goal|, run, cells', os)
  {
    hide OsAt, LoadedCell, FailedCell, FailsFrom;
    Advance(w, f, |w.goal|, run, cells, cells', os);
  }

  lemma LoadOver(w: Walk, g: nat, st: State, f: nat, partial: PageBytes, at: nat, run: ProtRun, cells: seq<Cell>, os: seq<Prot>)
    requires Loading(w, g, st, f, partial, |w.orig|, at, run, cells, os)
    ensures f == |w.orig| && w.g == g && At(w, |w.goal|, run, cells, os)
  {
  }

  // ---- the watch, whole or cut off ----

  /** What may go untold: the same protection, or no more armed than before. */
  predicate Still(c: Cell, d: Cell) {
    NativeProt(c.p) == NativeProt(d.p) || (c.p.status == d.p.status && (Armed(d.p) ==> Armed(c.p)))
  }

  /** A host page left untold and writable holds a page silently armed. */
  ghost predicate OpenAfter(m: Machine, goal: seq<Cell>, noted: seq<bool>)
    requires Shaped(m) && |goal| == |noted| == |m.cells|
  {
    exists i, j | 0 <= i < |goal| && 0 <= j < |goal| && Writable(m.os[i]) && SilentlyArmed(m.cells[j], goal[j]) ::
      SameGroup(m.group, i, j) && !GroupNoted(noted, m.group, i)
  }

  lemma SettledShut(m: Machine, goal: seq<Cell>, noted: seq<bool>, i: nat, j: nat)
    requires Shaped(m) && Watched(m) && |goal| == |noted| == |m.cells| && i < |goal| && j < |goal|
    requires forall k | 0 <= k < |goal| && !noted[k] :: Still(m.cells[k], goal[k])
    requires !OpenAfter(m, goal, noted) && SameGroup(m.group, i, j) && Writable(SettledOs(goal, noted, m.group, m.os)[i])
    ensures !Armed(goal[j].p)
  {
    if GroupNoted(noted, m.group, i) {
      GroupProtSafe(goal, m.group, i, j);
    } else {
      assert !noted[j];
      assert Still(m.cells[j], goal[j]);
      assert !Armed(m.cells[j].p);
      if NativeProt(m.cells[j].p) == NativeProt(goal[j].p) {
        ArmedHow(m.cells[j], goal[j]);
      }
    }
  }

  lemma SettledOpen(m: Machine, goal: seq<Cell>, noted: seq<bool>, i: nat, j: nat)
    requires Shaped(m) && |goal| == |noted| == |m.cells| && i < |goal| && j < |goal|
    requires Writable(m.os[i]) && SilentlyArmed(m.cells[j], goal[j]) && SameGroup(m.group, i, j) && !GroupNoted(noted, m.group, i)
    ensures Writable(SettledOs(goal, noted, m.group, m.os)[i]) && Armed(Settled(goal, noted)[j].p)
  {
    assert !noted[j];
  }

  lemma SettledArmed(goal: seq<Cell>, noted: seq<bool>, j: nat)
    requires |goal| == |noted| && j < |goal|
    ensures Armed(Settled(goal, noted)[j].p) == Armed(goal[j].p) && Settled(goal, noted)[j].p.status == goal[j].p.status
  {
    SameNative(goal[j]);
  }

  /** Telling only the noted host pages keeps the watch exactly when nothing is
      left open. */
  lemma SettledWatched(m: Machine, goal: seq<Cell>, noted: seq<bool>)
    requires Shaped(m) && Watched(m) && |goal| == |noted| == |m.cells|
    requires forall k | 0 <= k < |goal| && !noted[k] :: Still(m.cells[k], goal[k])
    ensures var r := m.(cells := Settled(goal, noted), os := SettledOs(goal, noted, m.group, m.os));
            Watched(r) <==> !OpenAfter(m, goal, noted)
  {
    hide Still, NativeProt, SilentlyArmed, GroupProt, Refreshed, Armed, GroupNoted;
    var r := m.(cells := Settled(goal, noted), os := SettledOs(goal, noted, m.group, m.os));
    if OpenAfter(m, goal, noted) {
      var i, j :| 0 <= i < |goal| && 0 <= j < |goal| && Writable(m.os[i]) && SilentlyArmed(m.cells[j], goal[j])
        && SameGroup(m.group, i, j) && !GroupNoted(noted, m.group, i);
      SettledOpen(m, goal, noted, i, j);
    } else {
      forall i, j | 0 <= i < |goal| && 0 <= j < |goal| && Writable(r.os[i]) && Armed(r.cells[j].p)
        ensures !SameGroup(m.group, i, j)
      {
        SettledArmed(goal, noted, j);
        if SameGroup(m.group, i, j) { SettledShut(m, goal, noted, i, j); }
      }
    }
  }

  lemma SettledTight(m: Machine, goal: seq<Cell>, noted: seq<bool>)
    requires Shaped(m) && Watched(m) && Tight(m) && |goal| == |noted| == |m.cells|
    requires forall k | 0 <= k < |goal| && !noted[k] :: Still(m.cells[k], goal[k])
    ensures Tight(m.(cells := Settled(goal, noted), os := SettledOs(goal, noted, m.group, m.os)))
    ensures m.group == 1 ==> !OpenAfter(m, goal, noted)
  {
    if m.group == 1 {
      forall i | 0 <= i < |goal| && Writable(SettledOs(goal, noted, 1, m.os)[i]) ensures Tracked(Settled(goal, noted)[i].p.status) {
        SettledArmed(goal, noted, i);
        assert SameGroup(1, i, i);
        if !GroupNoted(noted, 1, i) {
          assert !noted[i] && Still(m.cells[i], goal[i]);
          assert !Armed(m.cells[i].p);
        }
      }
    }
  }

  lemma SettledEnrolled(m: Machine, goal: seq<Cell>, noted: seq<bool>)
    requires Shaped(m) && Tight(m) && Enrolled(m) && |goal| == |noted| == |m.cells|
    requires forall k | 0 <= k < |goal| :: StaysListed(m.cells[k], goal[k])
    ensures Enrolled(m.(cells := Settled(goal, noted), os := SettledOs(goal, noted, m.group, m.os)))
  {
    hide NativeProt, Refreshed, Enlisted;
    if m.group == 1 {
      forall i | 0 <= i < |goal| && Writable(SettledOs(goal, noted, 1, m.os)[i]) ensures Enlisted(Settled(goal, noted)[i]) {
        assert SameGroup(1, i, i);
        assert GroupNoted(noted, 1, i) <==> noted[i];
        RefreshedTold(goal[i]);
      }
    }
  }

  lemma FailedStill(c: Cell, partial: PageBytes)
    ensures Still(c, FailedCell(c, partial)) && StaysListed(c, FailedCell(c, partial)) && !SilentlyArmed(c, FailedCell(c, partial))
  {
  }

  /** Page by page, what a load cut off at page f does to protections. */
  lemma CutRecordsAre(m: Machine, base: seq<PageBytes>, st: State, partial: PageBytes, f: nat, q: nat)
    requires CellsOk(m.cells, base) && |st.status| == |st.dirty| == |m.cells| && q < |m.cells|
    ensures var goal := LoadGoal(m.cells, st, f, partial);
            && StaysListed(m.cells[q], goal[q]) && (q >= f ==> Still(m.cells[q], goal[q]) && !SilentlyArmed(m.cells[q], goal[q]))
            && (q < f ==>
                  && NativeProt(goal[q].p) == NativeProt(LoadRecord(m.cells[q].p, st.status[q], st.dirty[q]))
                  && (SilentlyArmed(m.cells[q], goal[q]) <==>
                      ArmsInPlace(m.cells[q].p, st.status[q], LoadRecord(m.cells[q].p, st.status[q], st.dirty[q]).dirty)))
  {
    hide LoadedCell, FailedCell, LoadRecord, NativeProt, ArmsInPlace, StaysListed, StreamBytes;
    assert CellOk(m.cells[q], base[q]);
    LoadRecordIs(m.cells[q], st.status[q], st.dirty[q], StreamBytes(m.cells, st, q));
    FailedStill(m.cells[q], partial);
    StaysSame(m.cells[q]);
  }

  lemma CutOpensIs(m: Machine, base: seq<PageBytes>, st: State, partial: PageBytes, f: nat)
    requires Shaped(m) && CellsOk(m.cells, base) && f <= |st.status| == |st.dirty| == |m.cells|
    ensures var goal := LoadGoal(m.cells, st, f, partial);
            OpenAfter(m, goal, MovedBelow(m.cells, goal, f)) <==> LoadOpens(m, st, f)
  {
    hide LoadRecord, NativeProt, SilentlyArmed, ArmsInPlace, CellsOk, StaysListed, Still, LoadedCell, FailedCell, StreamBytes;
    var goal := LoadGoal(m.cells, st, f, partial);
    var noted := MovedBelow(m.cells, goal, f);
    forall q | 0 <= q < |m.cells|
      ensures q >= f ==> !SilentlyArmed(m.cells[q], goal[q]) && !noted[q]
      ensures q < f ==>
                && (noted[q] <==> NativeProt(m.cells[q].p) != NativeProt(LoadRecord(m.cells[q].p, st.status[q], st.dirty[q])))
                && (SilentlyArmed(m.cells[q], goal[q]) <==>
                    ArmsInPlace(m.cells[q].p, st.status[q], LoadRecord(m.cells[q].p, st.status[q], st.dirty[q]).dirty))
    {
      CutRecordsAre(m, base, st, partial, f, q);
    }
    assert forall i | 0 <= i < |m.cells| :: GroupNoted(noted, m.group, i) <==> LoadMoves(m, st, f, i);
  }

  /** Whole or cut off, a load leaves every page it touched protected as its
      state now says, but for what it leaves open: on a host whose page is the
      machine's, nothing. */
  lemma LoadedSafe(m: Machine, base: seq<PageBytes>, st: State, partial: PageBytes)
    requires Inv(m, base) && |st.status| == |st.dirty| == |m.cells|
    ensures Watched(Loaded(m, st, partial)) <==> !LoadOpens(m, st, FailsFrom(m.cells, st, 0))
    ensures Tight(Loaded(m, st, partial)) && (m.group == 1 ==> Watched(Loaded(m, st, partial)))
    ensures Enrolled(m) ==> Enrolled(Loaded(m, st, partial))
  {
    hide FailedCell, LoadedCell, NativeProt, OpenAfter, LoadOpens, Watched, Tight, Enrolled, Settled, SettledOs, FailsFrom,
         StaysListed, LoadRecord, ArmsInPlace, SilentlyArmed, Still, CellsOk, PlanOk;
    var f := FailsFrom(m.cells, st, 0);
    var goal := LoadGoal(m.cells, st, f, partial);
    var noted := MovedBelow(m.cells, goal, f);
    forall k | 0 <= k < |goal| ensures StaysListed(m.cells[k], goal[k]) && (!noted[k] ==> Still(m.cells[k], goal[k])) {
      CutRecordsAre(m, base, st, partial, f, k);
      if k < f && !noted[k] { StillWhen(m.cells[k], goal[k]); }
    }
    CutOpensIs(m, base, st, partial, f);
    SettledWatched(m, goal, noted);
    SettledTight(m, goal, noted);
    if Enrolled(m) { SettledEnrolled(m, goal, noted); }
  }

  lemma StillWhen(c: Cell, d: Cell)
    requires NativeProt(c.p) == NativeProt(d.p)
    ensures Still(c, d)
  {
  }

  lemma CoherentLoads(m: Machine, base: seq<PageBytes>)
    requires Sound(m, base)
    ensures Settling(m.cells)
  {
    forall i | 0 <= i < |m.cells| ensures Loadable(m.cells[i]) {
      assert CellOk(m.cells[i], base[i]);
    }
  }

  /** The stream holds a state some machine of this seal could be in. */
  ghost predicate Describes(cells: seq<Cell>, st: State, base: seq<PageBytes>) {
    && |st.status| == |st.dirty| == |cells| == |base| && Fits(cells, Trimmed(cells, st))
    && ViewsOk(StateView(cells, Trimmed(cells, st), base), base)
  }

  /** A state of the same seal, read whole, is then what the machine shows, and
      every page is sound again. */
  lemma LoadedValid(m: Machine, base: seq<PageBytes>, st: State, partial: PageBytes)
    requires Inv(m, base) && m.plan.Idle? && |st.status| == |st.dirty| == |m.cells|
    ensures Describes(m.cells, st, base) ==>
              && FailsFrom(m.cells, st, 0) == |m.cells| && Sound(Loaded(m, st, partial), base) && Quiet(Loaded(m, st, partial).cells)
              && ViewOfMachine(Loaded(m, st, partial)) == StateView(m.cells, Trimmed(m.cells, st), base)
    ensures Watched(Loaded(m, st, partial)) <==> !LoadOpens(m, st, FailsFrom(m.cells, st, 0))
    ensures Tight(Loaded(m, st, partial)) && (m.group == 1 ==> Watched(Loaded(m, st, partial)))
    ensures Enrolled(m) ==> Enrolled(Loaded(m, st, partial))
  {
    hide Loaded, Watched, Tight, Enrolled, LoadOpens, CellsOk, FailsFrom, ViewsOk, StateView, LoadedCell, Swept, Trimmed, Fits, OpenAfter,
         LoadGoal, MovedBelow, PlanShaped, Quiet, ViewOfMachine, StreamBytes, BroughtBytes, LoadState;
    LoadedSafe(m, base, st, partial);
    WholeFits(m.cells, st);
    if Describes(m.cells, st, base) {
      LoadedWhole(m, st, partial);
      LoadedSound(m, base, Trimmed(m.cells, st));
      SweptIdle(m, LoadedCells(m.cells, Trimmed(m.cells, st)));
    }
  }

  lemma SweptIdle(m: Machine, cells: seq<Cell>)
    requires Shaped(m) && m.plan.Idle? && |cells| == |m.cells|
    ensures Swept(m, cells).plan.Idle?
    ensures PlanOk(Swept(m, cells)) ==> Quiet(Swept(m, cells).cells)
  {
  }

  // ---- a delta's walks ----

  function PagesOf<T>(xs: seq<Entry<T>>): (r: seq<nat>)
    ensures |r| == |xs| && forall k | 0 <= k < |xs| :: r[k] == xs[k].page
  {
    seq(|xs|, k requires 0 <= k < |xs| => xs[k].page)
  }

  /** How many entries come before the first that names no page of the block. */
  function LeadIn<T>(xs: seq<Entry<T>>, n: nat): (k: nat)
    ensures k <= |xs| && (k < |xs| ==> xs[k].page >= n) && Within(xs[..k], n)
  {
    if xs == [] || xs[0].page >= n then 0
    else
      var k := LeadIn(xs[1..], n) + 1;
      assert xs[..k] == [xs[0]] + xs[1..][..k - 1];
      k
  }

  /** The delta as far as it can be applied: a status that names no page stops
      everything, an entry of data what comes after it. */
  function Applicable(status: seq<Entry<Status>>, data: seq<Entry<Change>>, n: nat): (d: Delta)
    ensures Ascending(status) && Ascending(data) ==> WellFormed(d)
  {
    var ks, kd := LeadIn(status, n), LeadIn(data, n);
    Delta(n, status[..ks], if ks < |status| then [] else data[..kd])
  }

  lemma {:induction false} LeadInFinds<T>(xs: seq<Entry<T>>, n: nat, i: nat)
    requires Ascending(xs) && i < n
    ensures Find(xs[..LeadIn(xs, n)], i) == Find(xs, i)
    decreases |xs|
  {
    if xs != [] {
      var k := LeadIn(xs, n);
      if xs[0].page >= n {
        FindBelow(xs, i);
      } else {
        TailAscends(xs);
        LeadInFinds(xs[1..], n, i);
        assert xs[..k] == [xs[0]] + xs[1..][..k - 1] && xs[..k][1..] == xs[1..][..k - 1];
      }
    }
  }

  lemma TailAscends<T>(xs: seq<Entry<T>>)
    requires Ascending(xs) && xs != []
    ensures Ascending(xs[1..])
  {
    forall a, b | 0 <= a < b < |xs| - 1 ensures xs[1..][a].page < xs[1..][b].page {
      assert xs[a + 1].page < xs[b + 1].page;
    }
  }

  /** An ascending list says nothing of what is below its first page. */
  lemma FindBelow<T>(xs: seq<Entry<T>>, i: nat)
    requires Ascending(xs) && xs != [] && i < xs[0].page
    ensures Find(xs, i) == None
  {
    FindMiss(xs, i);
  }

  /** What is applied of lists that may name pages there are not: of every page of
      the block what they say of it, but no data once a status names no page. */
  lemma ApplicableFinds(status: seq<Entry<Status>>, data: seq<Entry<Change>>, n: nat, i: nat)
    requires Ascending(status) && Ascending(data) && i < n
    ensures var d := Applicable(status, data, n);
            && Find(d.status, i) == Find(status, i)
            && Find(d.data, i) == if Within(status, n) then Find(data, i) else None
  {
    LeadInAll(status, n);
    LeadInFinds(status, n, i);
    LeadInFinds(data, n, i);
  }

  lemma ApplicableAll(status: seq<Entry<Status>>, data: seq<Entry<Change>>, n: nat)
    requires Within(status, n) && Within(data, n)
    ensures Applicable(status, data, n) == Delta(n, status, data)
  {
  }

  lemma LeadInAll<T>(xs: seq<Entry<T>>, n: nat)
    ensures LeadIn(xs, n) == |xs| <==> Within(xs, n)
  {
    if LeadIn(xs, n) == |xs| {
      assert xs[..LeadIn(xs, n)] == xs;
    }
  }

  /** A walk that touches only the pages of an ascending list. */
  ghost predicate Entries(w: Walk, g: nat, list: seq<nat>) {
    && WalkOk(w) && w.g == g && Sorted(list) && (forall k | 0 <= k < |list| :: list[k] < |w.orig|)
    && (forall j | 0 <= j < |w.orig| && j !in list :: w.goal[j] == w.orig[j] && !w.noted[j])
  }

  lemma EntrySkip(w: Walk, g: nat, list: seq<nat>, k: nat, run: ProtRun, cells: seq<Cell>, os: seq<Prot>)
    requires Entries(w, g, list) && k < |list| && At(w, AfterListed(list, k), run, cells, os)
    ensures At(w, list[k], run, cells, os) && list[k] < |cells| == |w.orig| == |w.goal| == |w.noted| && cells[list[k]] == w.orig[list[k]]
  {
    hide OsAt;
    forall a | 0 <= a < |list| ensures list[a] < AfterListed(list, k) || list[k] <= list[a] {
    }
    Advance(w, AfterListed(list, k), list[k], run, cells, cells, os);
  }

  lemma EntryEnd(w: Walk, g: nat, list: seq<nat>, run: ProtRun, cells: seq<Cell>, os: seq<Prot>)
    requires Entries(w, g, list) && At(w, AfterListed(list, |list|), run, cells, os)
    ensures At(w, |w.goal|, run, cells, os) && w.g == g
  {
    hide OsAt;
    forall a | 0 <= a < |list| ensures list[a] < AfterListed(list, |list|) {
    }
    Advance(w, AfterListed(list, |list|), |w.goal|, run, cells, cells, os);
  }

  lemma EntryShape(w: Walk, g: nat, list: seq<nat>)
    requires Entries(w, g, list)
    ensures |w.orig| == |w.goal| == |w.noted| == |w.os0| && w.g == g > 0
  {
  }

  lemma AfterNone(list: seq<nat>)
    ensures AfterListed(list, 0) == 0
  {
  }

  lemma AfterOne(list: seq<nat>, k: nat)
    requires k < |list|
    ensures AfterListed(list, k + 1) == list[k] + 1
  {
  }

  ghost function StatusWalk(m: Machine, d: Delta): Walk {
    var goal := Restatused(m.cells, d);
    Walk(m.cells, goal, MovedBelow(m.cells, goal, |m.cells|), m.group, m.os)
  }

  lemma StatusEntries(m: Machine, d: Delta)
    requires Shaped(m) && Ascending(d.status) && Within(d.status, |m.cells|)
    ensures Entries(StatusWalk(m, d), m.group, PagesOf(d.status))
    ensures var w := StatusWalk(m, d);
            && |w.goal| == |w.noted| == |m.cells| && w.orig == m.cells
            && Swept(m, Restatused(m.cells, d)) == m.(cells := Settled(w.goal, w.noted), os := SettledOs(w.goal, w.noted, m.group, m.os))
            && (forall j | 0 <= j < |m.cells| :: w.noted[j] == Moved(m.cells, w.goal, j))
    ensures At(StatusWalk(m, d), 0, NO_RUN, m.cells, m.os)
    ensures forall k | 0 <= k < |d.status| ::
              StatusWalk(m, d).goal[d.status[k].page] == NoteStatus(m.cells[d.status[k].page], d.status[k].val)
  {
    hide NoteStatus, Swept, Settled, SettledOs, NativeProt;
    var w := StatusWalk(m, d);
    SettledSwept(m, w.goal);
    forall j | 0 <= j < |m.cells| && j !in PagesOf(d.status) ensures w.goal[j] == w.orig[j] && !w.noted[j] {
      forall k | 0 <= k < |d.status| ensures d.status[k].page != j {
        assert PagesOf(d.status)[k] in PagesOf(d.status);
      }
      FindMiss(d.status, j);
    }
    forall k | 0 <= k < |d.status| ensures w.goal[d.status[k].page] == NoteStatus(m.cells[d.status[k].page], d.status[k].val) {
      FindHit(d.status, k);
    }
    Start(w);
  }

  ghost function DataWalk(m: Machine, d: Delta): Walk {
    var goal := Patched(m.cells, d);
    Walk(m.cells, goal, MovedBelow(m.cells, goal, |m.cells|), m.group, m.os)
  }

  lemma DataEntries(m: Machine, d: Delta)
    requires Shaped(m) && Ascending(d.data) && Within(d.data, |m.cells|)
    ensures Entries(DataWalk(m, d), m.group, PagesOf(d.data))
    ensures var w := DataWalk(m, d);
            && |w.goal| == |w.noted| == |m.cells| && w.orig == m.cells
            && Swept(m, Patched(m.cells, d)) == m.(cells := Settled(w.goal, w.noted), os := SettledOs(w.goal, w.noted, m.group, m.os))
            && (forall j | 0 <= j < |m.cells| :: w.noted[j] == Moved(m.cells, w.goal, j))
    ensures At(DataWalk(m, d), 0, NO_RUN, m.cells, m.os)
    ensures forall k | 0 <= k < |d.data| ::
              DataWalk(m, d).goal[d.data[k].page] == PatchedCell(m.cells[d.data[k].page], d.data[k].val.clean, d.data[k].val.bytes)
  {
    hide PatchedCell, Swept, Settled, SettledOs, NativeProt;
    var w := DataWalk(m, d);
    SettledSwept(m, w.goal);
    forall j | 0 <= j < |m.cells| && j !in PagesOf(d.data) ensures w.goal[j] == w.orig[j] && !w.noted[j] {
      forall k | 0 <= k < |d.data| ensures d.data[k].page != j {
        assert PagesOf(d.data)[k] in PagesOf(d.data);
      }
      FindMiss(d.data, j);
    }
    forall k | 0 <= k < |d.data|
      ensures w.goal[d.data[k].page] == PatchedCell(m.cells[d.data[k].page], d.data[k].val.clean, d.data[k].val.bytes)
    {
      FindHit(d.data, k);
    }
    Start(w);
  }

  /** The delta leads to a state some machine of this seal could be in. */
  ghost predicate LeadsToSound(m: Machine, d: Delta, base: seq<PageBytes>) {
    m.plan.Idle? && ViewsOk(ApplyView(ViewOfMachine(m), d), base)
  }

  lemma AppliedValid(m: Machine, base: seq<PageBytes>, d: Delta)
    requires Inv(m, base)
    ensures LeadsToSound(m, d, base) ==> Sound(ApplyDelta(m, d), base) && Quiet(ApplyDelta(m, d).cells)
    ensures Watched(ApplyDelta(m, d)) <==> !ApplyOpens(m, d)
    ensures Tight(ApplyDelta(m, d)) && (m.group == 1 ==> Watched(ApplyDelta(m, d))) && (Enrolled(m) ==> Enrolled(ApplyDelta(m, d)))
  {
    hide Restatused, Patched, Watched, CellsOk, ApplyOpens, ViewsOk, ApplyView, ViewOfMachine, Enrolled;
    ApplyWatched(m, base, d);
    if LeadsToSound(m, d, base) {
      ApplySound(m, base, d);
    }
  }
}
