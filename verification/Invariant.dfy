/** What every operation keeps: each page anchored to the sealed image and its
    flags coherent, the plan's slots in order, and no armed page under a
    writable host page. */
module Invariant {
  import opened Pages
  import opened Machine
  import opened Deltas

  /** No tracked page that must fault sits in a host page the OS lets be written. */
  ghost predicate Watched(m: Machine)
    requires Shaped(m)
  {
    forall i, j | 0 <= i < |m.cells| && 0 <= j < |m.cells| && Writable(m.os[i]) && Armed(m.cells[j].p) ::
      !SameGroup(m.group, i, j)
  }

  /** With one machine page per host page, the OS never lets a page be written
      that the guest may not write. */
  ghost predicate Tight(m: Machine)
    requires Shaped(m)
  {
    m.group == 1 ==>
      forall i | 0 <= i < |m.cells| && Writable(m.os[i]) :: Tracked(m.cells[i].p.status)
  }

  /** Hot, invisible, or on the list of pages the next epoch holds. */
  predicate Enlisted(c: Cell) {
    EpochTracks(c.p) && !c.p.hot ==> c.unheld
  }

  /** With one machine page per host page, every page the OS lets be written is
      on that list when it should be. */
  ghost predicate Enrolled(m: Machine)
    requires Shaped(m)
  {
    m.group == 1 ==>
      forall i | 0 <= i < |m.cells| && Writable(m.os[i]) :: Enlisted(m.cells[i])
  }

  /** A page as note_prot leaves it: on the list if it is mapped writable. */
  predicate Told(c: Cell) {
    Writable(NativeProt(c.p)) ==> Enlisted(c)
  }

  /** A change that takes no page off the list it belongs on. */
  predicate StaysListed(c: Cell, d: Cell) {
    Tracked(c.p.status) && Enlisted(c) ==> Enlisted(d)
  }

  /** A page given back was copied first. */
  predicate OwesNothingFree(c: Cell) {
    c.p.status == StFree ==> c.p.planHold == Clear
  }

  ghost predicate PlanOk(m: Machine) {
    && PlanShaped(m)
    && (m.plan.Idle? ==> forall i | 0 <= i < |m.cells| :: m.cells[i].p.planHold == Clear)
    && (forall i | 0 <= i < |m.cells| :: OwesNothingFree(m.cells[i]))
  }

  ghost predicate CellsOk(cells: seq<Cell>, base: seq<PageBytes>) {
    |base| == |cells| && forall i | 0 <= i < |cells| :: CellOk(cells[i], base[i])
  }

  ghost predicate Sound(m: Machine, base: seq<PageBytes>) {
    Shaped(m) && CellsOk(m.cells, base) && PlanOk(m)
  }

  ghost predicate Inv(m: Machine, base: seq<PageBytes>) {
    Sound(m, base) && Watched(m) && Tight(m)
  }

  predicate SamePlan(c: Cell, d: Cell) {
    c.p.planHold == d.p.planHold && c.p.planSlot == d.p.planSlot
  }

  // ---- one page at a time ----

  lemma ProtectedOk(c: Cell, base: PageBytes, active: bool, s: Status)
    requires CellOk(c, base) && (s == StFree ==> c.mem == Zeros())
    ensures CellOk(Protected(c, active, s), base) && SamePlan(c, Protected(c, active, s))
    ensures Protected(c, active, s).p.status == s && Told(Protected(c, active, s))
  {
    RefreshedTold(NoteStatus(EpochNote(c, active, s), s));
  }

  lemma RefreshedTold(c: Cell)
    ensures Told(Refreshed(c)) && NativeProt(Refreshed(c).p) == NativeProt(c.p)
  {
  }

  lemma ProtectedMem(c: Cell, active: bool, s: Status)
    ensures Protected(c, active, s).mem == c.mem
  {
  }

  lemma NotedOk(c: Cell, base: PageBytes, active: bool, to: Status)
    requires CellOk(c, base)
    ensures var n := EpochNote(Snapshot(c), active, to);
            CellOk(n, base) && SamePlan(c, n) && (!n.p.invisible ==> n.p.snap != NoSnap)
            && (ZeroAlready(n) ==> n.mem == Zeros())
  {
  }

  lemma ZeroedOk(c: Cell, base: PageBytes)
    requires CellOk(c, base) && (!c.p.invisible ==> c.p.snap != NoSnap)
    ensures var z := SetDirty(c.(mem := Zeros()), !c.p.invisible && c.p.snap != ZeroSnap);
            CellOk(z, base) && SamePlan(c, z)
  {
  }

  lemma EmptiedOk(c: Cell, base: PageBytes, active: bool)
    requires CellOk(c, base)
    ensures CellOk(Emptied(c, active), base) && SamePlan(c, Emptied(c, active)) && Emptied(c, active).mem == Zeros()
  {
    var n := EpochNote(Snapshot(c), active, StFree);
    NotedOk(c, base, active, StFree);
    ZeroedOk(n, base);
    assert n.(mem := Zeros()) == if ZeroAlready(n) then n else n.(mem := Zeros());
  }

  lemma GivenBackOk(c: Cell, base: PageBytes, active: bool, adviseOnly: bool)
    requires CellOk(c, base)
    ensures CellOk(GivenBack(c, active, adviseOnly), base) && SamePlan(c, GivenBack(c, active, adviseOnly))
    ensures Told(GivenBack(c, active, adviseOnly))
  {
    EmptiedOk(c, base, active);
    ProtectedOk(Emptied(c, active), base, active, StFree);
    RefreshedTold(Emptied(c, active));
  }

  lemma LetGoOk(c: Cell, base: PageBytes, active: bool)
    requires CellOk(c, base) && Tracked(c.p.status)
    ensures CellOk(LetGo(c, active), base) && SamePlan(c, LetGo(c, active)) && LetGo(c, active).p.status == c.p.status
    ensures LetGo(c, active).p.dirty && Enlisted(LetGo(c, active))
    ensures c.p.planHold == Clear ==> Writable(NativeProt(LetGo(c, active).p))
  {
  }

  /** A move that shows a page mapped writable while it was invisible, which
      the list of writable pages leaves out. */
  predicate Uncovers(c: Cell, s: Status, hidden: bool) {
    c.p.invisible && c.p.dirty && !c.p.held && !hidden && Tracked(s)
  }

  /** mremap writes no baseline copy into the page it lands on, and needs none:
      a free page that is clean is a page sealed as zeros. */
  lemma LandedOk(c: Cell, base: PageBytes, active: bool, s: Status, hidden: bool, bytes: PageBytes)
    requires CellOk(c, base) && c.p.status == StFree && s != StFree
    ensures CellOk(Landed(c, active, s, hidden, bytes), base) && SamePlan(c, Landed(c, active, s, hidden, bytes))
    ensures Armed(Landed(c, active, s, hidden, bytes).p) ==> Armed(Protected(c, active, s).p)
    ensures Landed(c, active, s, hidden, bytes).p.status == Protected(c, active, s).p.status
  {
  }

  /** Exactly when the page a move lands on is mapped writable and on no list. */
  lemma LandedListed(c: Cell, base: PageBytes, active: bool, s: Status, hidden: bool, bytes: PageBytes)
    requires CellOk(c, base) && c.p.status == StFree && c.p.planHold == Clear && s != StFree
    ensures Writable(NativeProt(Protected(c, active, s).p)) && !Enlisted(Landed(c, active, s, hidden, bytes)) <==> Uncovers(c, s, hidden)
  {
  }

  lemma OpenedOk(c: Cell, base: PageBytes)
    requires CellOk(c, base)
    ensures CellOk(Opened(c), base) && SamePlan(c, Opened(c))
    ensures Opened(c).p.status == c.p.status && (!c.unheld && Armed(Opened(c).p) ==> Armed(c.p))
    ensures if c.unheld then Told(Opened(c)) else StaysListed(c, Opened(c))
  {
  }

  lemma HeatedOk(c: Cell, base: PageBytes, epochNo: nat, room: bool)
    requires CellOk(c, base)
    ensures CellOk(Compared(c), base) && CellOk(Heated(c, epochNo, room), base)
  {
  }

  lemma PlanHeldOk(c: Cell, base: PageBytes, slot: nat)
    requires CellOk(c, base)
    ensures CellOk(PlanHeld(c, slot), base)
    ensures PlanHeld(c, slot).p.status == c.p.status && PlanHeld(c, slot).p.planSlot == slot
    ensures !Tracked(c.p.status) ==> !Armed(PlanHeld(c, slot).p) && PlanHeld(c, slot).p.planHold == c.p.planHold
    ensures if Tracked(c.p.status) then Told(PlanHeld(c, slot)) else StaysListed(c, PlanHeld(c, slot))
  {
  }

  /** Which views a machine sealed with `base` can have. */
  predicate ViewOk(v: PageView, base: PageBytes) {
    v.Shown? ==> (!v.dirty ==> v.bytes == base) && (v.status == StFree ==> v.bytes == Zeros())
  }

  /** A load never finds a dirty page without its snapshot: the bytes it puts
      back are the baseline's. */
  lemma FilledOk(c: Cell, base: PageBytes, d: bool, bytes: PageBytes)
    requires CellOk(c, base) && !c.p.invisible
    ensures var f := LoadFilled(c, d, bytes);
            && f == c.(mem := if d then bytes else base, p := c.p.(snap := f.p.snap))
            && SnapIs(f.p.snap, base) && (d ==> f.p.snap != NoSnap)
  {
  }

  lemma MarkedOk(c: Cell, base: PageBytes, d: bool)
    requires !c.p.invisible && Coherent(c) && SnapIs(c.p.snap, base) && (d ==> c.p.snap != NoSnap) && (!d ==> c.mem == base)
    ensures var r := LoadMarked(c, d);
            && Coherent(r) && SamePlan(c, r) && !r.p.invisible && r.p.snap == c.p.snap && r.mem == c.mem
            && r.p.dirty == d && r.p.status == c.p.status
  {
  }

  lemma RestatusOk(c: Cell, base: PageBytes, s: Status)
    requires Coherent(c) && SnapIs(c.p.snap, base) && (c.p.dirty || c.p.invisible ==> c.p.snap != NoSnap)
    requires !c.p.invisible ==> (!c.p.dirty ==> c.mem == base) && (s == StFree ==> c.mem == Zeros())
    ensures CellOk(NoteStatus(c, s), base) && SamePlan(c, NoteStatus(c, s))
    ensures ViewOf(NoteStatus(c, s)) == if c.p.invisible then Hidden(s) else Shown(s, c.p.dirty, c.mem)
  {
  }

  lemma LoadedOk(c: Cell, base: PageBytes, s: Status, d: bool, bytes: PageBytes)
    requires CellOk(c, base)
    requires !c.p.invisible ==> ViewOk(Shown(s, d, if d then bytes else base), base)
    ensures CellOk(LoadedCell(c, s, d, bytes), base) && SamePlan(c, LoadedCell(c, s, d, bytes))
    ensures ViewOf(LoadedCell(c, s, d, bytes)) ==
              if c.p.invisible then Hidden(s) else Shown(s, d, if d then bytes else base)
  {
    if c.p.invisible {
      RestatusOk(c, base, s);
    } else {
      var f := LoadFilled(c, d, bytes);
      FilledOk(c, base, d, bytes);
      MarkedOk(f, base, d);
      RestatusOk(LoadMarked(f, d), base, s);
    }
  }

  // ---- host pages ----

  lemma GroupProtSafe(cells: seq<Cell>, g: nat, i: nat, j: nat)
    requires g > 0 && i < |cells| && j < |cells| && SameGroup(g, i, j)
    ensures Writable(GroupProt(cells, g, i)) ==> !Armed(cells[j].p)
  {
    if g == 1 {
      assert i == j;
    }
  }

  /** Telling some host pages what their pages now call for keeps the watch, as
      long as no page of an untold host page became armed. */
  lemma RetoldWatched(m: Machine, cells: seq<Cell>, os: seq<Prot>, told: set<nat>)
    requires Shaped(m) && Watched(m) && Tight(m) && |cells| == |os| == |m.cells|
    requires forall i | 0 <= i < |cells| && i in told :: os[i] == GroupProt(cells, m.group, i)
    requires forall i | 0 <= i < |cells| && i !in told :: os[i] == m.os[i]
    requires forall i, j | 0 <= i < |cells| && 0 <= j < |cells| && i !in told && SameGroup(m.group, i, j) ::
               Armed(cells[j].p) ==> Armed(m.cells[j].p)
    requires forall i | 0 <= i < |cells| && i !in told :: Tracked(m.cells[i].p.status) ==> Tracked(cells[i].p.status)
    ensures Watched(m.(cells := cells, os := os)) && Tight(m.(cells := cells, os := os))
  {
    forall i, j | 0 <= i < |cells| && 0 <= j < |cells| && Writable(os[i]) && SameGroup(m.group, i, j)
      ensures !Armed(cells[j].p)
    {
      if i in told {
        GroupProtSafe(cells, m.group, i, j);
      }
    }
  }

  /** Lifting what each page keeps to the machine. */
  lemma Assemble(m: Machine, base: seq<PageBytes>, cells: seq<Cell>, os: seq<Prot>, told: set<nat>)
    requires Inv(m, base) && |cells| == |os| == |m.cells|
    requires forall i | 0 <= i < |cells| :: CellOk(cells[i], base[i]) && SamePlan(m.cells[i], cells[i]) && OwesNothingFree(cells[i])
    requires forall i | 0 <= i < |cells| && i in told :: os[i] == GroupProt(cells, m.group, i)
    requires forall i | 0 <= i < |cells| && i !in told :: os[i] == m.os[i]
    requires forall i, j | 0 <= i < |cells| && 0 <= j < |cells| && i !in told && SameGroup(m.group, i, j) ::
               Armed(cells[j].p) ==> Armed(m.cells[j].p)
    requires forall i | 0 <= i < |cells| && i !in told :: Tracked(m.cells[i].p.status) ==> Tracked(cells[i].p.status)
    ensures Inv(m.(cells := cells, os := os), base)
  {
    RetoldWatched(m, cells, os, told);
  }

  lemma AssembleRange(m: Machine, base: seq<PageBytes>, cells: seq<Cell>, lo: nat, hi: nat)
    requires Inv(m, base) && |cells| == |m.cells| && lo <= hi <= |cells|
    requires forall i | 0 <= i < |cells| :: CellOk(cells[i], base[i]) && SamePlan(m.cells[i], cells[i]) && OwesNothingFree(cells[i])
    requires forall i | 0 <= i < |cells| && !(lo <= i < hi) :: cells[i] == m.cells[i]
    ensures Inv(m.(cells := cells, os := RefreshOs(cells, m.group, m.os, lo, hi)), base)
  {
    RefreshWatched(m, cells, lo, hi);
  }

  lemma RefreshWatched(m: Machine, cells: seq<Cell>, lo: nat, hi: nat)
    requires Shaped(m) && Watched(m) && Tight(m) && |cells| == |m.cells| && lo <= hi <= |cells|
    requires forall i | 0 <= i < |cells| && !(lo <= i < hi) :: cells[i] == m.cells[i]
    ensures Watched(m.(cells := cells, os := RefreshOs(cells, m.group, m.os, lo, hi)))
    ensures Tight(m.(cells := cells, os := RefreshOs(cells, m.group, m.os, lo, hi)))
  {
    var told := set i | 0 <= i < |cells| && Touches(m.group, i, lo, hi);
    forall i | 0 <= i < |cells| && i !in told ensures !(lo <= i < hi) {
      if lo <= i < hi { assert SameGroup(m.group, i, i); }
    }
    RetoldWatched(m, cells, RefreshOs(cells, m.group, m.os, lo, hi), told);
  }

  // ---- the list of pages mapped writable ----

  /** Telling some host pages keeps the list, when every page told was noted
      and no other page fell off. */
  lemma RetoldEnrolled(m: Machine, cells: seq<Cell>, os: seq<Prot>, told: set<nat>)
    requires Shaped(m) && Tight(m) && Enrolled(m) && |cells| == |os| == |m.cells|
    requires m.group == 1 ==>
               forall i | 0 <= i < |cells| ::
                 if i in told then os[i] == NativeProt(cells[i].p) && Told(cells[i])
                 else os[i] == m.os[i] && StaysListed(m.cells[i], cells[i])
    ensures Enrolled(m.(cells := cells, os := os))
  {
  }

  lemma RefreshEnrolled(m: Machine, cells: seq<Cell>, lo: nat, hi: nat)
    requires Shaped(m) && Tight(m) && Enrolled(m) && |cells| == |m.cells| && lo <= hi <= |cells|
    requires forall i | lo <= i < hi :: Told(cells[i])
    requires forall i | 0 <= i < |cells| && !(lo <= i < hi) :: cells[i] == m.cells[i]
    ensures Enrolled(m.(cells := cells, os := RefreshOs(cells, m.group, m.os, lo, hi)))
  {
    var told := set i | 0 <= i < |cells| && Touches(m.group, i, lo, hi);
    if m.group == 1 {
      forall i | 0 <= i < |cells| ensures i in told <==> lo <= i < hi {
        if lo <= i < hi { assert SameGroup(1, i, i); }
      }
    }
    RetoldEnrolled(m, cells, RefreshOs(cells, m.group, m.os, lo, hi), told);
  }

  // ---- the guest's steps ----

  lemma ProtectKeeps(m: Machine, base: seq<PageBytes>, lo: nat, hi: nat, s: Status)
    requires Inv(m, base) && lo <= hi <= |m.cells| && s != StFree
    ensures Inv(Protect(m, lo, hi, s), base) && (Enrolled(m) ==> Enrolled(Protect(m, lo, hi, s)))
  {
    hide Protected, CellOk, RefreshOs, Watched, Tight, PlanShaped, Told, Enrolled;
    var r := Protect(m, lo, hi, s);
    forall i | 0 <= i < |m.cells|
      ensures CellOk(r.cells[i], base[i]) && SamePlan(m.cells[i], r.cells[i]) && OwesNothingFree(r.cells[i])
      ensures lo <= i < hi ==> Told(r.cells[i])
    {
      assert OwesNothingFree(m.cells[i]) && CellOk(m.cells[i], base[i]);
      ProtectedOk(m.cells[i], base[i], m.epochActive, s);
    }
    AssembleRange(m, base, r.cells, lo, hi);
    if Enrolled(m) { RefreshEnrolled(m, r.cells, lo, hi); }
  }

  lemma GiveBackKeeps(m: Machine, base: seq<PageBytes>, lo: nat, hi: nat, adviseOnly: bool)
    requires Inv(m, base) && lo <= hi <= |m.cells| && forall i | lo <= i < hi :: m.cells[i].p.planHold == Clear
    ensures Inv(GiveBack(m, lo, hi, adviseOnly), base) && (Enrolled(m) ==> Enrolled(GiveBack(m, lo, hi, adviseOnly)))
  {
    hide GivenBack, CellOk, RefreshOs, Watched, Tight, PlanShaped, Told, Enrolled;
    var r := GiveBack(m, lo, hi, adviseOnly);
    forall i | 0 <= i < |m.cells|
      ensures CellOk(r.cells[i], base[i]) && SamePlan(m.cells[i], r.cells[i]) && OwesNothingFree(r.cells[i])
      ensures lo <= i < hi ==> Told(r.cells[i])
    {
      assert OwesNothingFree(m.cells[i]) && CellOk(m.cells[i], base[i]);
      GivenBackOk(m.cells[i], base[i], m.epochActive, adviseOnly);
    }
    AssembleRange(m, base, r.cells, lo, hi);
    if Enrolled(m) { RefreshEnrolled(m, r.cells, lo, hi); }
  }

  lemma LandKeeps(m: Machine, base: seq<PageBytes>, i: nat, s: Status, hidden: bool, bytes: PageBytes)
    requires Inv(m, base) && i < |m.cells| && s != StFree
    requires m.cells[i].p.status == StFree
    ensures Inv(Land(m, i, s, hidden, bytes), base)
    ensures Enrolled(m) ==> (Enrolled(Land(m, i, s, hidden, bytes)) <==> m.group != 1 || !Uncovers(m.cells[i], s, hidden))
  {
    hide Landed, Protected, RefreshOs, Watched, Tight, CellOk, PlanShaped, Armed, Land, Protect, Enrolled, Enlisted, Uncovers;
    var told := Protect(m, i, i + 1, s);
    ProtectKeeps(m, base, i, i + 1, s);
    LandedOk(m.cells[i], base[i], m.epochActive, s, hidden, bytes);
    ProtectedOk(m.cells[i], base[i], m.epochActive, s);
    LandIsSwap(m, i, s, hidden, bytes);
    CellSwapKeeps(told, base, i, Landed(m.cells[i], m.epochActive, s, hidden, bytes));
    assert OwesNothingFree(m.cells[i]);
    if m.group == 1 {
      ToldAlone(m, i, s);
      LandedListed(m.cells[i], base[i], m.epochActive, s, hidden, bytes);
      if Uncovers(m.cells[i], s, hidden) { NotEnrolled(Land(m, i, s, hidden, bytes), i); }
    } else {
      EnrolledGrouped(Land(m, i, s, hidden, bytes));
    }
  }

  lemma NotEnrolled(m: Machine, i: nat)
    requires Shaped(m) && m.group == 1 && i < |m.cells| && Writable(m.os[i]) && !Enlisted(m.cells[i])
    ensures !Enrolled(m)
  {
  }

  lemma EnrolledGrouped(m: Machine)
    requires Shaped(m) && m.group != 1
    ensures Enrolled(m)
  {
  }

  /** With one machine page per host page, a page told has its own protection. */
  lemma ToldAlone(m: Machine, i: nat, s: Status)
    requires Shaped(m) && m.group == 1 && i < |m.cells|
    ensures Protect(m, i, i + 1, s).os[i] == NativeProt(Protected(m.cells[i], m.epochActive, s).p)
  {
    assert SameGroup(1, i, i);
    assert Touches(1, i, i, i + 1);
  }

  lemma LandIsSwap(m: Machine, i: nat, s: Status, hidden: bool, bytes: PageBytes)
    requires Shaped(m) && i < |m.cells|
    ensures var told := Protect(m, i, i + 1, s);
            |told.cells| == |m.cells| && told.group == m.group && told.cells[i] == Protected(m.cells[i], m.epochActive, s)
            && Land(m, i, s, hidden, bytes) == told.(cells := told.cells[i := Landed(m.cells[i], m.epochActive, s, hidden, bytes)])
  {
    var told := Protect(m, i, i + 1, s);
    assert told.cells == m.cells[i := told.cells[i]];
  }

  /** Replacing one page by another as sound, no more armed and as tracked. */
  lemma CellSwapKeeps(m: Machine, base: seq<PageBytes>, i: nat, c: Cell)
    requires Inv(m, base) && i < |m.cells| && CellOk(c, base[i]) && SamePlan(m.cells[i], c)
    requires c.p.status == m.cells[i].p.status && (Armed(c.p) ==> Armed(m.cells[i].p))
    ensures Inv(m.(cells := m.cells[i := c]), base)
    ensures Enrolled(m) && (m.group == 1 && Writable(m.os[i]) ==> Enlisted(c)) ==> Enrolled(m.(cells := m.cells[i := c]))
  {
    var r := m.(cells := m.cells[i := c]);
    assert OwesNothingFree(m.cells[i]) && OwesNothingFree(c);
    RetoldWatched(m, r.cells, r.os, {});
    assert r == m.(cells := r.cells, os := r.os);
  }

  lemma TripEnrols(m: Machine, base: seq<PageBytes>, i: nat, also: set<nat>)
    requires Inv(m, base) && i < |m.cells| && Enrolled(m)
    ensures Enrolled(Trip(m, i, also))
  {
    hide LetGo, CellOk, Watched, PlanShaped;
    var r := Trip(m, i, also);
    if m.group == 1 {
      forall q | 0 <= q < |m.cells| && Writable(r.os[q]) ensures Enlisted(r.cells[q]) {
        assert CellOk(m.cells[q], base[q]);
        assert SameGroup(1, i, q) <==> i == q;
        if Tracked(m.cells[q].p.status) { LetGoOk(m.cells[q], base[q], m.epochActive); }
        assert Touches(1, q, i, i + 1) <==> q == i;
      }
    }
  }

  /** The write fault: pages that were let go are recorded, and the watch holds. */
  lemma TripKeeps(m: Machine, base: seq<PageBytes>, i: nat, also: set<nat>)
    requires Inv(m, base) && i < |m.cells|
    ensures Inv(Trip(m, i, also), base) && (Enrolled(m) ==> Enrolled(Trip(m, i, also)))
  {
    hide Trip, CellsOk, Watched, Tight, PlanOk, Enrolled;
    TripSound(m, base, i, also);
    if Enrolled(m) { TripEnrols(m, base, i, also); }
  }

  lemma TripSound(m: Machine, base: seq<PageBytes>, i: nat, also: set<nat>)
    requires Inv(m, base) && i < |m.cells|
    ensures Inv(Trip(m, i, also), base)
  {
    hide LetGo;
    var r := Trip(m, i, also);
    forall q | 0 <= q < |m.cells|
      ensures CellOk(r.cells[q], base[q]) && SamePlan(m.cells[q], r.cells[q]) && OwesNothingFree(r.cells[q])
      ensures r.cells[q].p.status == m.cells[q].p.status && (!SameGroup(m.group, i, q) ==> r.cells[q] == m.cells[q])
    {
      assert OwesNothingFree(m.cells[q]);
      if LetsGo(m.cells, m.group, i, also, q) {
        LetGoOk(m.cells[q], base[q], m.epochActive);
      }
    }
    var hi := i + 1;
    var told := set a | 0 <= a < |m.cells| && Touches(m.group, a, i, hi);
    assert forall a | 0 <= a < |m.cells| && a !in told :: !SameGroup(m.group, a, i);
    Assemble(m, base, r.cells, r.os, told);
    assert r == m.(cells := r.cells, os := r.os);
  }

  /** After the handler the host page is writable: the write that faulted goes
      through when it is tried again, so no write faults for ever. */
  lemma TripServes(m: Machine, base: seq<PageBytes>, i: nat, also: set<nat>)
    requires Inv(m, base) && i < |m.cells| && Tracked(m.cells[i].p.status)
    requires forall q | 0 <= q < |m.cells| && LetsGo(m.cells, m.group, i, also, q) :: m.cells[q].p.planHold == Clear
    ensures Writable(Trip(m, i, also).os[i])
    ensures forall q | 0 <= q < |m.cells| && SameGroup(m.group, i, q) && Tracked(m.cells[q].p.status) ::
              Writable(NativeProt(Trip(m, i, also).cells[q].p))
  {
    var r := Trip(m, i, also);
    forall q | 0 <= q < |m.cells| && SameGroup(m.group, i, q) && Tracked(m.cells[q].p.status)
      ensures Writable(NativeProt(r.cells[q].p))
    {
      LetGoOk(m.cells[q], base[q], m.epochActive);
    }
    assert SameGroup(m.group, i, i);
    assert Touches(m.group, i, i, i + 1);
    assert r.os[i] == GroupProt(r.cells, m.group, i);
    assert GroupWants(r.cells, m.group, i) by { assert Writable(NativeProt(r.cells[i].p)); }
    assert !GroupArmed(r.cells, m.group, i);
  }

  /** A write the OS lets through without a fault lands on a page already
      recorded: dirty, on no hold, and - hot and invisible pages apart - on the
      list of pages the next epoch holds, exactly when it is no orphan. Where a
      host page is one machine page it never is. */
  lemma NoUnrecordedWrite(m: Machine, base: seq<PageBytes>, i: nat)
    requires Inv(m, base) && i < |m.cells| && Tracked(m.cells[i].p.status) && Writable(m.os[i])
    ensures m.cells[i].p.dirty && m.cells[i].p.planHold == Clear && (m.cells[i].p.hot || !m.cells[i].p.held)
    ensures Enlisted(m.cells[i]) <==> !Orphan(m.cells[i])
    ensures Enrolled(m) && m.group == 1 ==> !Orphan(m.cells[i])
  {
    assert SameGroup(m.group, i, i);
    assert !Armed(m.cells[i].p);
  }

  /** The page a write faulted on is let go and recorded. */
  lemma TripRecords(m: Machine, base: seq<PageBytes>, i: nat, also: set<nat>)
    requires Inv(m, base) && i < |m.cells| && Tracked(m.cells[i].p.status) && !Writable(m.os[i])
    ensures var r := Trip(m, i, also);
            |r.cells| == |m.cells| && r.cells[i] == LetGo(m.cells[i], m.epochActive)
            && r.cells[i].p.status == m.cells[i].p.status && r.cells[i].p.dirty
  {
    hide LetGo, RefreshOs, Watched, Tight, PlanOk, CellOk;
    assert LetsGo(m.cells, m.group, i, also, i);
    assert CellOk(m.cells[i], base[i]);
    LetGoOk(m.cells[i], base[i], m.epochActive);
  }

  lemma StoreKeeps(m: Machine, base: seq<PageBytes>, i: nat, bytes: PageBytes)
    requires Inv(m, base) && i < |m.cells| && Tracked(m.cells[i].p.status) && m.cells[i].p.dirty
    ensures Inv(Store(m, i, bytes), base) && (Enrolled(m) ==> Enrolled(Store(m, i, bytes)))
  {
    CellSwapKeeps(m, base, i, m.cells[i].(mem := bytes));
  }

  lemma WriteKeeps(m: Machine, base: seq<PageBytes>, i: nat, bytes: PageBytes, also: set<nat>)
    requires Inv(m, base) && i < |m.cells| && Tracked(m.cells[i].p.status)
    ensures Inv(GuestWrite(m, i, bytes, also), base) && (Enrolled(m) ==> Enrolled(GuestWrite(m, i, bytes, also)))
  {
    hide Enrolled, Trip, Store, Watched, Tight, CellsOk, PlanOk;
    if Writable(m.os[i]) {
      NoUnrecordedWrite(m, base, i);
      StoreKeeps(m, base, i, bytes);
    } else {
      TripKeeps(m, base, i, also);
      TripRecords(m, base, i, also);
      StoreKeeps(Trip(m, i, also), base, i, bytes);
    }
  }

  // ---- the planned state's steps ----

  lemma PlanKeeps(m: Machine, base: seq<PageBytes>, blank: PageBytes)
    requires Inv(m, base) && m.plan.Idle?
    ensures Inv(PlanState(m, blank), base) && (Enrolled(m) ==> Enrolled(PlanState(m, blank)))
  {
    hide PlanState, CellsOk, Watched, Tight, PlanOk, Enrolled;
    PlanSound(m, base, blank);
    if Enrolled(m) { PlanEnrols(m, base, blank); }
  }

  lemma PlanSound(m: Machine, base: seq<PageBytes>, blank: PageBytes)
    requires Inv(m, base) && m.plan.Idle?
    ensures Inv(PlanState(m, blank), base)
  {
    var r := PlanState(m, blank);
    forall i | 0 <= i < |m.cells|
      ensures CellOk(r.cells[i], base[i]) && r.cells[i].p.status == m.cells[i].p.status
      ensures OwesNothingFree(r.cells[i])
      ensures !PlanTells(m.cells[i]) && Armed(r.cells[i].p) ==> Armed(m.cells[i].p)
    {
      assert OwesNothingFree(m.cells[i]);
      PlanHeldOk(m.cells[i], base[i], |Picks(CarriedBits(m.cells), i)|);
    }
    var told := set i | 0 <= i < |m.cells| && GroupTold(m.cells, m.group, i);
    RetoldWatched(m, r.cells, r.os, told);
    PlanShapes(m, base, blank);
    var n := m.(cells := r.cells, os := r.os);
    assert r == n.(plan := r.plan) && Watched(n) && Tight(n);
  }

  lemma PlanEnrols(m: Machine, base: seq<PageBytes>, blank: PageBytes)
    requires Inv(m, base) && Enrolled(m)
    ensures Enrolled(PlanState(m, blank))
  {
    hide PlanHeld, CellOk, Watched, PlanShaped, Picks;
    var r := PlanState(m, blank);
    if m.group == 1 {
      forall i | 0 <= i < |m.cells| && Writable(r.os[i]) ensures Enlisted(r.cells[i]) {
        assert CellOk(m.cells[i], base[i]);
        assert GroupTold(m.cells, 1, i) <==> PlanTells(m.cells[i]) by { assert SameGroup(1, i, i); }
        PlanHeldOk(m.cells[i], base[i], |Picks(CarriedBits(m.cells), i)|);
      }
    }
  }

  lemma PlanShapes(m: Machine, base: seq<PageBytes>, blank: PageBytes)
    requires Inv(m, base) && m.plan.Idle?
    ensures PlanOk(PlanState(m, blank))
  {
    var r := PlanState(m, blank);
    var bits := CarriedBits(m.cells);
    PicksSorted(bits, |m.cells|);
    forall i | 0 <= i < |m.cells| ensures OwesNothingFree(r.cells[i]) {
      assert OwesNothingFree(m.cells[i]);
      PlanHeldOk(m.cells[i], base[i], |Picks(bits, i)|);
    }
    forall i | 0 <= i < |m.cells| && r.cells[i].p.planHold != Clear
      ensures r.cells[i].p.planSlot < |r.plan.list| && r.plan.list[r.cells[i].p.planSlot] == i
    {
      PlanHeldOk(m.cells[i], base[i], |Picks(bits, i)|);
      assert bits[i];
    }
  }

  lemma SetHoldKeeps(m: Machine, base: seq<PageBytes>, i: nat, h: Hold)
    requires Inv(m, base) && i < |m.cells| && m.cells[i].p.planHold != Clear
    ensures Inv(SetHold(m, i, h), base) && (Enrolled(m) ==> Enrolled(SetHold(m, i, h)))
  {
    hide SetHold, CellsOk, Watched, Tight, PlanOk, Enrolled;
    SetHoldSound(m, base, i, h);
    if Enrolled(m) { SetHoldEnrols(m, i, h); }
  }

  lemma SetHoldEnrols(m: Machine, i: nat, h: Hold)
    requires Shaped(m) && i < |m.cells| && Enrolled(m)
    ensures Enrolled(SetHold(m, i, h))
  {
  }

  lemma SetHoldSound(m: Machine, base: seq<PageBytes>, i: nat, h: Hold)
    requires Inv(m, base) && i < |m.cells| && m.cells[i].p.planHold != Clear
    ensures Inv(SetHold(m, i, h), base)
  {
    var r := SetHold(m, i, h);
    assert CellOk(r.cells[i], base[i]);
    assert OwesNothingFree(m.cells[i]);
    RetoldWatched(m, r.cells, r.os, {});
  }

  lemma CopyByteKeeps(m: Machine, base: seq<PageBytes>, i: nat)
    requires Inv(m, base) && i < |m.cells| && m.cells[i].p.planHold.Copying? && m.cells[i].p.planHold.done < PAGESIZE
    ensures Inv(CopyByte(m, i), base) && (Enrolled(m) ==> Enrolled(CopyByte(m, i)))
  {
    hide CellOk, SameGroup, Armed, Enlisted, OwesNothingFree;
    SetHoldKeeps(m, base, i, Copying(m.cells[i].p.planHold.done + 1));
  }

  lemma FinishEnrols(m: Machine)
    requires Shaped(m) && m.plan.Open? && Enrolled(m)
    ensures Enrolled(FinishPlan(m))
  {
    hide NativeProt, Refreshed;
    var r := FinishPlan(m);
    if m.group == 1 {
      forall i | 0 <= i < |m.cells| && Writable(r.os[i]) ensures Enlisted(r.cells[i]) {
        assert GroupPlanned(m.plan.list, 1, i) <==> i in m.plan.list;
        RefreshedTold(m.cells[i]);
      }
    }
  }

  lemma FinishKeeps(m: Machine, base: seq<PageBytes>)
    requires Inv(m, base) && m.plan.Open? && forall i | 0 <= i < |m.cells| :: m.cells[i].p.planHold == Clear
    ensures Inv(FinishPlan(m), base) && (Enrolled(m) ==> Enrolled(FinishPlan(m)))
  {
    hide FinishPlan, CellsOk, Watched, Tight, PlanOk, Enrolled;
    FinishSound(m, base);
    if Enrolled(m) { FinishEnrols(m); }
  }

  lemma FinishSound(m: Machine, base: seq<PageBytes>)
    requires Inv(m, base) && m.plan.Open? && forall i | 0 <= i < |m.cells| :: m.cells[i].p.planHold == Clear
    ensures Inv(FinishPlan(m), base)
  {
    var r := FinishPlan(m);
    var told := set i | 0 <= i < |m.cells| && GroupPlanned(m.plan.list, m.group, i);
    RetoldWatched(m, r.cells, r.os, told);
    assert r == m.(cells := r.cells, os := r.os).(plan := r.plan);
  }

  // ---- epochs ----

  lemma BeginEnrols(m: Machine, base: seq<PageBytes>)
    requires Inv(m, base) && Enrolled(m)
    ensures Enrolled(EpochBegin(m))
  {
    hide Opened, CellOk, Watched, PlanShaped;
    var r := EpochBegin(m);
    if m.group == 1 {
      forall i | 0 <= i < |m.cells| && Writable(r.os[i]) ensures Enlisted(r.cells[i]) {
        assert CellOk(m.cells[i], base[i]);
        assert GroupUnheld(m.cells, 1, i) <==> m.cells[i].unheld by { assert SameGroup(1, i, i); }
        OpenedOk(m.cells[i], base[i]);
      }
    }
  }

  lemma BeginKeeps(m: Machine, base: seq<PageBytes>)
    requires Inv(m, base)
    ensures Inv(EpochBegin(m), base) && (Enrolled(m) ==> Enrolled(EpochBegin(m)))
  {
    hide EpochBegin, CellsOk, Watched, Tight, PlanOk, Enrolled;
    BeginSound(m, base);
    if Enrolled(m) { BeginEnrols(m, base); }
  }

  lemma BeginSound(m: Machine, base: seq<PageBytes>)
    requires Inv(m, base)
    ensures Inv(EpochBegin(m), base)
  {
    var r := EpochBegin(m);
    forall i | 0 <= i < |m.cells|
      ensures CellOk(r.cells[i], base[i]) && SamePlan(m.cells[i], r.cells[i]) && OwesNothingFree(r.cells[i])
      ensures r.cells[i].p.status == m.cells[i].p.status
      ensures !m.cells[i].unheld && Armed(r.cells[i].p) ==> Armed(m.cells[i].p)
    {
      assert OwesNothingFree(m.cells[i]);
      OpenedOk(m.cells[i], base[i]);
    }
    var told := set i | 0 <= i < |m.cells| && GroupUnheld(m.cells, m.group, i);
    Assemble(m, base, r.cells, r.os, told);
    assert r == m.(cells := r.cells, os := r.os).(epochActive := r.epochActive, epochNo := r.epochNo);
  }

  lemma HeatedArms(c: Cell, base: PageBytes, epochNo: nat, room: bool)
    requires CellOk(c, base)
    ensures Touched(c, Compared(c)) && Touched(c, Heated(c, epochNo, room))
  {
  }

  /** Pages changed in place, none more armed, none off its plan or its list. */
  lemma TouchedKeeps(m: Machine, base: seq<PageBytes>, cells: seq<Cell>)
    requires Inv(m, base) && |cells| == |m.cells| && CellsOk(cells, base)
    requires forall i | 0 <= i < |cells| :: Touched(m.cells[i], cells[i])
    ensures Inv(m.(cells := cells), base) && (Enrolled(m) ==> Enrolled(m.(cells := cells)))
  {
    hide CellOk;
    assert forall i | 0 <= i < |cells| :: OwesNothingFree(m.cells[i]) && Touched(m.cells[i], cells[i]);
    Assemble(m, base, cells, m.os, {});
    assert m.(cells := cells, os := m.os) == m.(cells := cells);
    if Enrolled(m) { RetoldEnrolled(m, cells, m.os, {}); }
  }

  predicate Touched(c: Cell, d: Cell) {
    SamePlan(c, d) && d.p.status == c.p.status && (Armed(d.p) ==> Armed(c.p)) && StaysListed(c, d)
  }

  lemma CompareKeeps(m: Machine, base: seq<PageBytes>)
    requires Inv(m, base)
    ensures Inv(CompareHot(m), base) && (Enrolled(m) ==> Enrolled(CompareHot(m)))
  {
    hide Compared, CellOk, Watched, Tight, PlanOk, Enrolled, Touched;
    var c := CompareHot(m);
    forall i | 0 <= i < |m.cells| ensures CellOk(c.cells[i], base[i]) && Touched(m.cells[i], c.cells[i]) {
      assert CellOk(m.cells[i], base[i]);
      HeatedOk(m.cells[i], base[i], 0, false);
      HeatedArms(m.cells[i], base[i], 0, false);
    }
    TouchedKeeps(m, base, c.cells);
  }

  lemma SaveDeltaKeeps(m: Machine, base: seq<PageBytes>)
    requires Inv(m, base)
    ensures Inv(SaveDelta(m).0, base) && (Enrolled(m) ==> Enrolled(SaveDelta(m).0))
  {
    hide CompareHot, Heated, CellOk, Watched, Tight, PlanOk, Enrolled, Touched;
    var c := CompareHot(m);
    CompareKeeps(m, base);
    var r := SaveDelta(m).0;
    assert |c.cells| == |base|;
    forall i | 0 <= i < |c.cells| ensures CellOk(r.cells[i], base[i]) && Touched(c.cells[i], r.cells[i]) {
      assert CellOk(c.cells[i], base[i]);
      HeatedOk(c.cells[i], base[i], c.epochNo, true);
      HeatedOk(c.cells[i], base[i], c.epochNo, false);
      HeatedArms(c.cells[i], base[i], c.epochNo, true);
      HeatedArms(c.cells[i], base[i], c.epochNo, false);
    }
    TouchedKeeps(c, base, r.cells);
    assert r == c.(cells := r.cells);
  }
}
