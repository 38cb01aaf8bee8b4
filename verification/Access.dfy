/** What the guest may read and run, it can: the OS's protection of every host
    page against the statuses of the machine pages in it, over every run, load
    and delta. */
module Access {
  import opened Pages
  import opened Machine
  import opened Deltas
  import opened Invariant
  import opened Restore
  import opened Runs
  import opened Sweeps
  import opened Workings
  import opened Calls
  import opened Loads

  predicate MayRead(s: Status) {
    s != StFree && s != StNone
  }

  predicate MayRun(s: Status) {
    s == StRX || s == StRWX
  }

  /** Some page of page i's host page may be read. */
  ghost predicate HostReads(cells: seq<Cell>, g: nat, i: nat)
    requires g > 0
  {
    exists j | 0 <= j < |cells| :: SameGroup(g, i, j) && MayRead(cells[j].p.status)
  }

  ghost predicate HostRuns(cells: seq<Cell>, g: nat, i: nat)
    requires g > 0
  {
    exists j | 0 <= j < |cells| :: SameGroup(g, i, j) && MayRun(cells[j].p.status)
  }

  // ---- one page, one host page ----

  /** Tracking takes away writing only. */
  lemma NativeAccess(p: Page)
    ensures NativeProt(p) != NoAccess <==> MayRead(p.status)
    ensures Executable(NativeProt(p)) <==> MayRun(p.status)
    ensures Writable(NativeProt(p)) ==> Tracked(p.status)
  {
  }

  /** A host page can be run exactly when some page of it may be, and read
      exactly when some page of it may be. */
  lemma GroupAccess(cells: seq<Cell>, g: nat, i: nat)
    requires g > 0 && i < |cells|
    ensures Executable(GroupProt(cells, g, i)) <==> HostRuns(cells, g, i)
    ensures GroupProt(cells, g, i) != NoAccess <==> HostReads(cells, g, i)
  {
    hide NativeProt, MayRead, MayRun;
    forall j | 0 <= j < |cells|
      ensures NativeProt(cells[j].p) != NoAccess <==> MayRead(cells[j].p.status)
      ensures Executable(NativeProt(cells[j].p)) <==> MayRun(cells[j].p.status)
    {
      NativeAccess(cells[j].p);
    }
    assert SameGroup(g, i, i);
    if g == 1 {
      forall j | 0 <= j < |cells| && SameGroup(g, i, j) ensures j == i {}
    } else {
      assert GroupRuns(cells, g, i) <==> HostRuns(cells, g, i);
      assert GroupReads(cells, g, i) <==> HostReads(cells, g, i);
    }
  }

  // ---- the whole block ----

  /** Of every page: the OS lets its host page be run exactly when some page of
      it may be run, and read exactly when some page of it may be read. */
  ghost predicate Served(m: Machine)
    requires Shaped(m)
  {
    forall i | 0 <= i < |m.cells| ::
      && (Executable(m.os[i]) <==> HostRuns(m.cells, m.group, i))
      && (m.os[i] != NoAccess <==> HostReads(m.cells, m.group, i))
  }

  /** So no page faults for being read or run that may be; and where a host page
      is one machine page, every other does. */
  lemma ServedPage(m: Machine, i: nat)
    requires Shaped(m) && Served(m) && i < |m.cells|
    ensures MayRead(m.cells[i].p.status) ==> m.os[i] != NoAccess
    ensures MayRun(m.cells[i].p.status) ==> Executable(m.os[i])
    ensures m.group == 1 ==> (m.os[i] != NoAccess <==> MayRead(m.cells[i].p.status)) && (Executable(m.os[i]) <==> MayRun(m.cells[i].p.status))
  {
    assert SameGroup(m.group, i, i);
  }

  predicate SameAccess(a: Status, b: Status) {
    MayRead(a) == MayRead(b) && MayRun(a) == MayRun(b)
  }

  /** Telling some host pages, where no page of another may be read or run that
      could not, or the other way round. */
  lemma ToldServes(m: Machine, cells: seq<Cell>, os: seq<Prot>, told: set<nat>)
    requires Shaped(m) && Served(m) && |cells| == |os| == |m.cells|
    requires forall i | 0 <= i < |cells| && i in told :: os[i] == GroupProt(cells, m.group, i)
    requires forall i | 0 <= i < |cells| && i !in told :: os[i] == m.os[i]
    requires forall i, j | 0 <= i < |cells| && 0 <= j < |cells| && i !in told && SameGroup(m.group, i, j) ::
               SameAccess(m.cells[j].p.status, cells[j].p.status)
    ensures Served(m.(cells := cells, os := os))
  {
    hide GroupProt, MayRead, MayRun;
    forall i | 0 <= i < |cells|
      ensures Executable(os[i]) <==> HostRuns(cells, m.group, i)
      ensures os[i] != NoAccess <==> HostReads(cells, m.group, i)
    {
      if i in told {
        GroupAccess(cells, m.group, i);
      } else {
        assert HostRuns(cells, m.group, i) <==> HostRuns(m.cells, m.group, i);
        assert HostReads(cells, m.group, i) <==> HostReads(m.cells, m.group, i);
      }
    }
  }

  /** Statuses all as they were. */
  predicate SameStatuses(a: seq<Cell>, b: seq<Cell>) {
    |a| == |b| && forall i | 0 <= i < |a| :: a[i].p.status == b[i].p.status
  }

  lemma SameServes(m: Machine, r: Machine)
    requires Shaped(m) && Served(m) && Shaped(r) && SameStatuses(m.cells, r.cells) && r.group == m.group && r.os == m.os
    ensures Served(r)
  {
    forall i | 0 <= i < |m.cells|
      ensures HostRuns(r.cells, m.group, i) <==> HostRuns(m.cells, m.group, i)
      ensures HostReads(r.cells, m.group, i) <==> HostReads(m.cells, m.group, i)
    {
    }
  }

  lemma RefreshServes(m: Machine, cells: seq<Cell>, lo: nat, hi: nat)
    requires Shaped(m) && Served(m) && |cells| == |m.cells| && lo <= hi <= |cells|
    requires forall i | 0 <= i < |cells| && !(lo <= i < hi) :: cells[i].p.status == m.cells[i].p.status
    ensures Served(m.(cells := cells, os := RefreshOs(cells, m.group, m.os, lo, hi)))
  {
    hide GroupProt;
    var told := set i | 0 <= i < |cells| && Touches(m.group, i, lo, hi);
    ToldServes(m, cells, RefreshOs(cells, m.group, m.os, lo, hi), told);
  }

  // ---- the steps ----

  lemma ProtectServes(m: Machine, lo: nat, hi: nat, s: Status)
    requires Shaped(m) && Served(m) && lo <= hi <= |m.cells|
    ensures Served(Protect(m, lo, hi, s))
  {
    hide Protected, RefreshOs, Served;
    RefreshServes(m, Protect(m, lo, hi, s).cells, lo, hi);
  }

  lemma GiveBackServes(m: Machine, lo: nat, hi: nat, adviseOnly: bool)
    requires Shaped(m) && Served(m) && lo <= hi <= |m.cells|
    ensures Served(GiveBack(m, lo, hi, adviseOnly))
  {
    hide GivenBack, RefreshOs, Served;
    RefreshServes(m, GiveBack(m, lo, hi, adviseOnly).cells, lo, hi);
  }

  lemma LandStatus(c: Cell, active: bool, s: Status, hidden: bool, bytes: PageBytes)
    ensures Landed(c, active, s, hidden, bytes).p.status == Protected(c, active, s).p.status == s
  {
    hide NativeProt;
  }

  lemma LandServes(m: Machine, i: nat, s: Status, hidden: bool, bytes: PageBytes)
    requires Shaped(m) && Served(m) && i < |m.cells|
    ensures Served(Land(m, i, s, hidden, bytes))
  {
    hide Protect, Land, Landed, Protected, Served;
    ProtectServes(m, i, i + 1, s);
    LandIsSwap(m, i, s, hidden, bytes);
    LandStatus(m.cells[i], m.epochActive, s, hidden, bytes);
    var told := Protect(m, i, i + 1, s);
    ProtectShape(m, i, i + 1, s);
    SameServes(told, Land(m, i, s, hidden, bytes));
  }

  lemma ProtectShape(m: Machine, lo: nat, hi: nat, s: Status)
    requires Shaped(m) && lo <= hi <= |m.cells|
    ensures Shaped(Protect(m, lo, hi, s))
  {
  }

  lemma LetGoStatus(c: Cell, active: bool)
    ensures LetGo(c, active).p.status == c.p.status
  {
  }

  lemma WriteServes(m: Machine, i: nat, bytes: PageBytes, also: set<nat>)
    requires Shaped(m) && Served(m) && i < |m.cells|
    ensures Served(GuestWrite(m, i, bytes, also))
  {
    hide LetGo, GroupProt, Served;
    var t := Trip(m, i, also);
    forall q | 0 <= q < |m.cells| ensures t.cells[q].p.status == m.cells[q].p.status { LetGoStatus(m.cells[q], m.epochActive); }
    RefreshServes(m, t.cells, i, i + 1);
    assert Shaped(t) && t == m.(cells := t.cells, os := t.os);
    var w := if Writable(m.os[i]) then m else t;
    SameServes(w, Store(w, i, bytes));
  }

  lemma PlanStatus(c: Cell, slot: nat)
    ensures PlanHeld(c, slot).p.status == c.p.status && Refreshed(c).p.status == c.p.status && Opened(c).p.status == c.p.status
  {
    hide NativeProt;
  }

  lemma PlanServes(m: Machine, blank: PageBytes)
    requires Shaped(m) && Served(m)
    ensures Served(PlanState(m, blank))
  {
    hide PlanHeld, GroupProt, Served, Picks;
    var r := PlanState(m, blank);
    forall i | 0 <= i < |m.cells| ensures r.cells[i].p.status == m.cells[i].p.status {
      PlanStatus(m.cells[i], |Picks(CarriedBits(m.cells), i)|);
    }
    var told := set i | 0 <= i < |m.cells| && GroupTold(m.cells, m.group, i);
    ToldServes(m, r.cells, r.os, told);
    SameServes(m.(cells := r.cells, os := r.os), r);
  }

  lemma FinishServes(m: Machine)
    requires Shaped(m) && Served(m) && m.plan.Open?
    ensures Served(FinishPlan(m))
  {
    hide Refreshed, GroupProt, Served;
    var r := FinishPlan(m);
    forall i | 0 <= i < |m.cells| ensures r.cells[i].p.status == m.cells[i].p.status { PlanStatus(m.cells[i], 0); }
    var told := set i | 0 <= i < |m.cells| && GroupPlanned(m.plan.list, m.group, i);
    ToldServes(m, r.cells, r.os, told);
    SameServes(m.(cells := r.cells, os := r.os), r);
  }

  lemma BeginServes(m: Machine)
    requires Shaped(m) && Served(m)
    ensures Served(EpochBegin(m))
  {
    hide Opened, GroupProt, Served;
    var r := EpochBegin(m);
    forall i | 0 <= i < |m.cells| ensures r.cells[i].p.status == m.cells[i].p.status { PlanStatus(m.cells[i], 0); }
    var told := set i | 0 <= i < |m.cells| && GroupUnheld(m.cells, m.group, i);
    ToldServes(m, r.cells, r.os, told);
    SameServes(m.(cells := r.cells, os := r.os), r);
  }

  lemma HeatStatus(c: Cell, epochNo: nat, room: bool)
    ensures Compared(c).p.status == c.p.status && Heated(c, epochNo, room).p.status == c.p.status
  {
  }

  lemma SaveServes(m: Machine)
    requires Shaped(m) && Served(m)
    ensures Served(SaveDelta(m).0)
  {
    hide Compared, Heated, Served, DeltaOf;
    var r := SaveDelta(m).0;
    forall i | 0 <= i < |m.cells| ensures r.cells[i].p.status == m.cells[i].p.status {
      HeatStatus(m.cells[i], 0, true);
      HeatStatus(Compared(m.cells[i]), m.epochNo, true);
      HeatStatus(Compared(m.cells[i]), m.epochNo, false);
    }
    SameServes(m, r);
  }

  lemma StepServes(m: Machine, s: Step)
    requires Shaped(m) && Served(m) && Enabled(m, s)
    ensures Served(Next(m, s))
  {
    hide Served, Protect, GiveBack, Land, GuestWrite, PlanState, FinishPlan, EpochBegin, SaveDelta;
    match s
    case Write(i, bytes, also) => WriteServes(m, i, bytes, also);
    case Reprotect(lo, hi, st) => ProtectServes(m, lo, hi, st);
    case Release(lo, hi, a) => GiveBackServes(m, lo, hi, a);
    case LandOn(i, st, hidden, bytes) => LandServes(m, i, st, hidden, bytes);
    case PlanNow(blank) => PlanServes(m, blank);
    case EndPlan => FinishServes(m);
    case OpenEpoch => BeginServes(m);
    case EmitDelta => SaveServes(m);
    case _ => SameServes(m, Next(m, s));
  }

  /** Over every run, what may be read or run can be. */
  lemma {:induction false} RunServes(m: Machine, steps: seq<Step>)
    requires Shaped(m) && Served(m) && CanRun(m, steps)
    ensures Served(Run(m, steps))
    decreases |steps|
  {
    hide Served, Next, Enabled;
    if steps != [] {
      StepServes(m, steps[0]);
      RunServes(Next(m, steps[0]), steps[1..]);
    }
  }

  // ---- new, sealed, loaded, moved ----

  lemma NewServes(n: nat, group: nat)
    requires group > 0
    ensures Served(NewMachine(n, group))
  {
  }

  lemma HideServes(m: Machine, lo: nat, hi: nat)
    requires Shaped(m) && Served(m) && lo <= hi <= |m.cells|
    ensures Served(Hide(m, lo, hi))
  {
    hide RefreshOs, Served, Refreshed;
    RefreshServes(m, Hide(m, lo, hi).cells, lo, hi);
  }

  /** A seal tells every host page, so it needs nothing. */
  lemma SealServes(m: Machine)
    requires Shaped(m)
    ensures Served(Seal(m))
  {
    hide SealedCell, GroupProt;
    var r := Seal(m);
    forall i | 0 <= i < |m.cells|
      ensures Executable(r.os[i]) <==> HostRuns(r.cells, m.group, i)
      ensures r.os[i] != NoAccess <==> HostReads(r.cells, m.group, i)
    {
      assert SameGroup(m.group, i, i);
      assert Touches(m.group, i, 0, |m.cells|);
      GroupAccess(r.cells, m.group, i);
    }
  }

  lemma StillAccess(p: Page, q: Page)
    requires NativeProt(p) == NativeProt(q)
    ensures SameAccess(p.status, q.status)
  {
    NativeAccess(p);
    NativeAccess(q);
  }

  /** A sweep tells only host pages a protection moved in, and that is enough. */
  lemma SweptServes(m: Machine, cells: seq<Cell>)
    requires Shaped(m) && Served(m) && |cells| == |m.cells|
    ensures Served(Swept(m, cells))
  {
    hide NativeProt, GroupProt, Served, Refreshed;
    var r := Swept(m, cells);
    forall i | 0 <= i < |cells| ensures r.cells[i].p.status == cells[i].p.status { PlanStatus(cells[i], 0); }
    var told := set i | 0 <= i < |cells| && GroupMoved(m.cells, cells, m.group, i);
    forall i, j | 0 <= i < |cells| && 0 <= j < |cells| && i !in told && SameGroup(m.group, i, j)
      ensures SameAccess(m.cells[j].p.status, cells[j].p.status)
    {
      assert !Moved(m.cells, cells, j);
      StillAccess(m.cells[j].p, cells[j].p);
    }
    ToldServes(m, cells, r.os, told);
    SameServes(m.(cells := cells, os := r.os), r);
  }

  lemma ClearServes(m: Machine)
    requires Shaped(m) && Served(m)
    ensures Served(EpochClear(m))
  {
    hide Served;
    SameServes(m, EpochClear(m));
  }

  /** Loading any state that fits, though it may leave a hole in the watch. */
  lemma LoadServes(m: Machine, st: State)
    requires Shaped(m) && Served(m) && Fits(m.cells, st)
    ensures Served(LoadState(m, st))
  {
    hide Served, Swept, LoadedCells;
    ClearServes(m);
    var clear := EpochClear(m);
    assert BroughtBits(clear.cells, st.dirty) == BroughtBits(m.cells, st.dirty);
    SweptServes(clear, LoadedCells(clear.cells, st));
  }

  /** Applying any delta. */
  lemma ApplyServes(m: Machine, d: Delta)
    requires Shaped(m) && Served(m)
    ensures Served(ApplyDelta(m, d))
  {
    hide Served, Restatused, Patched;
    var m1 := Swept(m, Restatused(m.cells, d));
    SweptServes(m, Restatused(m.cells, d));
    SweptServes(m1, Patched(m1.cells, d));
    ClearServes(Swept(m1, Patched(m1.cells, d)));
  }

  /** A page of a host page nobody is told about may be read and run as before. */
  lemma UntoldAccess(m: Machine, st: State, f: nat, partial: PageBytes, i: nat, j: nat)
    requires m.group > 0 && |st.status| == |st.dirty| == |m.cells| && i < |m.cells| && j < |m.cells| && SameGroup(m.group, i, j)
    requires !GroupNoted(MovedBelow(m.cells, LoadGoal(m.cells, st, f, partial), f), m.group, i)
    ensures SameAccess(m.cells[j].p.status, LoadGoal(m.cells, st, f, partial)[j].p.status)
  {
    hide NativeProt, LoadedCell, FailedCell, StreamBytes, SameAccess, SameGroup;
    var goal := LoadGoal(m.cells, st, f, partial);
    assert !MovedBelow(m.cells, goal, f)[j];
    if j < f { StillAccess(m.cells[j].p, goal[j].p); } else { FailedAccess(m.cells[j], partial); }
  }

  lemma FailedAccess(c: Cell, partial: PageBytes)
    ensures SameAccess(c.p.status, c.p.status) && SameAccess(c.p.status, FailedCell(c, partial).p.status)
  {
    FailedStatus(c, partial);
  }

  /** A load cut off anywhere. */
  lemma CutLoadServes(m: Machine, st: State, partial: PageBytes)
    requires Shaped(m) && Served(m) && |st.status| == |st.dirty| == |m.cells|
    ensures Served(Loaded(m, st, partial))
  {
    hide NativeProt, GroupProt, Served, Refreshed, LoadedCell, FailedCell, FailsFrom, LoadGoal, MovedBelow, SameAccess, SameGroup, GroupNoted;
    var f := FailsFrom(m.cells, st, 0);
    var goal := LoadGoal(m.cells, st, f, partial);
    var noted := MovedBelow(m.cells, goal, f);
    var r := Loaded(m, st, partial);
    forall i | 0 <= i < |goal| ensures r.cells[i].p.status == goal[i].p.status { PlanStatus(goal[i], 0); }
    var told := set i | 0 <= i < |goal| && GroupNoted(noted, m.group, i);
    forall i, j | 0 <= i < |goal| && 0 <= j < |goal| && i !in told && SameGroup(m.group, i, j)
      ensures SameAccess(m.cells[j].p.status, goal[j].p.status)
    {
      UntoldAccess(m, st, f, partial, i, j);
    }
    forall i | 0 <= i < |goal| && i in told ensures r.os[i] == GroupProt(goal, m.group, i) {}
    ToldServes(m, goal, r.os, told);
    SameServes(m.(cells := goal, os := r.os), r);
  }

  // ---- the guest's calls ----

  lemma TakeInServes(m: Machine, which: set<nat>)
    requires Shaped(m) && PlanShaped(m) && Served(m)
    ensures Shaped(TakeIn(m, which)) && Served(TakeIn(m, which)) && TakeIn(m, which).plan.Open? == m.plan.Open?
  {
    hide Served, DestTaken;
    SameServes(m, TakeIn(m, which));
  }

  lemma UnmapServes(m: Machine, lo: nat, hi: nat, adviseOnly: bool)
    requires Shaped(m) && PlanShaped(m) && Served(m) && lo <= hi <= |m.cells|
    ensures Shaped(Unmap(m, lo, hi, adviseOnly)) && Served(Unmap(m, lo, hi, adviseOnly))
  {
    hide Served, DestTaken, RefreshOs, GivenBack;
    TakeInServes(m, Range(lo, hi));
    GiveBackServes(TakeIn(m, Range(lo, hi)), lo, hi, adviseOnly);
    UnmapGroup(m, lo, hi, adviseOnly);
  }

  lemma MapFixedServes(m: Machine, lo: nat, hi: nat, s: Status, zeroOverlap: bool)
    requires Shaped(m) && PlanShaped(m) && Served(m) && lo <= hi <= |m.cells|
    ensures Shaped(MapFixed(m, lo, hi, s, zeroOverlap)) && Served(MapFixed(m, lo, hi, s, zeroOverlap))
  {
    hide Served, DestTaken, RefreshOs, Protected, Overlaid, TakenIn, Touches;
    if !zeroOverlap {
      ProtectServes(m, lo, hi, s);
      ProtectShape(m, lo, hi, s);
    } else {
      var r := MapFixed(m, lo, hi, s, true);
      RefreshServes(m, r.cells, lo, hi);
      RefreshShape(r.cells, m.group, m.os, lo, hi);
      SameServes(m.(cells := r.cells, os := r.os), r);
    }
  }

  lemma RefreshShape(cells: seq<Cell>, g: nat, os: seq<Prot>, lo: nat, hi: nat)
    requires g > 0 && |os| == |cells|
    ensures |RefreshOs(cells, g, os, lo, hi)| == |cells|
  {
  }

  lemma {:induction false} LandRunServes(m: Machine, lo: nat, count: nat, to: nat, k: nat)
    requires Shaped(m) && Served(m) && count > 0 && lo + count <= |m.cells| && to + k <= |m.cells|
    ensures Served(LandRun(m, lo, count, to, k))
    decreases k
  {
    hide Served, Land;
    if k > 0 {
      LandRunServes(m, lo, count, to, k - 1);
      var c := m.cells[MoveSource(lo, count, k - 1)];
      LandServes(LandRun(m, lo, count, to, k - 1), to + k - 1, c.p.status, c.p.invisible, if k - 1 < count then c.mem else Zeros());
    }
  }

  lemma MoveServes(m: Machine, lo: nat, count: nat, to: nat, newCount: nat)
    requires Shaped(m) && PlanShaped(m) && Served(m) && count > 0 && lo + count <= |m.cells| && to + newCount <= |m.cells|
    ensures Shaped(MoveTo(m, lo, count, to, newCount)) && Served(MoveTo(m, lo, count, to, newCount))
  {
    hide Served, LandRun, Unmap, PlanShaped;
    LandRunServes(m, lo, count, to, newCount);
    var r := LandRun(m, lo, count, to, newCount);
    if PlanShaped(r) { UnmapServes(r, lo, lo + count, false); }
  }

  lemma ReadiedServes(m: Machine)
    requires Shaped(m) && PlanShaped(m) && Served(m)
    ensures Shaped(Readied(m)) && Served(Readied(m))
  {
    hide Served, TakeIn, FinishPlan;
    ReadiedLength(m);
    if m.plan.Idle? {
      ClearServes(m);
    } else {
      var t := TakeIn(m, Listed(m.plan.list, 0, |m.plan.list|));
      TakeInServes(m, Listed(m.plan.list, 0, |m.plan.list|));
      FinishServes(t);
      ClearServes(FinishPlan(t));
    }
  }

  lemma FailedStatus(c: Cell, partial: PageBytes)
    ensures FailedCell(c, partial).p.status == c.p.status
  {
  }
}
