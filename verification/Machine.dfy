/** The whole block as a value: its pages, what the OS was told about each host
    page, the open epoch and the planned state; and one function per operation.
    The class in Block.dfy is proved to compute exactly these functions. */
module Machine {
  import opened Pages

  /** A planned state: the maps as they were when it was asked for, the pages
      it carries in ascending order, and the buffer their bytes go to. */
  datatype Plan = Idle | Open(status: seq<Status>, dirty: seq<bool>, list: seq<nat>, dest: seq<PageBytes>)

  /** `group` is how many machine pages share one host page. `os[i]` is the
      protection of the host page that holds page i. */
  datatype Machine = Machine(
    cells: seq<Cell>,
    group: nat,
    os: seq<Prot>,
    epochActive: bool,
    epochNo: nat,
    plan: Plan)

  /** A savestate's content: both maps and the bytes of the dirty visible pages. */
  datatype State = State(status: seq<Status>, dirty: seq<bool>, data: seq<PageBytes>)

  // ---- ascending lists of set bits ----

  /** The indices below k whose bit is set, ascending. */
  function Picks(bits: seq<bool>, k: nat): (r: seq<nat>)
    requires k <= |bits|
    ensures |r| <= k
    ensures forall j | 0 <= j < |r| :: r[j] < k && bits[r[j]]
  {
    if k == 0 then []
    else if bits[k - 1] then Picks(bits, k - 1) + [k - 1]
    else Picks(bits, k - 1)
  }

  /** The list of set bits is strictly ascending, and a set bit i stands in it
      at the position that counts the set bits below i. */
  lemma {:induction false} PicksSorted(bits: seq<bool>, k: nat)
    requires k <= |bits|
    ensures forall a, b | 0 <= a < b < |Picks(bits, k)| :: Picks(bits, k)[a] < Picks(bits, k)[b]
    ensures forall i | 0 <= i < k && bits[i] ::
              |Picks(bits, i)| < |Picks(bits, k)| && Picks(bits, k)[|Picks(bits, i)|] == i
  {
    if k > 0 {
      PicksSorted(bits, k - 1);
      var was, now := Picks(bits, k - 1), Picks(bits, k);
      forall i | 0 <= i < k && bits[i] ensures |Picks(bits, i)| < |now| && now[|Picks(bits, i)|] == i {
        assert i < k - 1 ==> |Picks(bits, i)| < |was| && was[|Picks(bits, i)|] == i;
      }
    }
  }

  // ---- host pages ----

  predicate SameGroup(g: nat, i: nat, j: nat)
    requires g > 0
  {
    i / g == j / g
  }

  predicate Executable(prot: Prot) {
    prot == ReadExec || prot == ReadWriteExec
  }

  ghost predicate GroupArmed(cells: seq<Cell>, g: nat, i: nat)
    requires g > 0
  {
    exists j | 0 <= j < |cells| :: SameGroup(g, i, j) && Armed(cells[j].p)
  }

  ghost predicate GroupWants(cells: seq<Cell>, g: nat, i: nat)
    requires g > 0
  {
    exists j | 0 <= j < |cells| :: SameGroup(g, i, j) && Writable(NativeProt(cells[j].p))
  }

  ghost predicate GroupRuns(cells: seq<Cell>, g: nat, i: nat)
    requires g > 0
  {
    exists j | 0 <= j < |cells| :: SameGroup(g, i, j) && Executable(NativeProt(cells[j].p))
  }

  ghost predicate GroupReads(cells: seq<Cell>, g: nat, i: nat)
    requires g > 0
  {
    exists j | 0 <= j < |cells| :: SameGroup(g, i, j) && NativeProt(cells[j].p) != NoAccess
  }

  /** One protection for a whole host page: read and execute are the union,
      write only when some page wants it and none is armed. */
  ghost function GroupProt(cells: seq<Cell>, g: nat, i: nat): Prot
    requires g > 0 && i < |cells|
  {
    if g == 1 then NativeProt(cells[i].p)
    else
      var w := GroupWants(cells, g, i) && !GroupArmed(cells, g, i);
      if GroupRuns(cells, g, i) then (if w then ReadWriteExec else ReadExec)
      else if w then ReadWrite
      else if GroupReads(cells, g, i) then Read else NoAccess
  }

  ghost predicate Touches(g: nat, i: nat, lo: nat, hi: nat)
    requires g > 0
  {
    exists j: nat | lo <= j < hi :: SameGroup(g, i, j)
  }

  /** The OS after every host page that holds a page of [lo, hi) was told again. */
  ghost function RefreshOs(cells: seq<Cell>, g: nat, os: seq<Prot>, lo: nat, hi: nat): (r: seq<Prot>)
    requires g > 0 && |os| == |cells|
  {
    seq(|cells|, i requires 0 <= i < |cells| => if Touches(g, i, lo, hi) then GroupProt(cells, g, i) else os[i])
  }

  /** Between two moments, a page whose own protection moved. */
  predicate Moved(before: seq<Cell>, after: seq<Cell>, j: nat)
    requires |before| == |after| && j < |before|
  {
    NativeProt(before[j].p) != NativeProt(after[j].p)
  }

  ghost predicate GroupMoved(before: seq<Cell>, after: seq<Cell>, g: nat, i: nat)
    requires |before| == |after| && g > 0
  {
    exists j | 0 <= j < |before| :: SameGroup(g, i, j) && Moved(before, after, j)
  }

  /** A load or a delta put `cells` in place of the machine's pages: only pages
      whose protection moved are refreshed, and only their host pages told. */
  ghost function Swept(m: Machine, cells: seq<Cell>): Machine
    requires |cells| == |m.cells| == |m.os| && m.group > 0
  {
    m.(cells := seq(|cells|, i requires 0 <= i < |cells| =>
                      if Moved(m.cells, cells, i) then Refreshed(cells[i]) else cells[i]),
       os := seq(|cells|, i requires 0 <= i < |cells| =>
                   if GroupMoved(m.cells, cells, m.group, i) then GroupProt(cells, m.group, i) else m.os[i]))
  }

  /** The same pages visible. */
  predicate SameVisibility(a: seq<Cell>, b: seq<Cell>) {
    |a| == |b| && forall i | 0 <= i < |a| :: a[i].p.invisible == b[i].p.invisible
  }

  ghost predicate Shaped(m: Machine) {
    m.group > 0 && |m.os| == |m.cells|
  }

  // ---- the guest ----

  /** set_protections: mmap, mprotect and an mremap that grows in place. */
  ghost function Protect(m: Machine, lo: nat, hi: nat, s: Status): Machine
    requires Shaped(m) && lo <= hi <= |m.cells|
  {
    var cells := seq(|m.cells|, i requires 0 <= i < |m.cells| =>
                       if lo <= i < hi then Protected(m.cells[i], m.epochActive, s) else m.cells[i]);
    m.(cells := cells, os := RefreshOs(cells, m.group, m.os, lo, hi))
  }

  /** free_pages: munmap, or MADV_DONTNEED when adviseOnly. */
  ghost function GiveBack(m: Machine, lo: nat, hi: nat, adviseOnly: bool): Machine
    requires Shaped(m) && lo <= hi <= |m.cells|
  {
    var cells := seq(|m.cells|, i requires 0 <= i < |m.cells| =>
                       if lo <= i < hi then GivenBack(m.cells[i], m.epochActive, adviseOnly) else m.cells[i]);
    m.(cells := cells, os := RefreshOs(cells, m.group, m.os, lo, hi))
  }

  /** A page mremap moves into: protected first, then marked and filled. */
  ghost function Land(m: Machine, i: nat, s: Status, hidden: bool, bytes: PageBytes): Machine
    requires Shaped(m) && i < |m.cells|
  {
    var told := Protect(m, i, i + 1, s);
    m.(cells := m.cells[i := Landed(m.cells[i], m.epochActive, s, hidden, bytes)], os := told.os)
  }

  /** A page of page i's host page that a write fault on i finds held. */
  predicate FoundHeld(cells: seq<Cell>, g: nat, i: nat, q: nat)
    requires g > 0 && i < |cells| && q < |cells|
  {
    SameGroup(g, i, q) && Tracked(cells[q].p.status) && (q == i || !Writable(NativeProt(cells[q].p)))
  }

  /** The pages the fault lets go: those held now, and those in `also`, which
      were held until the handler copied them for the planned state. */
  predicate LetsGo(cells: seq<Cell>, g: nat, i: nat, also: set<nat>, q: nat)
    requires g > 0 && i < |cells| && q < |cells|
  {
    FoundHeld(cells, g, i, q) || (q in also && SameGroup(g, i, q) && Tracked(cells[q].p.status))
  }

  /** trip: a write fault on page i. */
  ghost function Trip(m: Machine, i: nat, also: set<nat>): Machine
    requires Shaped(m) && i < |m.cells|
  {
    var cells := seq(|m.cells|, q requires 0 <= q < |m.cells| =>
                       if LetsGo(m.cells, m.group, i, also, q) then LetGo(m.cells[q], m.epochActive) else m.cells[q]);
    m.(cells := cells, os := RefreshOs(cells, m.group, m.os, i, i + 1))
  }

  ghost function Store(m: Machine, i: nat, bytes: PageBytes): Machine
    requires Shaped(m) && i < |m.cells|
  {
    m.(cells := m.cells[i := m.cells[i].(mem := bytes)])
  }

  /** A guest write: straight through when the OS lets it, after the fault
      handler when it does not. */
  ghost function GuestWrite(m: Machine, i: nat, bytes: PageBytes, also: set<nat>): Machine
    requires Shaped(m) && i < |m.cells|
  {
    Store(if Writable(m.os[i]) then m else Trip(m, i, also), i, bytes)
  }

  // ---- epochs ----

  ghost predicate GroupUnheld(cells: seq<Cell>, g: nat, i: nat)
    requires g > 0
  {
    exists j | 0 <= j < |cells| :: SameGroup(g, i, j) && cells[j].unheld
  }

  ghost function EpochBegin(m: Machine): Machine
    requires Shaped(m)
  {
    var cells := seq(|m.cells|, i requires 0 <= i < |m.cells| => Opened(m.cells[i]));
    m.(cells := cells, epochActive := true, epochNo := (m.epochNo + 1) % 65536,
       os := seq(|m.cells|, i requires 0 <= i < |m.cells| =>
                   if GroupUnheld(m.cells, m.group, i)
                   then GroupProt(cells, m.group, i) else m.os[i]))
  }

  function EpochClear(m: Machine): Machine {
    m.(cells := seq(|m.cells|, i requires 0 <= i < |m.cells| => Forgotten(m.cells[i])), epochActive := false)
  }

  /** What the hot pages did, by looking. */
  function CompareHot(m: Machine): Machine {
    m.(cells := seq(|m.cells|, i requires 0 <= i < |m.cells| => Compared(m.cells[i])))
  }

  function CountHot(cells: seq<Cell>): (n: nat)
  {
    if cells == [] then 0
    else CountHot(cells[..|cells| - 1]) + (if cells[|cells| - 1].p.hot then 1 else 0)
  }

  /** heat_written_pages, on the pages below k. */
  function HeatBelow(cells: seq<Cell>, epochNo: nat, k: nat): (r: seq<Cell>)
    requires k <= |cells|
    ensures |r| == |cells|
    ensures forall i | k <= i < |cells| :: r[i] == cells[i]
    ensures forall i | 0 <= i < k ::
              r[i] == Heated(cells[i], epochNo, true) || r[i] == Heated(cells[i], epochNo, false)
  {
    if k == 0 then cells
    else
      var rest := HeatBelow(cells, epochNo, k - 1);
      rest[k - 1 := Heated(rest[k - 1], epochNo, CountHot(rest) < HOT_MOST)]
  }

  // ---- whole-machine states ----

  predicate Carried(c: Cell) {
    c.p.dirty && !c.p.invisible
  }

  function CarriedBits(cells: seq<Cell>): (r: seq<bool>)
    ensures |r| == |cells|
  {
    seq(|cells|, i requires 0 <= i < |cells| => Carried(cells[i]))
  }

  function StatusMap(cells: seq<Cell>): (r: seq<Status>) {
    seq(|cells|, i requires 0 <= i < |cells| => cells[i].p.status)
  }

  function DirtyMap(cells: seq<Cell>): (r: seq<bool>) {
    seq(|cells|, i requires 0 <= i < |cells| => cells[i].p.dirty)
  }

  /** The bytes of the pages in `list`. */
  function BytesOf(cells: seq<Cell>, list: seq<nat>): (r: seq<PageBytes>)
    requires forall k | 0 <= k < |list| :: list[k] < |cells|
  {
    seq(|list|, k requires 0 <= k < |list| => cells[list[k]].mem)
  }

  /** mb_block_save_state. */
  function SaveState(m: Machine): State {
    State(StatusMap(m.cells), DirtyMap(m.cells), BytesOf(m.cells, Picks(CarriedBits(m.cells), |m.cells|)))
  }

  /** Which pages a state brings bytes for, on a machine with these pages. */
  function BroughtBits(cells: seq<Cell>, dirty: seq<bool>): (r: seq<bool>)
    requires |dirty| == |cells|
  {
    seq(|cells|, i requires 0 <= i < |cells| => dirty[i] && !cells[i].p.invisible)
  }

  predicate Fits(cells: seq<Cell>, st: State) {
    && |st.status| == |st.dirty| == |cells|
    && |st.data| == |Picks(BroughtBits(cells, st.dirty), |cells|)|
  }

  function BroughtBytes(cells: seq<Cell>, st: State, i: nat): PageBytes
    requires Fits(cells, st) && i < |cells|
  {
    var bits := BroughtBits(cells, st.dirty);
    if bits[i] then
      PicksSorted(bits, |cells|);
      st.data[|Picks(bits, i)|]
    else Zeros()
  }

  function LoadedCells(cells: seq<Cell>, st: State): (r: seq<Cell>)
    requires Fits(cells, st)
    ensures |r| == |cells|
  {
    seq(|cells|, i requires 0 <= i < |cells| =>
          LoadedCell(cells[i], st.status[i], st.dirty[i], BroughtBytes(cells, st, i)))
  }

  /** mb_block_load_state, the plan already finished. */
  ghost function LoadState(m: Machine, st: State): Machine
    requires Shaped(m) && Fits(m.cells, st)
  {
    var clear := EpochClear(m);
    assert BroughtBits(clear.cells, st.dirty) == BroughtBits(m.cells, st.dirty);
    Swept(clear, LoadedCells(clear.cells, st))
  }

  // ---- a state taken while the machine runs ----

  /** Where page i goes in the plan: how many carried pages are below it. */
  function PlannedCell(cells: seq<Cell>, i: nat): Cell
    requires i < |cells|
  {
    if Carried(cells[i]) then PlanHeld(cells[i], |Picks(CarriedBits(cells), i)|) else cells[i]
  }

  predicate PlanTells(c: Cell) {
    Carried(c) && Tracked(c.p.status)
  }

  ghost predicate GroupTold(cells: seq<Cell>, g: nat, i: nat)
    requires g > 0
  {
    exists j | 0 <= j < |cells| :: SameGroup(g, i, j) && PlanTells(cells[j])
  }

  /** state_plan_impl: the maps copied, every carried page held or copied. A
      buffer slot nobody has filled yet holds `blank`. */
  ghost function PlanState(m: Machine, blank: PageBytes): Machine
    requires Shaped(m)
  {
    var list := Picks(CarriedBits(m.cells), |m.cells|);
    var cells := seq(|m.cells|, i requires 0 <= i < |m.cells| => PlannedCell(m.cells, i));
    m.(cells := cells,
       os := seq(|m.cells|, i requires 0 <= i < |m.cells| =>
                   if GroupTold(m.cells, m.group, i)
                   then GroupProt(cells, m.group, i) else m.os[i]),
       plan := Open(StatusMap(m.cells), DirtyMap(m.cells), list,
                    seq(|list|, k requires 0 <= k < |list| =>
                          if Tracked(m.cells[list[k]].p.status) then blank else m.cells[list[k]].mem)))
  }

  predicate PlanShaped(m: Machine) {
    m.plan.Open? ==>
      && |m.plan.dest| == |m.plan.list|
      && (forall k | 0 <= k < |m.plan.list| :: m.plan.list[k] < |m.cells|)
      && (forall i | 0 <= i < |m.cells| && m.cells[i].p.planHold != Clear ::
            m.cells[i].p.planSlot < |m.plan.list| && m.plan.list[m.cells[i].p.planSlot] == i)
  }

  function SetHold(m: Machine, i: nat, h: Hold): Machine
    requires i < |m.cells|
  {
    m.(cells := m.cells[i := m.cells[i].(p := m.cells[i].p.(planHold := h))])
  }

  /** Winning the page: plan_hold from 1 to 2. */
  function Claim(m: Machine, i: nat): Machine
    requires i < |m.cells|
  {
    SetHold(m, i, Copying(0))
  }

  /** One byte of the winner's copy. */
  function CopyByte(m: Machine, i: nat): Machine
    requires i < |m.cells| && m.plan.Open? && m.cells[i].p.planSlot < |m.plan.dest|
    requires m.cells[i].p.planHold.Copying? && m.cells[i].p.planHold.done < PAGESIZE
  {
    var at := m.cells[i].p.planHold.done;
    var slot := m.cells[i].p.planSlot;
    SetHold(m, i, Copying(at + 1))
      .(plan := m.plan.(dest := m.plan.dest[slot := m.plan.dest[slot][at := m.cells[i].mem[at]]]))
  }

  /** The copy is done: plan_hold from 2 to 0. */
  function CopyDone(m: Machine, i: nat): Machine
    requires i < |m.cells|
  {
    SetHold(m, i, Clear)
  }

  /** The buffer after plan_take on every page of `which`. */
  function DestTaken(cells: seq<Cell>, list: seq<nat>, dest: seq<PageBytes>, which: set<nat>): (r: seq<PageBytes>)
    requires |dest| == |list| && forall k | 0 <= k < |list| :: list[k] < |cells|
  {
    seq(|dest|, k requires 0 <= k < |dest| =>
          if list[k] in which && cells[list[k]].p.planHold == Owed && cells[list[k]].p.planSlot == k
          then cells[list[k]].mem else dest[k])
  }

  /** A page after plan_take: nothing owed. */
  function CaughtUp(c: Cell): Cell {
    if c.p.planHold == Owed then c.(p := c.p.(planHold := Clear)) else c
  }

  /** plan_take on every page of `which`: the owed ones copied and let go. */
  function TakeIn(m: Machine, which: set<nat>): Machine
    requires PlanShaped(m)
  {
    m.(cells := seq(|m.cells|, i requires 0 <= i < |m.cells| => if i in which then CaughtUp(m.cells[i]) else m.cells[i]),
       plan := if m.plan.Idle? then Idle
               else m.plan.(dest := DestTaken(m.cells, m.plan.list, m.plan.dest, which)))
  }

  ghost predicate GroupPlanned(list: seq<nat>, g: nat, i: nat)
    requires g > 0
  {
    exists k | 0 <= k < |list| :: SameGroup(g, i, list[k])
  }

  /** plan_finish_impl, every page copied: the plan ends and its pages get
      their ordinary protection back. */
  ghost function FinishPlan(m: Machine): Machine
    requires Shaped(m) && m.plan.Open?
  {
    var cells := seq(|m.cells|, i requires 0 <= i < |m.cells| =>
                       if i in m.plan.list then Refreshed(m.cells[i]) else m.cells[i]);
    m.(cells := cells, plan := Idle,
       os := seq(|m.cells|, i requires 0 <= i < |m.cells| =>
                   if GroupPlanned(m.plan.list, m.group, i)
                   then GroupProt(cells, m.group, i) else m.os[i]))
  }

  /** What the caller's buffer holds. */
  function PlanBuffer(plan: Plan): State
    requires plan.Open?
  {
    State(plan.status, plan.dirty, plan.dest)
  }

  function ViewOfMachine(m: Machine): (v: seq<PageView>) {
    seq(|m.cells|, i requires 0 <= i < |m.cells| => ViewOf(m.cells[i]))
  }
}
