/** One machine page: its record (mb_page), the bitmap bits kept about it, the
    bytes it really holds, and what every tracking primitive does to it. */
module Pages {

  const PAGESIZE: nat := 4096
  const HOT_AFTER: nat := 3
  const COLD_AFTER: nat := 8
  const HOT_MOST: nat := 32768

  type byte = x: int | 0 <= x < 256
  type PageBytes = s: seq<byte> | |s| == PAGESIZE witness seq(PAGESIZE, i => 0)

  function Zeros(): PageBytes {
    seq(PAGESIZE, i => 0)
  }

  /** Strictly ascending. */
  predicate Sorted(list: seq<nat>) {
    forall a, b | 0 <= a < b < |list| :: list[a] < list[b]
  }

  datatype Option<+T> = None | Some(value: T)

  datatype Prot = NoAccess | Read | ReadWrite | ReadExec | ReadWriteExec | ReadWriteStack

  datatype Status = StFree | StNone | StR | StRW | StRX | StRWX | StRWStack

  /** The baseline copy of a page: none taken (live memory is the baseline),
      known to be zeros, or kept bytes. */
  datatype Snap = NoSnap | ZeroSnap | DataSnap(data: PageBytes)

  /** plan_hold: 0 nothing owed, 1 owed to the planned state, 2 being copied
      (here with how many bytes have been copied so far). */
  datatype Hold = Clear | Owed | Copying(done: nat)

  datatype Page = Page(
    status: Status,
    dirty: bool,
    invisible: bool,
    snap: Snap,
    held: bool,
    epochDirty: bool,
    hot: bool,
    heat: nat,
    seen: nat,
    shadow: Option<PageBytes>,
    planHold: Hold,
    planSlot: nat)

  /** A page with its bit in unheld_bits, its bit in stat_bits and its bytes. */
  datatype Cell = Cell(p: Page, mem: PageBytes, unheld: bool, stat: bool)

  const FRESH_PAGE: Page :=
    Page(StFree, false, false, ZeroSnap, false, false, false, 0, 0, None, Clear, 0)

  predicate Writable(prot: Prot) {
    prot == ReadWrite || prot == ReadWriteExec || prot == ReadWriteStack
  }

  /** Writable to the guest, so the host must hear of the first write. */
  predicate Tracked(s: Status) {
    s == StRW || s == StRWX || s == StRWStack
  }

  function StatusProt(s: Status): Prot {
    match s
    case StFree => NoAccess
    case StNone => NoAccess
    case StR => Read
    case StRW => ReadWrite
    case StRX => ReadExec
    case StRWX => ReadWriteExec
    case StRWStack => ReadWriteStack
  }

  /** The protection the page would be given alone. */
  function NativeProt(p: Page): Prot {
    if p.status == StFree then NoAccess
    else if p.planHold != Clear then
      var asked := StatusProt(p.status);
      if asked == ReadWriteExec then ReadExec
      else if asked == ReadWrite || asked == ReadWriteStack then Read
      else asked
    else if p.hot then StatusProt(p.status)
    else
      var clean := !p.dirty || p.held;
      if p.status == StRW && clean then Read
      else if p.status == StRWX && clean then ReadExec
      else if p.status == StRWStack then (if clean then Read else ReadWrite)
      else StatusProt(p.status)
  }

  /** A tracked page whose next write must fault. */
  predicate Armed(p: Page) {
    Tracked(p.status) && !Writable(NativeProt(p))
  }

  predicate EpochTracks(p: Page) {
    !p.invisible && Tracked(p.status)
  }

  /** Dirty and writable as soon as anything works its protection out, and on
      no list that would make the next epoch hold it. */
  predicate Orphan(c: Cell) {
    EpochTracks(c.p) && !c.p.hot && c.p.dirty && !c.p.held && !c.unheld
  }

  // ---- the tracking primitives, one page at a time ----

  function Snapshot(c: Cell): Cell {
    if c.p.snap == NoSnap then c.(p := c.p.(snap := DataSnap(c.mem))) else c
  }

  function Cool(c: Cell): Cell {
    if c.p.hot then c.(p := c.p.(hot := false, heat := 0, shadow := None), unheld := true) else c
  }

  function NoteProt(c: Cell, prot: Prot): Cell {
    c.(unheld := Writable(prot) && !c.p.hot && !c.p.invisible,
       p := c.p.(held := c.p.held && !Writable(prot)))
  }

  function Refreshed(c: Cell): Cell {
    NoteProt(c, NativeProt(c.p))
  }

  function NoteStatus(c: Cell, s: Status): Cell {
    var cooled := if c.p.status != s then Cool(c) else c;
    cooled.(p := cooled.p.(status := s))
  }

  function SetDirty(c: Cell, d: bool): Cell {
    var cooled := if !d then Cool(c) else c;
    cooled.(p := cooled.p.(dirty := d))
  }

  /** The epoch's half of a write fault. */
  function EpochCapture(c: Cell, active: bool): Cell {
    c.(p := c.p.(held := false, epochDirty := c.p.epochDirty || (active && EpochTracks(c.p))))
  }

  /** An allocation change enters the open epoch as a write does. */
  function EpochNote(c: Cell, active: bool, to: Status): Cell {
    if !active || c.p.status == to then c
    else
      var noted := c.(stat := true);
      if c.p.invisible then noted
      else if EpochTracks(c.p) then EpochCapture(noted, active)
      else noted.(p := noted.p.(epochDirty := true))
  }

  function Protected(c: Cell, active: bool, s: Status): Cell {
    Refreshed(NoteStatus(EpochNote(c, active, s), s))
  }

  /** What the fault handler does to a page it lets go. */
  function LetGo(c: Cell, active: bool): Cell {
    var d := SetDirty(EpochCapture(Snapshot(c), active), true);
    if d.p.hot then d else d.(unheld := true)
  }

  predicate ZeroAlready(c: Cell) {
    !c.p.dirty && !c.p.invisible && c.p.snap == ZeroSnap
  }

  /** munmap and MADV_DONTNEED on one page, up to the protection. */
  function Emptied(c: Cell, active: bool): Cell {
    var noted := EpochNote(Snapshot(c), active, StFree);
    var zeroed := if ZeroAlready(noted) then noted else noted.(mem := Zeros());
    SetDirty(zeroed, !zeroed.p.invisible && zeroed.p.snap != ZeroSnap)
  }

  function GivenBack(c: Cell, active: bool, adviseOnly: bool): Cell {
    var e := Emptied(c, active);
    if adviseOnly then Refreshed(e) else Protected(e, active, StFree)
  }

  /** mremap's move, on a page it moves into: visible or not as the page it
      comes from. */
  function Landed(c: Cell, active: bool, s: Status, hidden: bool, bytes: PageBytes): Cell {
    var told := Protected(c, active, s);
    Cool(SetDirty(told.(p := told.p.(invisible := hidden)), true)).(mem := bytes)
  }

  /** An epoch opening on one page. */
  function Opened(c: Cell): Cell {
    var forgot := c.(p := c.p.(epochDirty := false), stat := false);
    var seen := if c.p.hot then forgot.(p := forgot.p.(shadow := Some(c.mem))) else forgot;
    if !c.unheld then seen
    else Refreshed(seen.(unheld := false, p := seen.p.(held := seen.p.held || EpochTracks(seen.p))))
  }

  function Forgotten(c: Cell): Cell {
    c.(p := c.p.(epochDirty := false), stat := false)
  }

  /** Comparing a hot page with what the epoch found. */
  function Compared(c: Cell): Cell {
    if !c.p.hot then c
    else if c.p.shadow == Some(c.mem) then
      if c.p.heat + 1 >= COLD_AFTER then Cool(c) else c.(p := c.p.(heat := c.p.heat + 1))
    else c.(p := c.p.(heat := 0, epochDirty := true))
  }

  predicate MayHeat(p: Page, unheld: bool) {
    !p.hot && !p.invisible && p.dirty && (p.status == StRW || p.status == StRWX) && unheld
  }

  /** A page the delta reported, on its way to hot; `room` is nhot < HOT_MOST. */
  function Heated(c: Cell, epochNo: nat, room: bool): Cell {
    if !c.p.epochDirty || c.p.hot then c
    else
      var heat := if c.p.seen == (epochNo + 65535) % 65536 then (if c.p.heat < 255 then c.p.heat + 1 else c.p.heat) else 1;
      var warm := c.(p := c.p.(heat := heat, seen := epochNo));
      if heat >= HOT_AFTER && room && MayHeat(warm.p, warm.unheld) then
        warm.(p := warm.p.(shadow := Some(warm.mem), hot := true, heat := 0), unheld := false)
      else warm
  }

  /** A page a planned state will carry and can hold still. */
  function PlanHeld(c: Cell, slot: nat): Cell {
    if Tracked(c.p.status) then
      Refreshed(c.(p := c.p.(planSlot := slot, planHold := Owed, held := c.p.held || !c.p.hot)))
    else c.(p := c.p.(planSlot := slot))
  }

  /** A loaded state's bytes for a visible page: what the stream carries when
      the state has the page dirty, else the baseline back. */
  function LoadFilled(c: Cell, d: bool, bytes: PageBytes): Cell {
    if !c.p.dirty && d then Snapshot(c).(mem := bytes)
    else if c.p.dirty && !d then c.(mem := if c.p.snap.DataSnap? then c.p.snap.data else Zeros())
    else if c.p.dirty && d then c.(mem := bytes)
    else c
  }

  function LoadMarked(c: Cell, d: bool): Cell {
    var marked := SetDirty(c, d);
    if marked.p.hot then marked.(p := marked.p.(shadow := Some(marked.mem))) else marked
  }

  /** A loaded state's word about one page. */
  function LoadedCell(c: Cell, s: Status, d: bool, bytes: PageBytes): Cell {
    NoteStatus(if c.p.invisible then c else LoadMarked(LoadFilled(c, d, bytes), d), s)
  }

  /** A delta's data entry on one page. */
  function PatchedCell(c: Cell, clean: bool, bytes: PageBytes): Cell {
    var filled := Snapshot(c).(mem := bytes);
    if clean && !c.p.invisible then SetDirty(filled, false)
    else
      var marked := SetDirty(filled, true);
      if marked.p.hot then marked.(p := marked.p.(shadow := Some(bytes))) else marked
  }

  /** Sealing: a dirty visible page becomes its own baseline. */
  function SealedCell(c: Cell): Cell {
    if c.p.dirty && !c.p.invisible then
      var clean := SetDirty(Cool(Forgotten(c)), false);
      Refreshed(clean.(p := clean.p.(snap := if clean.mem == Zeros() then ZeroSnap else NoSnap)))
    else Refreshed(Forgotten(c))
  }

  // ---- what stays true of a page ----

  predicate SnapIs(snap: Snap, base: PageBytes) {
    match snap
    case NoSnap => base != Zeros()
    case ZeroSnap => base == Zeros()
    case DataSnap(d) => d == base
  }

  /** Against the sealed image: a clean page holds its baseline, a dirty or
      invisible one has a copy of it, a free visible one reads zero. */
  predicate Anchored(c: Cell, base: PageBytes) {
    && SnapIs(c.p.snap, base)
    && (c.p.dirty || c.p.invisible ==> c.p.snap != NoSnap)
    && (!c.p.invisible && !c.p.dirty ==> c.mem == base)
    && (!c.p.invisible && c.p.status == StFree ==> c.mem == Zeros())
  }

  /** The flags agree with each other (mb_block_maps_consistent). */
  predicate Coherent(c: Cell) {
    && (c.p.hot ==> c.p.dirty && !c.p.held && !c.unheld && !c.p.invisible
                    && (c.p.status == StRW || c.p.status == StRWX))
    && (c.p.hot <==> c.p.shadow.Some?)
    && (c.p.held ==> !c.unheld)
  }

  predicate CellOk(c: Cell, base: PageBytes) {
    Anchored(c, base) && Coherent(c)
  }

  /** What a savestate sees of a page. */
  datatype PageView = Hidden(status: Status) | Shown(status: Status, dirty: bool, bytes: PageBytes)

  function ViewOf(c: Cell): PageView {
    if c.p.invisible then Hidden(c.p.status) else Shown(c.p.status, c.p.dirty, c.mem)
  }
}
