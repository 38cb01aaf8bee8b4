/** The history as the host keeps it: one written delta a frame, neighbouring
    ones composed by either composer, and all of them read back and applied. */
module Chronicle {
  import opened Pages
  import opened Machine
  import opened Deltas
  import opened Invariant
  import opened Restore
  import opened Orphans
  import opened History
  import opened DeltaBytes

  // ---- a delta read off its bytes ----

  function StatusOf(b: byte): Option<Status> {
    match b
    case 0x00 => Some(StFree)
    case 0x20 => Some(StNone)
    case 0x01 => Some(StR)
    case 0x03 => Some(StRW)
    case 0x05 => Some(StRX)
    case 0x07 => Some(StRWX)
    case 0x13 => Some(StRWStack)
    case _ => None
  }

  predicate StatusKnown(r: Raw) {
    |r.payload| == 1 && StatusOf(r.payload[0]).Some?
  }

  predicate Legible(p: Parts) {
    (forall k | 0 <= k < |p.status| :: StatusKnown(p.status[k])) && forall k | 0 <= k < |p.data| :: |p.data[k].payload| == PAGESIZE
  }

  /** The entries delta_apply finds in a stream: a data entry's top bit is its
      flag. */
  function EntriesOf(p: Parts): (d: Delta)
    requires Legible(p)
  {
    Delta(p.npages,
          seq(|p.status|, k requires 0 <= k < |p.status| =>
                assert StatusKnown(p.status[k]); Entry(p.status[k].idx, StatusOf(p.status[k].payload[0]).value)),
          seq(|p.data|, k requires 0 <= k < |p.data| =>
                Entry(PageIndex(p.data[k].idx), Change(p.data[k].idx >= CLEAN_FLAG, p.data[k].payload))))
  }

  /** The delta a stream begins with. */
  function DeltaIn(s: seq<byte>): Option<Delta> {
    match ReadParts(s)
    case Failed(_) => None
    case Got(p, _) => if Legible(p) then Some(EntriesOf(p)) else None
  }

  function Written(d: Delta): seq<byte> {
    Encode(PartsOf(d))
  }

  lemma EntriesBack(d: Delta)
    requires WellFormed(d) && d.npages < MOST_PAGES
    ensures Legible(PartsOf(d)) && EntriesOf(PartsOf(d)) == d
  {
    var p := PartsOf(d);
    forall k | 0 <= k < |d.status|
      ensures StatusKnown(p.status[k]) && StatusOf(p.status[k].payload[0]).value == d.status[k].val && p.status[k].idx == d.status[k].page
    {
      assert p.status[k] == RawStatus(d.status[k]);
    }
    forall k | 0 <= k < |d.data|
      ensures |p.data[k].payload| == PAGESIZE
      ensures Entry(PageIndex(p.data[k].idx), Change(p.data[k].idx >= CLEAN_FLAG, p.data[k].payload)) == d.data[k]
    {
      assert p.data[k] == RawChange(d.data[k]) && d.data[k].page < d.npages;
    }
    assert EntriesOf(p).status == d.status && EntriesOf(p).data == d.data;
  }

  /** A delta written and read is itself. */
  lemma WrittenReads(d: Delta)
    requires WellFormed(d) && d.npages < MOST_PAGES
    ensures ReadParts(Written(d)) == Got(PartsOf(d), []) && DeltaIn(Written(d)) == Some(d)
  {
    hide ReadParts, Encode, PartsOf, PartsOk, Legible, EntriesOf;
    SavedIsOk(d);
    ReadPartsBack(PartsOf(d), []);
    assert Written(d) + [] == Written(d);
    EntriesBack(d);
  }

  // ---- what is kept ----

  /** Bytes a history keeps: a frame's delta as it was written, or two stretches
      put together by one composer or the other. */
  datatype Record = Saved(bytes: seq<byte>) | ByStream(earlier: Record, later: Record) | InPlace(earlier: Record, later: Record)

  /** mb_block_delta_compose, by its answer. */
  function StreamComposed(a: seq<byte>, b: seq<byte>): Option<seq<byte>> {
    var x, y := ReadParts(a), ReadParts(b);
    if x.Failed? || y.Failed? || x.value.npages != y.value.npages then None else Some(Encode(MergeParts(x.value, y.value)))
  }

  /** mb_block_delta_compose_mem. */
  ghost function MemoryComposed(a: seq<byte>, b: seq<byte>): Option<seq<byte>> {
    var x, y := OpenView(a), OpenView(b);
    if x == None || y == None || x.value.npages != y.value.npages then None else Some(Encode(MergeParts(SeenParts(a), SeenParts(b))))
  }

  ghost function KeptBytes(r: Record): Option<seq<byte>> {
    match r
    case Saved(s) => Some(s)
    case ByStream(a, b) =>
      if KeptBytes(a) == None || KeptBytes(b) == None then None else StreamComposed(KeptBytes(a).value, KeptBytes(b).value)
    case InPlace(a, b) =>
      if KeptBytes(a) == None || KeptBytes(b) == None then None else MemoryComposed(KeptBytes(a).value, KeptBytes(b).value)
  }

  function Frames(r: Record): (s: seq<seq<byte>>) {
    match r
    case Saved(s) => [s]
    case ByStream(a, b) => Frames(a) + Frames(b)
    case InPlace(a, b) => Frames(a) + Frames(b)
  }

  function AllFrames(rs: seq<Record>): seq<seq<byte>> {
    if rs == [] then [] else Frames(rs[0]) + AllFrames(rs[1..])
  }

  function AllWritten(ds: seq<Delta>): (s: seq<seq<byte>>)
    ensures |s| == |ds| && forall k | 0 <= k < |ds| :: s[k] == Written(ds[k])
  {
    seq(|ds|, k requires 0 <= k < |ds| => Written(ds[k]))
  }

  /** Both composers, on what two deltas are written as, write their composition. */
  lemma ComposersWrite(a: Delta, b: Delta)
    requires WellFormed(a) && WellFormed(b) && a.npages == b.npages < MOST_PAGES
    ensures StreamComposed(Written(a), Written(b)) == Some(Written(Compose(a, b)))
    ensures MemoryComposed(Written(a), Written(b)) == Some(Written(Compose(a, b)))
  {
    hide ReadParts, Encode, PartsOf, MergeParts, OpenView, SeenParts, PartsOk, DeltaIn;
    WrittenReads(a);
    WrittenReads(b);
    ComposedBytes(a, b);
    ComposersAgree(Written(a), Written(b));
  }

  // ---- from bytes to deltas ----

  /** The frames a record holds are these deltas, written. */
  predicate Holds(r: Record, ds: seq<Delta>, n: nat) {
    Alike(ds, n) && Frames(r) == AllWritten(ds)
  }

  /** The record, delta for delta. */
  function Thin(r: Record, ds: seq<Delta>): (t: Thinned)
    requires |Frames(r)| == |ds|
    ensures Originals(t) == ds
  {
    match r
    case Saved(_) => Kept(ds[0])
    case ByStream(a, b) => Joined(Thin(a, ds[..|Frames(a)|]), Thin(b, ds[|Frames(a)|..]))
    case InPlace(a, b) => Joined(Thin(a, ds[..|Frames(a)|]), Thin(b, ds[|Frames(a)|..]))
  }

  lemma HoldsParts(r: Record, a: Record, b: Record, ds: seq<Delta>, n: nat)
    requires Holds(r, ds, n) && Frames(r) == Frames(a) + Frames(b)
    ensures |Frames(a)| <= |ds| && Holds(a, ds[..|Frames(a)|], n) && Holds(b, ds[|Frames(a)|..], n)
  {
    hide Written, AllWritten, WellFormed, Frames;
    var k, fs := |Frames(a)|, Frames(r);
    assert |AllWritten(ds)| == |ds| && k <= |fs|;
    assert fs[..k] == Frames(a) && fs[k..] == Frames(b);
    WrittenSplit(ds, k);
  }

  lemma WrittenSplit(ds: seq<Delta>, k: nat)
    requires k <= |ds|
    ensures AllWritten(ds)[..k] == AllWritten(ds[..k]) && AllWritten(ds)[k..] == AllWritten(ds[k..])
  {
    hide Written;
  }

  /** Whatever was composed with whatever, by whichever composer: the bytes kept
      are the composed delta, written. */
  lemma {:induction false} RecordIs(r: Record, ds: seq<Delta>, n: nat)
    requires Holds(r, ds, n) && n < MOST_PAGES
    ensures |Frames(r)| == |ds| && WellFormed(ThinnedDelta(Thin(r, ds))) && ThinnedDelta(Thin(r, ds)).npages == n
    ensures KeptBytes(r) == Some(Written(ThinnedDelta(Thin(r, ds))))
    decreases r
  {
    hide Written, StreamComposed, MemoryComposed;
    if r.Saved? {
      assert ds[0] == ds[0] && Frames(r)[0] == r.bytes && AllWritten(ds)[0] == Written(ds[0]);
    } else {
      var a, b := r.earlier, r.later;
      HoldsParts(r, a, b, ds, n);
      var k := |Frames(a)|;
      RecordIs(a, ds[..k], n);
      RecordIs(b, ds[k..], n);
      var x, y := ThinnedDelta(Thin(a, ds[..k])), ThinnedDelta(Thin(b, ds[k..]));
      ComposersWrite(x, y);
      ComposeWellFormed(x, y);
    }
  }

  /** The deltas read off what is kept, if all of it can be read. */
  ghost predicate Readable(rs: seq<Record>) {
    forall k | 0 <= k < |rs| :: KeptBytes(rs[k]).Some? && DeltaIn(KeptBytes(rs[k]).value).Some?
  }

  ghost function AllRead(rs: seq<Record>): (ds: seq<Delta>)
    requires Readable(rs)
    ensures |ds| == |rs| && forall k | 0 <= k < |rs| :: ds[k] == DeltaIn(KeptBytes(rs[k]).value).value
  {
    seq(|rs|, k requires 0 <= k < |rs| => DeltaIn(KeptBytes(rs[k]).value).value)
  }

  /** The records, delta for delta. */
  lemma {:induction false} ThinAll(rs: seq<Record>, ds: seq<Delta>, n: nat) returns (ts: seq<Thinned>)
    requires Alike(ds, n) && n < MOST_PAGES && AllFrames(rs) == AllWritten(ds)
    ensures AllOriginals(ts) == ds && Readable(rs) && AllRead(rs) == AllStored(ts)
    decreases |rs|
  {
    hide Written, DeltaIn, KeptBytes, AllWritten, Frames, AllFrames, Thin, Originals, ThinnedDelta, WellFormed;
    if rs == [] {
      FramesNone();
      ts := [];
    } else {
      FramesFirst(rs, ds, n);
      var k, rest := |Frames(rs[0])|, rs[1..];
      var more := ThinAll(rest, ds[k..], n);
      RecordIs(rs[0], ds[..k], n);
      var t := Thin(rs[0], ds[..k]);
      WrittenReads(ThinnedDelta(t));
      ts := [t] + more;
      assert ts[0] == t && ts[1..] == more;
      ReadMore(rs, ThinnedDelta(t), AllStored(more));
      assert ds[..k] + ds[k..] == ds;
    }
  }

  lemma FramesNone()
    ensures AllFrames([]) == []
  {
  }

  lemma FramesFirst(rs: seq<Record>, ds: seq<Delta>, n: nat)
    requires rs != [] && Alike(ds, n) && AllFrames(rs) == AllWritten(ds)
    ensures var k := |Frames(rs[0])|;
            k <= |ds| && Holds(rs[0], ds[..k], n) && Alike(ds[k..], n) && AllFrames(rs[1..]) == AllWritten(ds[k..])
  {
    hide Written, AllWritten, Frames, WellFormed;
    var k, fs := |Frames(rs[0])|, AllFrames(rs);
    assert fs == Frames(rs[0]) + AllFrames(rs[1..]) && |AllWritten(ds)| == |ds|;
    assert fs[..k] == Frames(rs[0]) && fs[k..] == AllFrames(rs[1..]);
    WrittenSplit(ds, k);
  }

  lemma ReadMore(rs: seq<Record>, d: Delta, more: seq<Delta>)
    requires rs != [] && KeptBytes(rs[0]).Some? && DeltaIn(KeptBytes(rs[0]).value) == Some(d)
    requires Readable(rs[1..]) && AllRead(rs[1..]) == more
    ensures Readable(rs) && AllRead(rs) == [d] + more
  {
    hide KeptBytes, DeltaIn;
    forall k | 0 <= k < |rs|
      ensures KeptBytes(rs[k]).Some? && DeltaIn(KeptBytes(rs[k]).value).Some?
      ensures DeltaIn(KeptBytes(rs[k]).value).value == ([d] + more)[k]
    {
      if k > 0 { assert rs[k] == rs[1..][k - 1]; }
    }
  }

  /** The whole-history theorem over bytes. For any run from x cut into frames
      and each frame's delta written as it was saved: whatever neighbours a
      history composes, by whichever composer, every record it keeps can be
      read; and loading x's state into any machine of the same seal and applying
      what is read shows every page as the straight run left it. */
  lemma BytesHistory(x: Machine, base: seq<PageBytes>, frames: seq<Frame>, m: Machine, rs: seq<Record>)
    requires Inv(x, base) && Played(x, frames) && |x.cells| < MOST_PAGES
    requires Sound(m, base) && m.plan.Idle? && SameVisibility(x.cells, m.cells)
    requires AllFrames(rs) == AllWritten(Taken(x, frames))
    ensures Fits(m.cells, SaveState(x)) && Readable(rs)
    ensures ViewOfMachine(ApplyAll(LoadState(m, SaveState(x)), AllRead(rs))) == ViewOfMachine(End(x, frames))
  {
    hide Played, Taken, End, LoadState, SaveState, CellsOk, PlanOk, Watched, Tight, Fits, Readable, AllRead, Written;
    TakenAlike(x, base, frames);
    var ts := ThinAll(rs, Taken(x, frames), |x.cells|);
    WholeHistory(x, base, frames, m, ts);
  }
}
