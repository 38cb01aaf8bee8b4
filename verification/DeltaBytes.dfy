/** Deltas on the wire: the bytes one is written as, the two readers, and the
    two composers - one that reads both deltas in, one that walks them where
    they lie in memory. */
module DeltaBytes {
  import opened Pages
  import opened Deltas
  import opened Calls

  // ---- little-endian words ----

  function Pow256(n: nat): nat {
    if n == 0 then 1 else 256 * Pow256(n - 1)
  }

  function Le(x: nat, n: nat): (r: seq<byte>)
    ensures |r| == n
  {
    if n == 0 then [] else [x % 256] + Le(x / 256, n - 1)
  }

  function OfLe(s: seq<byte>): nat {
    if s == [] then 0 else s[0] + 256 * OfLe(s[1..])
  }

  lemma {:induction false} LeRound(x: nat, n: nat)
    requires x < Pow256(n)
    ensures OfLe(Le(x, n)) == x
  {
    if n > 0 {
      LeRound(x / 256, n - 1);
      assert Le(x, n)[1..] == Le(x / 256, n - 1);
    }
  }

  lemma {:induction false} OfLeRound(s: seq<byte>)
    ensures OfLe(s) < Pow256(|s|) && Le(OfLe(s), |s|) == s
  {
    if s != [] {
      OfLeRound(s[1..]);
    }
  }

  lemma WordSize()
    ensures Pow256(8) == 0x1_0000_0000_0000_0000
  {
    assert Pow256(2) == 0x1_0000;
    assert Pow256(4) == 0x1_0000_0000;
    assert Pow256(6) == 0x1_0000_0000_0000;
  }

  // ---- entries ----

  /** The flag a data entry's index carries in its top bit. */
  const CLEAN_FLAG: nat := 0x8000_0000_0000_0000
  const MOST_PAGES: nat := 0x10_0000_0000_0000

  /** An entry as it stands in the stream: its index word and its payload. */
  datatype Raw = Raw(idx: nat, payload: seq<byte>)

  /** delta_page */
  function PageIndex(idx: nat): nat {
    idx % CLEAN_FLAG
  }

  datatype Parts = Parts(npages: nat, status: seq<Raw>, data: seq<Raw>)

  function Enc(r: Raw): seq<byte> {
    Le(r.idx, 8) + r.payload
  }

  function EncList(rs: seq<Raw>): seq<byte> {
    if rs == [] then [] else Enc(rs[0]) + EncList(rs[1..])
  }

  function Magic(): (r: seq<byte>)
    ensures |r| == 13
  {
    [0x4D, 0x69, 0x6E, 0x69, 0x42, 0x6F, 0x78, 0x44, 0x65, 0x6C, 0x74, 0x61, 0x31]
  }

  /** The counts first, then their lists. */
  function Encode(p: Parts): seq<byte> {
    Magic() + Le(p.npages, 8) + Le(|p.status|, 8) + EncList(p.status) + Le(|p.data|, 8) + EncList(p.data)
  }

  predicate EntryOk(r: Raw, size: nat, limit: nat, flagged: bool) {
    && r.idx < Pow256(8) && |r.payload| == size
    && (if flagged then PageIndex(r.idx) else r.idx) < limit
  }

  predicate ListOk(rs: seq<Raw>, size: nat, limit: nat, flagged: bool) {
    |rs| <= limit && forall k | 0 <= k < |rs| :: EntryOk(rs[k], size, limit, flagged)
  }

  /** What a reader accepts. */
  predicate PartsOk(p: Parts) {
    p.npages < MOST_PAGES && ListOk(p.status, 1, p.npages, false) && ListOk(p.data, PAGESIZE, p.npages, true)
  }

  // ---- reading, as a function of the stream ----

  datatype Read<+T> = Got(value: T, rest: seq<byte>) | Failed(e: Errno)

  function ReadWord(s: seq<byte>): Read<nat> {
    if |s| < 8 then Failed(EIO) else Got(OfLe(s[..8]), s[8..])
  }

  function ReadRaw(s: seq<byte>, size: nat): Read<Raw> {
    if |s| < 8 + size then Failed(EIO) else Got(Raw(OfLe(s[..8]), s[8..8 + size]), s[8 + size..])
  }

  function ReadList(s: seq<byte>, n: nat, size: nat, limit: nat, flagged: bool): (r: Read<seq<Raw>>)
    ensures r.Failed? ==> r.e == EIO || r.e == EINVAL
  {
    if n == 0 then Got([], s)
    else
      match ReadRaw(s, size)
      case Failed(e) => Failed(e)
      case Got(r, rest) =>
        if (if flagged then PageIndex(r.idx) else r.idx) >= limit then Failed(EINVAL)
        else
          match ReadList(rest, n - 1, size, limit, flagged)
          case Failed(e) => Failed(e)
          case Got(rs, end) => Got([r] + rs, end)
  }

  /** A count and its list; no more entries than pages. */
  function ReadCounted(s: seq<byte>, size: nat, limit: nat, flagged: bool): (r: Read<seq<Raw>>)
    ensures r.Failed? ==> r.e == EIO || r.e == EINVAL
  {
    match ReadWord(s)
    case Failed(e) => Failed(e)
    case Got(n, rest) => if n > limit then Failed(EINVAL) else ReadList(rest, n, size, limit, flagged)
  }

  /** parts_read */
  function ReadParts(s: seq<byte>): (r: Read<Parts>)
    ensures r.Failed? ==> r.e == EIO || r.e == EINVAL
  {
    if |s| < 13 then Failed(EIO)
    else if s[..13] != Magic() then Failed(EINVAL)
    else
      match ReadWord(s[13..])
      case Failed(e) => Failed(e)
      case Got(npages, rest) =>
        if npages >= MOST_PAGES then Failed(EINVAL)
        else
          match ReadCounted(rest, 1, npages, false)
          case Failed(e) => Failed(e)
          case Got(status, rest1) =>
            match ReadCounted(rest1, PAGESIZE, npages, true)
            case Failed(e) => Failed(e)
            case Got(data, rest2) => Got(Parts(npages, status, data), rest2)
  }

  // ---- what is written is read back, and only that ----

  lemma ReadRawBack(r: Raw, rest: seq<byte>)
    requires r.idx < Pow256(8)
    ensures ReadRaw(Enc(r) + rest, |r.payload|) == Got(r, rest)
  {
    hide Pow256;
    var s := Enc(r) + rest;
    assert s[..8] == Le(r.idx, 8) && s[8..8 + |r.payload|] == r.payload && s[8 + |r.payload|..] == rest;
    LeRound(r.idx, 8);
  }

  lemma RawRead(s: seq<byte>, size: nat)
    requires ReadRaw(s, size).Got?
    ensures var g := ReadRaw(s, size); s == Enc(g.value) + g.rest && g.value.idx < Pow256(8) && |g.value.payload| == size
  {
    hide Pow256;
    OfLeRound(s[..8]);
    assert s == s[..8] + s[8..8 + size] + s[8 + size..];
  }

  lemma {:induction false} ReadListBack(rs: seq<Raw>, rest: seq<byte>, size: nat, limit: nat, flagged: bool)
    requires forall k | 0 <= k < |rs| :: EntryOk(rs[k], size, limit, flagged)
    ensures ReadList(EncList(rs) + rest, |rs|, size, limit, flagged) == Got(rs, rest)
  {
    hide ReadRaw, Enc, Pow256, PageIndex;
    if rs == [] {
      assert EncList(rs) + rest == rest;
    } else {
      var r, tail := rs[0], EncList(rs[1..]) + rest;
      assert EntryOk(r, size, limit, flagged);
      ReadListBack(rs[1..], rest, size, limit, flagged);
      assert EncList(rs) + rest == Enc(r) + tail;
      ReadRawBack(r, tail);
      assert rs == [r] + rs[1..];
    }
  }

  lemma {:induction false} ListRead(s: seq<byte>, n: nat, size: nat, limit: nat, flagged: bool)
    requires ReadList(s, n, size, limit, flagged).Got?
    ensures var g := ReadList(s, n, size, limit, flagged);
            && |g.value| == n && s == EncList(g.value) + g.rest
            && (forall k | 0 <= k < n :: EntryOk(g.value[k], size, limit, flagged))
    decreases n
  {
    hide ReadRaw, Enc, Pow256, PageIndex;
    if n > 0 {
      var h := ReadRaw(s, size);
      var r, rest := h.value, h.rest;
      var g := ReadList(rest, n - 1, size, limit, flagged);
      ListRead(rest, n - 1, size, limit, flagged);
      RawRead(s, size);
      EncCons(r, g.value);
      assert s == EncList([r] + g.value) + g.rest;
    }
  }

  lemma ReadWordBack(x: nat, rest: seq<byte>)
    requires x < Pow256(8)
    ensures ReadWord(Le(x, 8) + rest) == Got(x, rest)
  {
    LeRound(x, 8);
    assert (Le(x, 8) + rest)[..8] == Le(x, 8) && (Le(x, 8) + rest)[8..] == rest;
  }

  lemma ReadCountedBack(rs: seq<Raw>, rest: seq<byte>, size: nat, limit: nat, flagged: bool)
    requires ListOk(rs, size, limit, flagged) && limit < MOST_PAGES
    ensures ReadCounted(Le(|rs|, 8) + EncList(rs) + rest, size, limit, flagged) == Got(rs, rest)
  {
    hide ReadList, ReadWord, Le, EncList, Pow256;
    WordSize();
    assert Le(|rs|, 8) + EncList(rs) + rest == Le(|rs|, 8) + (EncList(rs) + rest);
    ReadWordBack(|rs|, EncList(rs) + rest);
    ReadListBack(rs, rest, size, limit, flagged);
  }

  lemma CountedRead(s: seq<byte>, size: nat, limit: nat, flagged: bool)
    requires ReadCounted(s, size, limit, flagged).Got?
    ensures var g := ReadCounted(s, size, limit, flagged);
            ListOk(g.value, size, limit, flagged) && s == Le(|g.value|, 8) + EncList(g.value) + g.rest
  {
    var w := ReadWord(s);
    OfLeRound(s[..8]);
    ListRead(w.rest, w.value, size, limit, flagged);
    assert s == s[..8] + s[8..];
  }

  /** Writing then reading gives the delta back, and what follows it untouched. */
  lemma ReadPartsBack(p: Parts, rest: seq<byte>)
    requires PartsOk(p)
    ensures ReadParts(Encode(p) + rest) == Got(p, rest)
  {
    hide ReadCounted, ReadWord, ListOk, Le, EncList, Pow256;
    var tail2 := Le(|p.data|, 8) + EncList(p.data) + rest;
    var tail1 := Le(|p.status|, 8) + EncList(p.status) + tail2;
    var s := Encode(p) + rest;
    assert s == Magic() + (Le(p.npages, 8) + tail1);
    assert s[..13] == Magic() && s[13..] == Le(p.npages, 8) + tail1;
    WordSize();
    ReadWordBack(p.npages, tail1);
    ReadCountedBack(p.status, tail2, 1, p.npages, false);
    ReadCountedBack(p.data, rest, PAGESIZE, p.npages, true);
  }

  /** A stream is accepted only if it begins with what some delta is written as. */
  lemma PartsRead(s: seq<byte>)
    requires ReadParts(s).Got?
    ensures PartsOk(ReadParts(s).value) && s == Encode(ReadParts(s).value) + ReadParts(s).rest
  {
    hide ReadCounted, ListOk, EncList, Pow256, ReadWord, Le;
    var w := ReadWord(s[13..]);
    WordRead(s[13..]);
    var g1 := ReadCounted(w.rest, 1, w.value, false);
    CountedRead(w.rest, 1, w.value, false);
    var g2 := ReadCounted(g1.rest, PAGESIZE, w.value, true);
    CountedRead(g1.rest, PAGESIZE, w.value, true);
    assert s == s[..13] + s[13..];
    assert s == Encode(ReadParts(s).value) + g2.rest;
  }

  lemma WordRead(s: seq<byte>)
    requires ReadWord(s).Got?
    ensures s == Le(ReadWord(s).value, 8) + ReadWord(s).rest
  {
    OfLeRound(s[..8]);
    assert s == s[..8] + s[8..];
  }

  // ---- merging entries ----

  function Keyed(rs: seq<Raw>): (r: seq<Entry<Raw>>)
    ensures |r| == |rs| && forall k | 0 <= k < |rs| :: r[k] == Entry(PageIndex(rs[k].idx), rs[k])
  {
    seq(|rs|, k requires 0 <= k < |rs| => Entry(PageIndex(rs[k].idx), rs[k]))
  }

  function Vals<T>(es: seq<Entry<T>>): (r: seq<T>)
    ensures |r| == |es| && forall k | 0 <= k < |es| :: r[k] == es[k].val
  {
    seq(|es|, k requires 0 <= k < |es| => es[k].val)
  }

  /** Later wins, entry by entry, its flag with it. */
  function MergeRaw(a: seq<Raw>, b: seq<Raw>): seq<Raw> {
    Vals(Merge(Keyed(a), Keyed(b)))
  }

  function MergeParts(a: Parts, b: Parts): Parts {
    Parts(a.npages, MergeRaw(a.status, b.status), MergeRaw(a.data, b.data))
  }

  /** Whether the next entry comes from the later delta. */
  predicate TakesLater(a: seq<Raw>, i: nat, b: seq<Raw>, j: nat)
    requires i <= |a| && j <= |b|
  {
    i == |a| || (j < |b| && PageIndex(b[j].idx) <= PageIndex(a[i].idx))
  }

  predicate Doubled(a: seq<Raw>, i: nat, b: seq<Raw>, j: nat)
    requires i <= |a| && j < |b|
  {
    i < |a| && PageIndex(a[i].idx) == PageIndex(b[j].idx)
  }

  /** One turn of the merge, whichever way it goes. */
  lemma MergeTurn(a: seq<Raw>, i: nat, b: seq<Raw>, j: nat)
    requires i <= |a| && j <= |b| && (i < |a| || j < |b|)
    ensures var m := Merge(Keyed(a)[i..], Keyed(b)[j..]);
            if TakesLater(a, i, b, j)
            then j < |b| && m == [Keyed(b)[j]] + Merge(Keyed(a)[if Doubled(a, i, b, j) then i + 1 else i..], Keyed(b)[j + 1..])
            else i < |a| && m == [Keyed(a)[i]] + Merge(Keyed(a)[i + 1..], Keyed(b)[j..])
  {
    var x, y := Keyed(a)[i..], Keyed(b)[j..];
    if x != [] { assert x[0] == Keyed(a)[i] && x[1..] == Keyed(a)[i + 1..]; }
    if y != [] { assert y[0] == Keyed(b)[j] && y[1..] == Keyed(b)[j + 1..]; }
  }

  lemma {:induction false} MergeOneEmpty<T>(a: seq<Entry<T>>, b: seq<Entry<T>>)
    requires a == [] || b == []
    ensures |Merge(a, b)| == |a| + |b|
  {
    if b != [] {
      MergeOneEmpty(a, b[1..]);
    } else if a != [] {
      MergeOneEmpty(a[1..], b);
    }
  }

  /** merged_count: whatever the lists, the count written is how many entries
      the merge writes. */
  method MergedCount(a: seq<Raw>, b: seq<Raw>) returns (n: nat)
    ensures n == |MergeRaw(a, b)|
  {
    var i, j := 0, 0;
    n := 0;
    assert Keyed(a)[0..] == Keyed(a) && Keyed(b)[0..] == Keyed(b);
    while i < |a| && j < |b|
      invariant i <= |a| && j <= |b| && n + |Merge(Keyed(a)[i..], Keyed(b)[j..])| == |Merge(Keyed(a), Keyed(b))|
      decreases |a| - i + |b| - j
    {
      MergeTurn(a, i, b, j);
      if PageIndex(a[i].idx) < PageIndex(b[j].idx) {
        i := i + 1;
      } else if PageIndex(b[j].idx) < PageIndex(a[i].idx) {
        j := j + 1;
      } else {
        i, j := i + 1, j + 1;
      }
      n := n + 1;
    }
    MergeOneEmpty(Keyed(a)[i..], Keyed(b)[j..]);
    n := n + (|a| - i) + (|b| - j);
  }

  lemma EncCons(r: Raw, rs: seq<Raw>)
    ensures EncList([r] + rs) == Enc(r) + EncList(rs)
  {
    assert ([r] + rs)[1..] == rs;
  }

  lemma ValsCons<T>(e: Entry<T>, es: seq<Entry<T>>)
    ensures Vals([e] + es) == [e.val] + Vals(es)
  {
  }

  /** What is still to be written when the merge is at i and j. */
  function StillOut(a: seq<Raw>, i: nat, b: seq<Raw>, j: nat): seq<byte>
    requires i <= |a| && j <= |b|
  {
    EncList(Vals(Merge(Keyed(a)[i..], Keyed(b)[j..])))
  }

  lemma OutTurn(a: seq<Raw>, i: nat, b: seq<Raw>, j: nat)
    requires i <= |a| && j <= |b| && (i < |a| || j < |b|)
    ensures if TakesLater(a, i, b, j)
            then j < |b| && StillOut(a, i, b, j) == Enc(b[j]) + StillOut(a, if Doubled(a, i, b, j) then i + 1 else i, b, j + 1)
            else i < |a| && StillOut(a, i, b, j) == Enc(a[i]) + StillOut(a, i + 1, b, j)
  {
    MergeTurn(a, i, b, j);
    if TakesLater(a, i, b, j) {
      var rest := Merge(Keyed(a)[if Doubled(a, i, b, j) then i + 1 else i..], Keyed(b)[j + 1..]);
      ValsCons(Keyed(b)[j], rest);
      EncCons(b[j], Vals(rest));
    } else {
      var rest := Merge(Keyed(a)[i + 1..], Keyed(b)[j..]);
      ValsCons(Keyed(a)[i], rest);
      EncCons(a[i], Vals(rest));
    }
  }

  lemma OutStart(a: seq<Raw>, b: seq<Raw>)
    ensures StillOut(a, 0, b, 0) == EncList(MergeRaw(a, b)) && StillOut(a, |a|, b, |b|) == []
  {
    assert Keyed(a)[0..] == Keyed(a) && Keyed(b)[0..] == Keyed(b);
    assert Keyed(a)[|a|..] == [] && Keyed(b)[|b|..] == [];
  }

  /** The merge of mb_block_delta_compose, written as it goes. */
  method WriteMerged(a: seq<Raw>, b: seq<Raw>) returns (out: seq<byte>)
    ensures out == EncList(MergeRaw(a, b))
  {
    hide StillOut, EncList, MergeRaw;
    out := [];
    var i, j := 0, 0;
    OutStart(a, b);
    while i < |a| || j < |b|
      invariant i <= |a| && j <= |b| && out + StillOut(a, i, b, j) == EncList(MergeRaw(a, b))
      decreases |a| - i + |b| - j
    {
      OutTurn(a, i, b, j);
      if TakesLater(a, i, b, j) {
        var next := if Doubled(a, i, b, j) then i + 1 else i;
        assert out + (Enc(b[j]) + StillOut(a, next, b, j + 1)) == out + Enc(b[j]) + StillOut(a, next, b, j + 1);
        out := out + Enc(b[j]);
        i, j := next, j + 1;
      } else {
        assert out + (Enc(a[i]) + StillOut(a, i + 1, b, j)) == out + Enc(a[i]) + StillOut(a, i + 1, b, j);
        out := out + Enc(a[i]);
        i := i + 1;
      }
    }
  }

  // ---- the streaming reader and composer ----

  function Prepend(list: seq<Raw>, r: Read<seq<Raw>>): Read<seq<Raw>> {
    match r case Failed(e) => Failed(e) case Got(rs, end) => Got(list + rs, end)
  }

  /** parts_read's loops. */
  method ReadEntries(s: seq<byte>, n: nat, size: nat, limit: nat, flagged: bool) returns (r: Read<seq<Raw>>)
    ensures r == ReadList(s, n, size, limit, flagged)
  {
    var list: seq<Raw> := [];
    var rest, left := s, n;
    PrependNone(ReadList(s, n, size, limit, flagged));
    while left > 0
      invariant 0 <= left <= n && ReadList(s, n, size, limit, flagged) == Prepend(list, ReadList(rest, left, size, limit, flagged))
    {
      if |rest| < 8 + size { return Failed(EIO); }
      var e := Raw(OfLe(rest[..8]), rest[8..8 + size]);
      if (if flagged then PageIndex(e.idx) else e.idx) >= limit { return Failed(EINVAL); }
      ghost var tail := ReadList(rest[8 + size..], left - 1, size, limit, flagged);
      if tail.Got? { assert list + ([e] + tail.value) == list + [e] + tail.value; }
      list := list + [e];
      rest, left := rest[8 + size..], left - 1;
    }
    assert list + [] == list;
    return Got(list, rest);
  }

  lemma PrependNone(r: Read<seq<Raw>>)
    ensures Prepend([], r) == r
  {
    if r.Got? { assert [] + r.value == r.value; }
  }

  method ReadCountedEntries(s: seq<byte>, size: nat, limit: nat, flagged: bool) returns (r: Read<seq<Raw>>)
    ensures r == ReadCounted(s, size, limit, flagged)
  {
    if |s| < 8 { return Failed(EIO); }
    var n := OfLe(s[..8]);
    if n > limit { return Failed(EINVAL); }
    r := ReadEntries(s[8..], n, size, limit, flagged);
  }

  /** parts_read */
  method ReadAllParts(s: seq<byte>) returns (r: Read<Parts>)
    ensures r == ReadParts(s)
  {
    hide ReadCounted, OfLe;
    if |s| < 13 { return Failed(EIO); }
    if s[..13] != Magic() { return Failed(EINVAL); }
    if |s[13..]| < 8 { return Failed(EIO); }
    var npages := OfLe(s[13..][..8]);
    if npages >= MOST_PAGES { return Failed(EINVAL); }
    var status := ReadCountedEntries(s[13..][8..], 1, npages, false);
    if status.Failed? { return Failed(status.e); }
    var data := ReadCountedEntries(status.rest, PAGESIZE, npages, true);
    if data.Failed? { return Failed(data.e); }
    return Got(Parts(npages, status.value, data.value), data.rest);
  }

  /** Both counts ahead of both lists. */
  method WriteComposed(a: Parts, b: Parts) returns (out: seq<byte>)
    ensures out == Encode(MergeParts(a, b))
  {
    hide MergeRaw, EncList, Le;
    var nstatus := MergedCount(a.status, b.status);
    var ndata := MergedCount(a.data, b.data);
    var status := WriteMerged(a.status, b.status);
    var data := WriteMerged(a.data, b.data);
    out := Magic() + Le(a.npages, 8) + Le(nstatus, 8) + status + Le(ndata, 8) + data;
  }

  /** mb_block_delta_compose: two streams read in and one written; what each
      stream still holds is left for its owner. */
  method ComposeStreams(a: seq<byte>, b: seq<byte>) returns (e: Errno, out: seq<byte>, restA: seq<byte>, restB: seq<byte>)
    ensures var x, y := ReadParts(a), ReadParts(b);
            if x.Failed? then e == x.e
            else if y.Failed? then e == y.e
            else if x.value.npages != y.value.npages then e == EINVAL
            else e == Ok && out == Encode(MergeParts(x.value, y.value)) && restA == x.rest && restB == y.rest
  {
    hide ReadParts, Encode, MergeParts;
    var x := ReadAllParts(a);
    if x.Failed? { return x.e, [], a, b; }
    var y := ReadAllParts(b);
    if y.Failed? { return y.e, [], x.rest, b; }
    if x.value.npages != y.value.npages { return EINVAL, [], x.rest, y.rest; }
    out := WriteComposed(x.value, y.value);
    return Ok, out, x.rest, y.rest;
  }

  // ---- deltas composed where they lie ----

  /** delta_view: where each list stands in the buffer, and how long it is. */
  datatype View = View(npages: nat, nstatus: nat, statusAt: nat, ndata: nat, dataAt: nat)

  /** view_open: bounds-checked, and checked no further. */
  function OpenView(buf: seq<byte>): (r: Option<View>)
    ensures r.Some? ==> r.value.statusAt + r.value.nstatus * 9 <= |buf| && r.value.dataAt + r.value.ndata * 4104 <= |buf|
  {
    if |buf| < 13 + 3 * 8 || buf[..13] != Magic() then None
    else
      var npages, nstatus := OfLe(buf[13..21]), OfLe(buf[21..29]);
      if nstatus > npages || nstatus > (|buf| - 29) / 9 then None
      else
        var at := 29 + nstatus * 9;
        if at + 8 > |buf| then None
        else
          var ndata := OfLe(buf[at..at + 8]);
          if ndata > npages || ndata > (|buf| - (at + 8)) / 4104 then None
          else Some(View(npages, nstatus, 29, ndata, at + 8))
  }

  /** A list lies in the buffer: entry after entry, each of one size. */
  ghost predicate Lies(buf: seq<byte>, off: nat, rs: seq<Raw>, size: nat) {
    && off <= |buf| && EncList(rs) <= buf[off..]
    && forall k | 0 <= k < |rs| :: rs[k].idx < Pow256(8) && |rs[k].payload| == size
  }

  lemma {:induction false} EncSlice(rs: seq<Raw>, size: nat, i: nat)
    requires i < |rs| && forall k | 0 <= k < |rs| :: |rs[k].payload| == size
    ensures i * (8 + size) + 8 + size <= |EncList(rs)|
    ensures EncList(rs)[i * (8 + size)..i * (8 + size) + 8 + size] == Enc(rs[i])
  {
    var stride := 8 + size;
    assert |Enc(rs[0])| == stride && EncList(rs) == Enc(rs[0]) + EncList(rs[1..]);
    if i > 0 {
      EncSlice(rs[1..], size, i - 1);
      OneLess(i, stride);
      SliceAfter(Enc(rs[0]), EncList(rs[1..]), (i - 1) * stride, (i - 1) * stride + stride);
    }
  }

  lemma OneLess(i: nat, stride: nat)
    requires i > 0
    ensures i * stride == stride + (i - 1) * stride
  {
  }

  lemma SliceAfter(x: seq<byte>, y: seq<byte>, a: nat, b: nat)
    requires a <= b <= |y|
    ensures (x + y)[|x| + a..|x| + b] == y[a..b]
  {
  }

  /** An entry found by its place in the buffer. */
  lemma LiesAt(buf: seq<byte>, off: nat, rs: seq<Raw>, size: nat, i: nat)
    requires Lies(buf, off, rs, size) && i < |rs|
    ensures var p := off + i * (8 + size);
            && p + 8 + size <= |buf| && buf[p..p + 8 + size] == Enc(rs[i]) && OfLe(buf[p..p + 8]) == rs[i].idx
  {
    hide EncList;
    var d := i * (8 + size);
    EncSlice(rs, size, i);
    SliceLies(buf, off, EncList(rs), d, 8 + size);
    SliceLies(buf, off + d, Enc(rs[i]), 0, 8);
    assert Enc(rs[i])[0..8] == Le(rs[i].idx, 8);
    LeRound(rs[i].idx, 8);
  }

  lemma SliceLies(buf: seq<byte>, off: nat, e: seq<byte>, d: nat, n: nat)
    requires off <= |buf| && e <= buf[off..] && d + n <= |e|
    ensures off + d + n <= |buf| && buf[off + d..off + d + n] == e[d..d + n] && e[d..d + n] <= buf[off + d..]
  {
    var t := buf[off..];
    assert t[d..] == buf[off + d..] && t[..|e|] == e;
    assert t[d..][..n] == e[d..d + n];
  }

  /** The merge of mb_block_delta_compose_mem: every entry copied whole from
      where it lies. */
  method CopyMerged(abuf: seq<byte>, ao: nat, na: nat, bbuf: seq<byte>, bo: nat, nb: nat, size: nat, ghost a: seq<Raw>, ghost b: seq<Raw>)
    returns (n: nat, out: seq<byte>)
    requires Lies(abuf, ao, a, size) && Lies(bbuf, bo, b, size) && |a| == na && |b| == nb
    ensures out == EncList(MergeRaw(a, b)) && n == |MergeRaw(a, b)|
  {
    n := ViewMerged(abuf, ao, na, bbuf, bo, nb, size, a, b);
    out := CopyEntries(abuf, ao, na, bbuf, bo, nb, size, a, b);
  }

  method CopyEntries(abuf: seq<byte>, ao: nat, na: nat, bbuf: seq<byte>, bo: nat, nb: nat, size: nat, ghost a: seq<Raw>, ghost b: seq<Raw>)
    returns (out: seq<byte>)
    requires Lies(abuf, ao, a, size) && Lies(bbuf, bo, b, size) && |a| == na && |b| == nb
    ensures out == EncList(MergeRaw(a, b))
  {
    hide *;
    out := [];
    var i, j := 0, 0;
    OutStart(a, b);
    while i < na || j < nb
      invariant i <= na && j <= nb && out + StillOut(a, i, b, j) == EncList(MergeRaw(a, b))
      decreases na - i + nb - j
    {
      var e, i', j' := CopyTurn(abuf, ao, na, bbuf, bo, nb, size, a, b, i, j);
      assert out + (e + StillOut(a, i', b, j')) == out + e + StillOut(a, i', b, j');
      out := out + e;
      i, j := i', j';
    }
  }

  method CopyTurn(abuf: seq<byte>, ao: nat, na: nat, bbuf: seq<byte>, bo: nat, nb: nat, size: nat, ghost a: seq<Raw>, ghost b: seq<Raw>,
                  i: nat, j: nat) returns (e: seq<byte>, i': nat, j': nat)
    requires Lies(abuf, ao, a, size) && Lies(bbuf, bo, b, size) && |a| == na && |b| == nb && i <= na && j <= nb && (i < na || j < nb)
    ensures i <= i' <= na && j <= j' <= nb && i + j < i' + j' && StillOut(a, i, b, j) == e + StillOut(a, i', b, j')
  {
    hide StillOut, Lies, OfLe, Enc;
    OutTurn(a, i, b, j);
    var stride := 8 + size;
    var p, q := ao + i * stride, bo + j * stride;
    if i < na { LiesAt(abuf, ao, a, size, i); }
    if j < nb { LiesAt(bbuf, bo, b, size, j); }
    var takeB := i >= na || (j < nb && PageIndex(OfLe(bbuf[q..q + 8])) <= PageIndex(OfLe(abuf[p..p + 8])));
    if takeB {
      var both := i < na && PageIndex(OfLe(abuf[p..p + 8])) == PageIndex(OfLe(bbuf[q..q + 8]));
      return bbuf[q..q + stride], if both then i + 1 else i, j + 1;
    }
    return abuf[p..p + stride], i + 1, j;
  }

  /** view_merged */
  method ViewMerged(abuf: seq<byte>, ao: nat, na: nat, bbuf: seq<byte>, bo: nat, nb: nat, size: nat, ghost a: seq<Raw>, ghost b: seq<Raw>)
    returns (n: nat)
    requires Lies(abuf, ao, a, size) && Lies(bbuf, bo, b, size) && |a| == na && |b| == nb
    ensures n == |MergeRaw(a, b)|
  {
    hide Lies, OfLe, Enc, EncList, Merge;
    var i, j := 0, 0;
    n := 0;
    assert Keyed(a)[0..] == Keyed(a) && Keyed(b)[0..] == Keyed(b);
    while i < na || j < nb
      invariant i <= na && j <= nb && n + |Merge(Keyed(a)[i..], Keyed(b)[j..])| == |Merge(Keyed(a), Keyed(b))|
      decreases na - i + nb - j
    {
      i, j := CountTurn(abuf, ao, na, bbuf, bo, nb, size, a, b, i, j);
      n := n + 1;
    }
    MergeOneEmpty(Keyed(a)[i..], Keyed(b)[j..]);
  }

  method CountTurn(abuf: seq<byte>, ao: nat, na: nat, bbuf: seq<byte>, bo: nat, nb: nat, size: nat, ghost a: seq<Raw>, ghost b: seq<Raw>,
                   i: nat, j: nat) returns (i': nat, j': nat)
    requires Lies(abuf, ao, a, size) && Lies(bbuf, bo, b, size) && |a| == na && |b| == nb && i <= na && j <= nb && (i < na || j < nb)
    ensures i <= i' <= na && j <= j' <= nb && i + j < i' + j'
    ensures |Merge(Keyed(a)[i..], Keyed(b)[j..])| == 1 + |Merge(Keyed(a)[i'..], Keyed(b)[j'..])|
  {
    hide Lies, OfLe, Enc, EncList, Merge;
    MergeTurn(a, i, b, j);
    var stride := 8 + size;
    if i < na { LiesAt(abuf, ao, a, size, i); }
    if j < nb { LiesAt(bbuf, bo, b, size, j); }
    if i >= na { return i, j + 1; }
    if j >= nb { return i + 1, j; }
    var p, q := ao + i * stride, bo + j * stride;
    var ia, ib := PageIndex(OfLe(abuf[p..p + 8])), PageIndex(OfLe(bbuf[q..q + 8]));
    if ia == ib { return i + 1, j + 1; }
    if ia < ib { return i + 1, j; }
    return i, j + 1;
  }

  // ---- what a view sees ----

  function Stretch(n: nat, size: nat): nat {
    if n == 0 then 0 else 8 + size + Stretch(n - 1, size)
  }

  lemma {:induction false} StretchIs(n: nat)
    ensures Stretch(n, 1) == 9 * n && Stretch(n, PAGESIZE) == 4104 * n
  {
    if n > 0 { StretchIs(n - 1); }
  }

  lemma {:induction false} EncLength(rs: seq<Raw>, size: nat)
    requires forall k | 0 <= k < |rs| :: |rs[k].payload| == size
    ensures |EncList(rs)| == Stretch(|rs|, size)
  {
    if rs != [] { EncLength(rs[1..], size); }
  }

  /** As many entries as fit can be read, whatever their indices. */
  lemma {:induction false} Readable(s: seq<byte>, n: nat, size: nat)
    requires Stretch(n, size) <= |s|
    ensures ReadList(s, n, size, Pow256(8), false).Got?
  {
    if n > 0 {
      OfLeRound(s[..8]);
      Readable(s[8 + size..], n - 1, size);
    }
  }

  /** The entries a view's list holds. */
  ghost function Seen(buf: seq<byte>, off: nat, n: nat, size: nat): seq<Raw>
    requires off <= |buf| && Stretch(n, size) <= |buf| - off
  {
    Readable(buf[off..], n, size);
    ReadList(buf[off..], n, size, Pow256(8), false).value
  }

  lemma SeenLies(buf: seq<byte>, off: nat, n: nat, size: nat)
    requires off <= |buf| && Stretch(n, size) <= |buf| - off
    ensures |Seen(buf, off, n, size)| == n && Lies(buf, off, Seen(buf, off, n, size), size)
  {
    Readable(buf[off..], n, size);
    ListRead(buf[off..], n, size, Pow256(8), false);
  }

  lemma {:induction false} LooserRead(s: seq<byte>, n: nat, size: nat, limit: nat, flagged: bool)
    requires ReadList(s, n, size, limit, flagged).Got?
    ensures ReadList(s, n, size, Pow256(8), false) == ReadList(s, n, size, limit, flagged)
  {
    if n > 0 {
      OfLeRound(s[..8]);
      LooserRead(s[8 + size..], n - 1, size, limit, flagged);
    }
  }

  ghost function SeenParts(buf: seq<byte>): Parts
    requires OpenView(buf).Some?
  {
    var v := OpenView(buf).value;
    StretchIs(v.nstatus);
    StretchIs(v.ndata);
    Parts(v.npages, Seen(buf, v.statusAt, v.nstatus, 1), Seen(buf, v.dataAt, v.ndata, PAGESIZE))
  }

  /** mb_block_delta_compose_mem: where the later delta ends, too. */
  method ComposeInMemory(a: seq<byte>, b: seq<byte>) returns (e: Errno, out: seq<byte>, used: nat)
    ensures var x, y := OpenView(a), OpenView(b);
            if x == None || y == None || x.value.npages != y.value.npages then e == EINVAL
            else e == Ok && out == Encode(MergeParts(SeenParts(a), SeenParts(b))) && used == y.value.dataAt + y.value.ndata * 4104 <= |b|
  {
    hide MergeRaw, EncList, Le, OpenView, Seen, Lies;
    out, used := [], 0;
    var x := OpenView(a);
    if x == None { return EINVAL, out, used; }
    var y := OpenView(b);
    if y == None { return EINVAL, out, used; }
    var v, w := x.value, y.value;
    if v.npages != w.npages { return EINVAL, out, used; }
    StretchIs(v.nstatus); StretchIs(v.ndata); StretchIs(w.nstatus); StretchIs(w.ndata);
    SeenLies(a, v.statusAt, v.nstatus, 1); SeenLies(a, v.dataAt, v.ndata, PAGESIZE);
    SeenLies(b, w.statusAt, w.nstatus, 1); SeenLies(b, w.dataAt, w.ndata, PAGESIZE);
    ghost var p, q := SeenParts(a), SeenParts(b);
    var nstatus, status := CopyMerged(a, v.statusAt, v.nstatus, b, w.statusAt, w.nstatus, 1, p.status, q.status);
    var ndata, data := CopyMerged(a, v.dataAt, v.ndata, b, w.dataAt, w.ndata, PAGESIZE, p.data, q.data);
    out := Magic() + Le(v.npages, 8) + Le(nstatus, 8) + status + Le(ndata, 8) + data;
    used := w.dataAt + w.ndata * 4104;
    return Ok, out, used;
  }

  /** What the streaming reader accepts, the in-memory one sees, to the byte. */
  lemma ViewSees(buf: seq<byte>)
    requires ReadParts(buf).Got?
    ensures OpenView(buf).Some? && SeenParts(buf) == ReadParts(buf).value
    ensures var v := OpenView(buf).value; v.dataAt + v.ndata * 4104 == |buf| - |ReadParts(buf).rest|
  {
    hide Le, Pow256, EncList, OfLe, ReadList, Seen, Stretch;
    var s1 := buf[13..][8..];
    var npages := OfLe(buf[13..][..8]);
    var g1 := ReadCounted(s1, 1, npages, false);
    var n1 := OfLe(s1[..8]);
    var g2 := ReadCounted(g1.rest, PAGESIZE, npages, true);
    var n2 := OfLe(g1.rest[..8]);
    assert buf[13..21] == buf[13..][..8] && buf[21..29] == s1[..8] && buf[29..] == s1[8..];
    ViewList(buf, 29, n1, 1, npages, false);
    var at := 29 + n1 * 9;
    assert buf[at..] == g1.rest && buf[at..at + 8] == g1.rest[..8] && buf[at + 8..] == g1.rest[8..];
    ViewList(buf, at + 8, n2, PAGESIZE, npages, true);
  }

  lemma ViewList(buf: seq<byte>, off: nat, n: nat, size: nat, limit: nat, flagged: bool)
    requires off <= |buf| && ReadList(buf[off..], n, size, limit, flagged).Got? && (size == 1 || size == PAGESIZE)
    ensures var g := ReadList(buf[off..], n, size, limit, flagged);
            && |g.value| == n && off + n * (8 + size) <= |buf| && buf[off + n * (8 + size)..] == g.rest
            && Stretch(n, size) == n * (8 + size) && Seen(buf, off, n, size) == g.value
  {
    var g := ReadList(buf[off..], n, size, limit, flagged);
    ListRead(buf[off..], n, size, limit, flagged);
    EncLength(g.value, size);
    StretchIs(n);
    LooserRead(buf[off..], n, size, limit, flagged);
    assert buf[off..][Stretch(n, size)..] == g.rest;
  }

  /** On deltas the streaming reader accepts, both composers write the same
      bytes, and both leave the later delta's tail at the same place. */
  lemma ComposersAgree(a: seq<byte>, b: seq<byte>)
    requires ReadParts(a).Got? && ReadParts(b).Got?
    ensures OpenView(a).Some? && OpenView(b).Some?
    ensures OpenView(a).value.npages == ReadParts(a).value.npages && OpenView(b).value.npages == ReadParts(b).value.npages
    ensures Encode(MergeParts(SeenParts(a), SeenParts(b))) == Encode(MergeParts(ReadParts(a).value, ReadParts(b).value))
    ensures var w := OpenView(b).value; w.dataAt + w.ndata * 4104 <= |b| && b[w.dataAt + w.ndata * 4104..] == ReadParts(b).rest
  {
    hide Encode, MergeParts, ReadParts, OpenView;
    ViewSees(a);
    ViewSees(b);
    PartsRead(b);
  }

  // ---- the wire and the delta ----

  /** A status as its byte. */
  function StatusByte(s: Status): byte {
    match s
    case StFree => 0x00
    case StNone => 0x20
    case StR => 0x01
    case StRW => 0x03
    case StRX => 0x05
    case StRWX => 0x07
    case StRWStack => 0x13
  }

  function RawStatus(e: Entry<Status>): Raw {
    Raw(e.page, [StatusByte(e.val)])
  }

  function RawChange(e: Entry<Change>): Raw {
    Raw(if e.val.clean then e.page + CLEAN_FLAG else e.page, e.val.bytes)
  }

  /** What mb_block_delta_save writes for a delta. */
  function PartsOf(d: Delta): (p: Parts)
    ensures p.npages == d.npages && |p.status| == |d.status| && |p.data| == |d.data|
    ensures forall k | 0 <= k < |d.status| :: p.status[k] == RawStatus(d.status[k])
    ensures forall k | 0 <= k < |d.data| :: p.data[k] == RawChange(d.data[k])
  {
    Parts(d.npages, seq(|d.status|, k requires 0 <= k < |d.status| => RawStatus(d.status[k])),
          seq(|d.data|, k requires 0 <= k < |d.data| => RawChange(d.data[k])))
  }

  lemma PartsDetermine(a: Delta, b: Delta)
    requires PartsOf(a) == PartsOf(b) && a.npages < MOST_PAGES && WellFormed(a) && WellFormed(b)
    ensures a == b
  {
    forall k | 0 <= k < |a.status| ensures a.status[k] == b.status[k] {
      assert RawStatus(a.status[k]) == RawStatus(b.status[k]);
    }
    forall k | 0 <= k < |a.data| ensures a.data[k] == b.data[k] {
      assert RawChange(a.data[k]) == RawChange(b.data[k]);
    }
  }

  lemma ShortWhenAscending<T>(xs: seq<Entry<T>>, n: nat)
    requires Ascending(xs) && Within(xs, n)
    ensures |xs| <= n
  {
    if xs != [] {
      AtLeast(xs, |xs| - 1);
    }
  }

  lemma {:induction false} AtLeast<T>(xs: seq<Entry<T>>, k: nat)
    requires Ascending(xs) && k < |xs|
    ensures k <= xs[k].page
  {
    if k > 0 { AtLeast(xs, k - 1); }
  }

  /** Every delta a block writes is one the readers accept. */
  lemma SavedIsOk(d: Delta)
    requires WellFormed(d) && d.npages < MOST_PAGES
    ensures PartsOk(PartsOf(d))
  {
    WordSize();
    ShortWhenAscending(d.status, d.npages);
    ShortWhenAscending(d.data, d.npages);
    var p := PartsOf(d);
    forall k | 0 <= k < |p.status| ensures EntryOk(p.status[k], 1, d.npages, false) {
      assert p.status[k] == RawStatus(d.status[k]);
    }
    forall k | 0 <= k < |p.data| ensures EntryOk(p.data[k], PAGESIZE, d.npages, true) {
      assert p.data[k] == RawChange(d.data[k]);
    }
  }

  /** A delta's bytes name it: no two deltas are written alike, and none is the
      beginning of another. */
  lemma BytesDetermine(a: Delta, b: Delta, s: seq<byte>, t: seq<byte>)
    requires WellFormed(a) && WellFormed(b) && a.npages < MOST_PAGES && b.npages < MOST_PAGES
    requires Encode(PartsOf(a)) + s == Encode(PartsOf(b)) + t
    ensures a == b && s == t
  {
    hide Encode, ReadParts, PartsOf, PartsOk;
    SavedIsOk(a);
    SavedIsOk(b);
    ReadPartsBack(PartsOf(a), s);
    ReadPartsBack(PartsOf(b), t);
    PartsDetermine(a, b);
  }

  function Mapped<T, U>(es: seq<Entry<T>>, f: Entry<T> -> U): (r: seq<Entry<U>>)
    ensures |r| == |es| && forall k | 0 <= k < |es| :: r[k] == Entry(es[k].page, f(es[k]))
  {
    seq(|es|, k requires 0 <= k < |es| => Entry(es[k].page, f(es[k])))
  }

  lemma {:induction false} MergeMapped<T, U>(a: seq<Entry<T>>, b: seq<Entry<T>>, f: Entry<T> -> U)
    ensures Merge(Mapped(a, f), Mapped(b, f)) == Mapped(Merge(a, b), f)
    decreases |a| + |b|
  {
    var x, y := Mapped(a, f), Mapped(b, f);
    if a == [] && b == [] {
    } else if a == [] || (b != [] && b[0].page <= a[0].page) {
      var a' := if a != [] && a[0].page == b[0].page then a[1..] else a;
      var x' := if x != [] && x[0].page == y[0].page then x[1..] else x;
      assert x' == Mapped(a', f) && y[1..] == Mapped(b[1..], f);
      MergeMapped(a', b[1..], f);
    } else {
      assert x[1..] == Mapped(a[1..], f);
      MergeMapped(a[1..], b, f);
    }
  }

  lemma KeyedStatus(d: Delta)
    requires WellFormed(d) && d.npages < MOST_PAGES
    ensures Keyed(PartsOf(d).status) == Mapped(d.status, RawStatus)
  {
    forall k | 0 <= k < |d.status| ensures Keyed(PartsOf(d).status)[k] == Mapped(d.status, RawStatus)[k] {
      assert d.status[k].page < d.npages;
    }
  }

  lemma KeyedData(d: Delta)
    requires WellFormed(d) && d.npages < MOST_PAGES
    ensures Keyed(PartsOf(d).data) == Mapped(d.data, RawChange)
  {
    forall k | 0 <= k < |d.data| ensures Keyed(PartsOf(d).data)[k] == Mapped(d.data, RawChange)[k] {
      assert d.data[k].page < d.npages;
      assert PageIndex(d.data[k].page + CLEAN_FLAG) == d.data[k].page;
    }
  }

  /** Composing the bytes is composing the deltas. */
  lemma ComposedBytes(a: Delta, b: Delta)
    requires WellFormed(a) && WellFormed(b) && a.npages == b.npages < MOST_PAGES
    ensures MergeParts(PartsOf(a), PartsOf(b)) == PartsOf(Compose(a, b))
    ensures PartsOk(MergeParts(PartsOf(a), PartsOf(b)))
  {
    hide Merge, RawStatus, RawChange, PartsOk;
    KeyedStatus(a);
    KeyedStatus(b);
    KeyedData(a);
    KeyedData(b);
    MergeMapped(a.status, b.status, RawStatus);
    MergeMapped(a.data, b.data, RawChange);
    ComposeWellFormed(a, b);
    SavedIsOk(Compose(a, b));
    assert MergeParts(PartsOf(a), PartsOf(b)) == PartsOf(Compose(a, b));
  }

  // ---- the host's frame around a delta ----

  function HostStart(): (r: seq<byte>)
    ensures |r| == 19
  {
    [0x4D, 0x69, 0x6E, 0x69, 0x42, 0x6F, 0x78, 0x48, 0x6F, 0x73, 0x74, 0x44, 0x65, 0x6C, 0x74, 0x61, 0x5F, 0x76, 0x31]
  }

  /** The program break, the program's hash, and the rest: the block's delta,
      then the thread set, the open files and the end. */
  datatype HostDelta = HostDelta(brk: seq<byte>, hash: seq<byte>, rest: seq<byte>)

  function HostEncode(h: HostDelta): seq<byte> {
    HostStart() + h.brk + h.hash + h.rest
  }

  function HostOpen(s: seq<byte>): (r: Option<HostDelta>)
    ensures r.Some? ==> |r.value.brk| == 8 && |r.value.hash| == 32 && s == HostEncode(r.value)
  {
    if |s| < 19 + 40 || s[..19] != HostStart() then None
    else
      assert s == s[..19] + s[19..27] + s[27..59] + s[59..];
      Some(HostDelta(s[19..27], s[27..59], s[59..]))
  }

  /** mb_host_delta_compose */
  method ComposeHost(a: seq<byte>, b: seq<byte>) returns (ok: bool, out: seq<byte>)
    ensures var x, y := HostOpen(a), HostOpen(b);
            && (ok <==> x.Some? && y.Some? && x.value.hash == y.value.hash && ReadParts(x.value.rest).Got? && ReadParts(y.value.rest).Got?
                        && ReadParts(x.value.rest).value.npages == ReadParts(y.value.rest).value.npages)
            && (ok ==> var p, q := ReadParts(x.value.rest), ReadParts(y.value.rest);
                       out == HostEncode(HostDelta(y.value.brk, y.value.hash, Encode(MergeParts(p.value, q.value)) + q.rest)))
  {
    hide ReadParts, Encode, MergeParts;
    var x, y := HostOpen(a), HostOpen(b);
    if x == None || y == None || x.value.hash != y.value.hash { return false, []; }
    var e, body, restA, restB := ComposeStreams(x.value.rest, y.value.rest);
    if e != Ok { return false, []; }
    return true, HostStart() + y.value.brk + y.value.hash + (body + restB);
  }

  /** mb_host_delta_compose_mem */
  method ComposeHostInMemory(a: seq<byte>, b: seq<byte>) returns (ok: bool, out: seq<byte>)
    ensures var x, y := HostOpen(a), HostOpen(b);
            && (ok <==> x.Some? && y.Some? && x.value.hash == y.value.hash && OpenView(x.value.rest).Some? && OpenView(y.value.rest).Some?
                        && OpenView(x.value.rest).value.npages == OpenView(y.value.rest).value.npages)
            && (ok ==> var v := OpenView(y.value.rest).value;
                       && v.dataAt + v.ndata * 4104 <= |y.value.rest|
                       && out == HostEncode(HostDelta(y.value.brk, y.value.hash,
                                                      Encode(MergeParts(SeenParts(x.value.rest), SeenParts(y.value.rest)))
                                                      + y.value.rest[v.dataAt + v.ndata * 4104..])))
  {
    hide OpenView, Encode, MergeParts, SeenParts;
    var x, y := HostOpen(a), HostOpen(b);
    if x == None || y == None || x.value.hash != y.value.hash { return false, []; }
    var e, body, used := ComposeInMemory(x.value.rest, y.value.rest);
    if e != Ok { return false, []; }
    return true, HostStart() + y.value.brk + y.value.hash + (body + y.value.rest[used..]);
  }

  /** A composed host delta carries the later one's break and tail, and the two
      deltas' composition between them: read again, it is exactly that. */
  lemma ComposedHostReads(y: HostDelta, a: Delta, b: Delta, tail: seq<byte>)
    requires |y.brk| == 8 && |y.hash| == 32
    requires WellFormed(a) && WellFormed(b) && a.npages == b.npages < MOST_PAGES
    ensures var h := HostDelta(y.brk, y.hash, Encode(MergeParts(PartsOf(a), PartsOf(b))) + tail);
            && HostOpen(HostEncode(h)) == Some(h) && ReadParts(h.rest) == Got(PartsOf(Compose(a, b)), tail)
  {
    hide ReadParts, Encode, MergeParts, PartsOk;
    ComposedBytes(a, b);
    var p := MergeParts(PartsOf(a), PartsOf(b));
    ReadPartsBack(p, tail);
    HostBack(HostDelta(y.brk, y.hash, Encode(p) + tail));
  }

  lemma HostBack(h: HostDelta)
    requires |h.brk| == 8 && |h.hash| == 32
    ensures HostOpen(HostEncode(h)) == Some(h)
  {
    var s := HostEncode(h);
    assert s[..19] == HostStart() && s[19..27] == h.brk && s[27..59] == h.hash && s[59..] == h.rest;
  }
}
