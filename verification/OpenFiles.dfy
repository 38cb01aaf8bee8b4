/** The open-file table of the box's flat file system: which descriptor has which
    file open and where, kept by mount name across unmounts, states and deltas. */
module OpenFiles {
  import opened Pages
  import opened DeltaBytes

  datatype Kind = EmptyFile | SysOut | Regular | HostFile | HostOut

  /** A name as C has it: no zero byte inside. */
  type CString = s: seq<byte> | 0 !in s

  /** What strcmp sees of a buffer: up to the first zero byte. */
  function Cut(s: seq<byte>): (r: CString)
    ensures r <= s
  {
    if s == [] || s[0] == 0 then [] else [s[0]] + Cut(s[1..])
  }

  lemma {:induction false} CutSame(s: CString)
    ensures Cut(s) == s
    decreases |s|
  {
    if s != [] { CutSame(s[1..]); }
  }

  /** mounted_file. */
  datatype File = File(name: CString, kind: Kind, writable: bool, len: nat)

  /** open_handle: `file` is a place in the list of files. */
  datatype Opened = Opened(fd: nat, file: nat, pos: nat)

  datatype Refusal = NotFound | Forbidden | Invalid | Busy | NotOpen | Exists | LostBytes

  datatype Reply = Fine(value: nat) | Refused(why: Refusal)

  /** An open's access mode; anything else is refused. */
  datatype Access = ReadOnly | WriteOnly | ReadAndWrite | OtherMode

  predicate HasBytes(f: File) {
    f.kind == Regular || f.kind == HostFile || f.kind == HostOut
  }

  /** A file only one handle may have open. */
  predicate Sole(f: File) {
    HasBytes(f) && f.writable
  }

  // ---- places ----

  /** The first handle from `from` on with this descriptor, else the length. */
  function FdAt(hs: seq<Opened>, fd: nat, from: nat): (i: nat)
    requires from <= |hs|
    ensures from <= i <= |hs| && (i < |hs| ==> hs[i].fd == fd) && forall k | from <= k < i :: hs[k].fd != fd
    decreases |hs| - from
  {
    if from == |hs| || hs[from].fd == fd then from else FdAt(hs, fd, from + 1)
  }

  function NameAt(files: seq<File>, name: seq<byte>, from: nat): (i: nat)
    requires from <= |files|
    ensures from <= i <= |files| && (i < |files| ==> files[i].name == name) && forall k | from <= k < i :: files[k].name != name
    decreases |files| - from
  {
    if from == |files| || files[from].name == name then from else NameAt(files, name, from + 1)
  }

  predicate Mounted(files: seq<File>, name: seq<byte>) {
    NameAt(files, name, 0) < |files|
  }

  predicate IsOpen(hs: seq<Opened>, file: nat) {
    exists k | 0 <= k < |hs| :: hs[k].file == file
  }

  // ---- what stays true ----

  predicate NamesOnce(files: seq<File>) {
    forall a, b | 0 <= a < b < |files| :: files[a].name != files[b].name
  }

  predicate FdsOnce(hs: seq<Opened>) {
    forall a, b | 0 <= a < b < |hs| :: hs[a].fd != hs[b].fd
  }

  predicate Placed(files: seq<File>, hs: seq<Opened>) {
    forall k | 0 <= k < |hs| :: hs[k].file < |files|
  }

  /** At most one handle on each writable file. */
  predicate SoleOnce(files: seq<File>, hs: seq<Opened>)
    requires Placed(files, hs)
  {
    forall a, b | 0 <= a < b < |hs| && hs[a].file == hs[b].file :: !Sole(files[hs[a].file])
  }

  predicate TableOk(files: seq<File>, hs: seq<Opened>) {
    NamesOnce(files) && FdsOnce(hs) && Placed(files, hs) && SoleOnce(files, hs)
  }

  /** What a descriptor has open: the file by name, and the position in it. */
  function Held(files: seq<File>, hs: seq<Opened>, fd: nat): Option<(seq<byte>, nat)>
    requires Placed(files, hs)
  {
    var i := FdAt(hs, fd, 0);
    if i == |hs| then None else Some((files[hs[i].file].name, hs[i].pos))
  }

  lemma HeldIs(files: seq<File>, hs: seq<Opened>, k: nat)
    requires Placed(files, hs) && FdsOnce(hs) && k < |hs|
    ensures FdAt(hs, hs[k].fd, 0) == k && Held(files, hs, hs[k].fd) == Some((files[hs[k].file].name, hs[k].pos))
  {
  }

  // ---- the lowest free descriptor ----

  predicate Free(hs: seq<Opened>, fd: nat) {
    forall k | 0 <= k < |hs| :: hs[k].fd != fd
  }

  predicate Lowest(hs: seq<Opened>, fd: nat) {
    Free(hs, fd) && forall lower: nat | lower < fd :: !Free(hs, lower)
  }

  /** As many descriptors in a row in use need as many handles. */
  lemma {:induction false} TakenFits(hs: seq<Opened>, n: nat)
    requires forall fd: nat | fd < n :: !Free(hs, fd)
    ensures n <= |hs|
    decreases n
  {
    if n > 0 {
      assert !Free(hs, n - 1);
      var i :| 0 <= i < |hs| && hs[i].fd == n - 1;
      var rest := hs[..i] + hs[i + 1..];
      forall fd: nat | fd < n - 1 ensures !Free(rest, fd) {
        assert !Free(hs, fd);
        var k :| 0 <= k < |hs| && hs[k].fd == fd;
        assert rest[if k < i then k else k - 1].fd == fd;
      }
      TakenFits(rest, n - 1);
    }
  }

  lemma AddKeeps(files: seq<File>, hs: seq<Opened>, fd: nat, file: nat, pos: nat)
    requires TableOk(files, hs) && file < |files| && Free(hs, fd) && (Sole(files[file]) ==> !IsOpen(hs, file))
    ensures TableOk(files, hs + [Opened(fd, file, pos)])
    ensures forall d: nat :: Held(files, hs + [Opened(fd, file, pos)], d) ==
                             if d == fd then Some((files[file].name, pos)) else Held(files, hs, d)
  {
    var hs2 := hs + [Opened(fd, file, pos)];
    assert Placed(files, hs2);
    forall d: nat
      ensures Held(files, hs2, d) == if d == fd then Some((files[file].name, pos)) else Held(files, hs, d)
    {
      var i := FdAt(hs, d, 0);
      if d == fd {
        HeldIs(files, hs2, |hs|);
      } else if i < |hs| {
        assert hs2[i] == hs[i];
        HeldIs(files, hs2, i);
      }
    }
  }

  /** close: the last handle moved into the gap; descriptors name handles, so
      the order does not matter. */
  lemma CloseKeeps(files: seq<File>, hs: seq<Opened>, i: nat)
    requires TableOk(files, hs) && i < |hs|
    ensures var hs2 := hs[i := hs[|hs| - 1]][..|hs| - 1];
            TableOk(files, hs2) && forall d: nat :: Held(files, hs2, d) == if d == hs[i].fd then None else Held(files, hs, d)
  {
    var n := |hs| - 1;
    var hs2 := hs[i := hs[n]][..n];
    forall a, b | 0 <= a < b < n ensures hs2[a].fd != hs2[b].fd && (hs2[a].file == hs2[b].file ==> !Sole(files[hs2[a].file])) {
      var x, y := if a == i then n else a, if b == i then n else b;
      assert hs2[a] == hs[x] && hs2[b] == hs[y];
      assert x != y;
    }
    forall d: nat ensures Held(files, hs2, d) == if d == hs[i].fd then None else Held(files, hs, d) {
      var k := FdAt(hs, d, 0);
      if d == hs[i].fd {
        forall a | 0 <= a < n ensures hs2[a].fd != d { assert hs2[a] == hs[if a == i then n else a]; }
      } else if k < |hs| {
        var at := if k == n then i else k;
        assert hs2[at] == hs[k];
        HeldIs(files, hs2, at);
      } else {
        forall a | 0 <= a < n ensures hs2[a].fd != d { assert hs2[a] == hs[if a == i then n else a]; }
      }
    }
  }

  // ---- unmounting ----

  function Shifted(h: Opened, gone: nat): Opened {
    if h.file > gone then h.(file := h.file - 1) else h
  }

  function AllShifted(hs: seq<Opened>, gone: nat): (r: seq<Opened>)
    ensures |r| == |hs| && forall k | 0 <= k < |hs| :: r[k] == Shifted(hs[k], gone)
  {
    seq(|hs|, k requires 0 <= k < |hs| => Shifted(hs[k], gone))
  }

  /** The list without the file at place i. */
  function WithoutFile(files: seq<File>, i: nat): (r: seq<File>)
    requires i < |files|
    ensures |r| == |files| - 1 && forall k | 0 <= k < |r| :: r[k] == files[if k < i then k else k + 1]
  {
    files[..i] + files[i + 1..]
  }

  lemma UnmountNames(files: seq<File>, i: nat)
    requires NamesOnce(files) && i < |files|
    ensures NamesOnce(WithoutFile(files, i)) && !Mounted(WithoutFile(files, i), files[i].name)
    ensures forall name | name != files[i].name :: Mounted(WithoutFile(files, i), name) == Mounted(files, name)
  {
    var files2 := WithoutFile(files, i);
    forall k | 0 <= k < |files2| ensures files2[k].name != files[i].name { assert files2[k] == files[if k < i then k else k + 1]; }
    forall name | name != files[i].name ensures Mounted(files2, name) == Mounted(files, name) {
      var k := NameAt(files, name, 0);
      if k < |files| { assert files2[if k < i then k else k - 1] == files[k]; }
      var q := NameAt(files2, name, 0);
      if q < |files2| { assert files2[q] == files[if q < i then q else q + 1]; }
    }
  }

  /** Files move down a place when one is unmounted; every handle keeps its own. */
  lemma UnmountKeeps(files: seq<File>, hs: seq<Opened>, i: nat)
    requires TableOk(files, hs) && i < |files| && !IsOpen(hs, i)
    ensures var files2, hs2 := WithoutFile(files, i), AllShifted(hs, i);
            TableOk(files2, hs2) && forall d: nat :: Held(files2, hs2, d) == Held(files, hs, d)
  {
    hide NamesOnce;
    var files2, hs2 := WithoutFile(files, i), AllShifted(hs, i);
    UnmountNames(files, i);
    forall k | 0 <= k < |hs| ensures hs2[k].file < |files2| && files2[hs2[k].file] == files[hs[k].file] && hs2[k].fd == hs[k].fd && hs2[k].pos == hs[k].pos {
      assert hs[k].file != i;
    }
    forall a, b | 0 <= a < b < |hs| && hs2[a].file == hs2[b].file ensures !Sole(files2[hs2[a].file]) {
      assert hs[a].file == hs[b].file;
    }
    forall d: nat ensures Held(files2, hs2, d) == Held(files, hs, d) {
      var k := FdAt(hs, d, 0);
      if k < |hs| { HeldIs(files2, hs2, k); }
    }
  }

  // ---- the record in a state ----

  /** One open file as a state holds it, by mount name. */
  datatype Rec = Rec(fd: nat, pos: nat, name: seq<byte>)

  const MOST_FDS: nat := 0x8000_0000
  const MOST_NAME: nat := 4096
  const MOST_HANDLES: nat := 65536
  const WORD4: nat := 0x1_0000_0000
  const WORD8: nat := 0x1_0000_0000_0000_0000

  function EncRec(r: Rec): (s: seq<byte>)
    ensures |s| == 16 + |r.name|
  {
    Le(r.fd, 4) + Le(r.pos, 8) + Le(|r.name|, 4) + r.name
  }

  function EncRecs(rs: seq<Rec>): seq<byte> {
    if rs == [] then [] else EncRec(rs[0]) + EncRecs(rs[1..])
  }

  function EncTable(rs: seq<Rec>): seq<byte> {
    Le(|rs|, 4) + EncRecs(rs)
  }

  predicate RecOk(r: Rec) {
    r.fd < MOST_FDS && r.pos < WORD8 && |r.name| < MOST_NAME
  }

  /** Records as mb_fs_save_handles writes them: descriptors ascending. */
  predicate RecsOk(rs: seq<Rec>) {
    Rises(rs) && forall k | 0 <= k < |rs| :: RecOk(rs[k])
  }

  /** A record read off a stream. */
  function ReadRec(s: seq<byte>): (r: Option<(Rec, seq<byte>)>)
    ensures r.Some? ==> |r.value.1| < |s|
  {
    if |s| < 16 then None
    else
      var len := OfLe(s[12..16]);
      if len >= MOST_NAME || |s| < 16 + len then None
      else Some((Rec(OfLe(s[..4]), OfLe(s[4..12]), s[16..16 + len]), s[16 + len..]))
  }

  /** The rest of a record that is not taken, read past: what follows it. */
  function SkipRecs(s: seq<byte>, n: nat): Option<seq<byte>> {
    if n == 0 then Some(s)
    else
      match ReadRec(s)
      case None => None
      case Some((_, rest)) => SkipRecs(rest, n - 1)
  }

  /** Where a position lands: past the end only where seeks may go there. */
  function Landing(pos: nat, len: nat, anywhere: bool): nat {
    if pos < len || anywhere then pos else len
  }

  /** mb_fs_load_handles: the handles, or the table left alone, or no record. */
  datatype Parsed = NoRecord | LeftAlone(rest: seq<byte>) | Taken(hs: seq<Opened>, rest: seq<byte>)

  /** `next` is one more than the last descriptor read. */
  function ParseRecs(files: seq<File>, anywhere: bool, s: seq<byte>, n: nat, next: nat, hs: seq<Opened>): Parsed
    decreases n
  {
    if n == 0 then Taken(hs, s)
    else
      match ReadRec(s)
      case None => NoRecord
      case Some((r, rest)) =>
        if r.fd >= MOST_FDS || r.fd < next then NoRecord
        else
          var f := NameAt(files, Cut(r.name), 0);
          if f == |files| then (match SkipRecs(rest, n - 1) case None => NoRecord case Some(after) => LeftAlone(after))
          else ParseRecs(files, anywhere, rest, n - 1, r.fd + 1, hs + [Opened(r.fd, f, Landing(r.pos, files[f].len, anywhere))])
  }

  function ParseTable(files: seq<File>, anywhere: bool, s: seq<byte>): Parsed {
    if |s| < 4 || OfLe(s[..4]) > MOST_HANDLES then NoRecord
    else ParseRecs(files, anywhere, s[4..], OfLe(s[..4]), 0, [])
  }

  lemma Pow4()
    ensures Pow256(4) == WORD4 && Pow256(8) == WORD8
  {
    WordSize();
    assert Pow256(2) == 0x1_0000;
  }

  lemma ReadRecBack(r: Rec, rest: seq<byte>)
    requires RecOk(r)
    ensures ReadRec(EncRec(r) + rest) == Some((r, rest))
  {
    var s := EncRec(r) + rest;
    Pow4();
    assert s[..4] == Le(r.fd, 4) && s[4..12] == Le(r.pos, 8) && s[12..16] == Le(|r.name|, 4);
    LeRound(r.fd, 4);
    LeRound(r.pos, 8);
    LeRound(|r.name|, 4);
    assert s[16..16 + |r.name|] == r.name && s[16 + |r.name|..] == rest;
  }

  lemma {:induction false} SkipBack(rs: seq<Rec>, rest: seq<byte>)
    requires forall k | 0 <= k < |rs| :: RecOk(rs[k])
    ensures SkipRecs(EncRecs(rs) + rest, |rs|) == Some(rest)
    decreases |rs|
  {
    hide RecOk, EncRec, ReadRec;
    if rs == [] {
      assert EncRecs(rs) + rest == rest;
    } else {
      assert EncRecs(rs) + rest == EncRec(rs[0]) + (EncRecs(rs[1..]) + rest);
      ReadRecBack(rs[0], EncRecs(rs[1..]) + rest);
      SkipBack(rs[1..], rest);
    }
  }

  /** Every file the records name is mounted. */
  predicate AllMounted(files: seq<File>, rs: seq<Rec>) {
    forall k | 0 <= k < |rs| :: Mounted(files, Cut(rs[k].name))
  }

  function Reopened(files: seq<File>, anywhere: bool, r: Rec): Opened
    requires Mounted(files, Cut(r.name))
  {
    var f := NameAt(files, Cut(r.name), 0);
    Opened(r.fd, f, Landing(r.pos, files[f].len, anywhere))
  }

  function AllReopened(files: seq<File>, anywhere: bool, rs: seq<Rec>): (hs: seq<Opened>)
    requires AllMounted(files, rs)
    ensures |hs| == |rs| && forall k | 0 <= k < |rs| :: hs[k] == Reopened(files, anywhere, rs[k])
  {
    seq(|rs|, k requires 0 <= k < |rs| => Reopened(files, anywhere, rs[k]))
  }

  /** One record in front of a stream. */
  lemma ParseStep(files: seq<File>, anywhere: bool, r: Rec, tail: seq<byte>, n: nat, next: nat, hs: seq<Opened>)
    requires RecOk(r) && next <= r.fd
    ensures ParseRecs(files, anywhere, EncRec(r) + tail, n + 1, next, hs) ==
              if Mounted(files, Cut(r.name)) then ParseRecs(files, anywhere, tail, n, r.fd + 1, hs + [Reopened(files, anywhere, r)])
              else if SkipRecs(tail, n) == None then NoRecord else LeftAlone(SkipRecs(tail, n).value)
  {
    hide EncRec, ReadRec, SkipRecs, Landing, Cut;
    ReadRecBack(r, tail);
  }

  lemma EncMore(rs: seq<Rec>, rest: seq<byte>)
    requires rs != []
    ensures EncRecs(rs) + rest == EncRec(rs[0]) + (EncRecs(rs[1..]) + rest)
  {
  }

  lemma MountMore(files: seq<File>, rs: seq<Rec>)
    requires rs != []
    ensures AllMounted(files, rs) <==> Mounted(files, Cut(rs[0].name)) && AllMounted(files, rs[1..])
  {
    assert rs == [rs[0]] + rs[1..];
  }

  lemma ReopenMore(files: seq<File>, anywhere: bool, rs: seq<Rec>, hs: seq<Opened>)
    requires rs != [] && AllMounted(files, rs) && AllMounted(files, rs[1..])
    ensures hs + [Reopened(files, anywhere, rs[0])] + AllReopened(files, anywhere, rs[1..]) == hs + AllReopened(files, anywhere, rs)
  {
  }

  lemma ParseNone(files: seq<File>, anywhere: bool, next: nat, hs: seq<Opened>, rest: seq<byte>)
    ensures AllMounted(files, []) && hs + AllReopened(files, anywhere, []) == hs
    ensures ParseRecs(files, anywhere, EncRecs([]) + rest, 0, next, hs) == Taken(hs, rest)
  {
    assert EncRecs([]) + rest == rest;
  }

  lemma {:induction false} ParseBack(files: seq<File>, anywhere: bool, rs: seq<Rec>, next: nat, hs: seq<Opened>, rest: seq<byte>)
    requires RecsOk(rs) && (rs != [] ==> next <= rs[0].fd)
    ensures ParseRecs(files, anywhere, EncRecs(rs) + rest, |rs|, next, hs) ==
              if AllMounted(files, rs) then Taken(hs + AllReopened(files, anywhere, rs), rest) else LeftAlone(rest)
    decreases |rs|
  {
    hide EncRec, EncRecs, ParseRecs, AllMounted, AllReopened, Mounted, Reopened, RecsOk, SkipRecs, RecOk;
    if rs == [] {
      ParseNone(files, anywhere, next, hs, rest);
    } else {
      var r, more := rs[0], rs[1..];
      EncMore(rs, rest);
      MoreOk(rs);
      MountMore(files, rs);
      ParseStep(files, anywhere, r, EncRecs(more) + rest, |more|, next, hs);
      if !Mounted(files, Cut(r.name)) {
        SkipBack(more, rest);
      } else {
        ParseBack(files, anywhere, more, r.fd + 1, hs + [Reopened(files, anywhere, r)], rest);
        if AllMounted(files, rs) { ReopenMore(files, anywhere, rs, hs); }
      }
    }
  }

  lemma MoreOk(rs: seq<Rec>)
    requires RecsOk(rs) && rs != []
    ensures RecOk(rs[0]) && RecsOk(rs[1..]) && (|rs| > 1 ==> rs[0].fd + 1 <= rs[1..][0].fd)
    ensures forall k | 0 <= k < |rs| - 1 :: RecOk(rs[1..][k])
  {
    forall k | 0 <= k < |rs| - 1 ensures RecOk(rs[1..][k]) { assert rs[1..][k] == rs[k + 1]; }
    forall a, b | 0 <= a < b < |rs| - 1 ensures rs[1..][a].fd < rs[1..][b].fd { assert rs[1..][a] == rs[a + 1] && rs[1..][b] == rs[b + 1]; }
  }

  /** A saved record is read back whole whether it is taken or not, and nothing
      after it is touched; it is taken exactly when every file it names is
      mounted. */
  lemma TableBack(files: seq<File>, anywhere: bool, rs: seq<Rec>, rest: seq<byte>)
    requires RecsOk(rs) && |rs| <= MOST_HANDLES
    ensures ParseTable(files, anywhere, EncTable(rs) + rest) ==
              if AllMounted(files, rs) then Taken(AllReopened(files, anywhere, rs), rest) else LeftAlone(rest)
  {
    hide ParseRecs, AllMounted;
    var s := EncTable(rs) + rest;
    Pow4();
    LeRound(|rs|, 4);
    assert s[..4] == Le(|rs|, 4) && s[4..] == EncRecs(rs) + rest;
    ParseBack(files, anywhere, rs, 0, [], rest);
    if AllMounted(files, rs) { assert [] + AllReopened(files, anywhere, rs) == AllReopened(files, anywhere, rs); }
  }

  // ---- what a record says, taken or not ----

  /** The next n records of a stream, as far as it has them. */
  function RecsIn(s: seq<byte>, n: nat): (rs: seq<Rec>)
    ensures |rs| <= n
    decreases n
  {
    if n == 0 || ReadRec(s) == None then []
    else [ReadRec(s).value.0] + RecsIn(ReadRec(s).value.1, n - 1)
  }

  /** The records a stream begins with. */
  function Records(s: seq<byte>): seq<Rec> {
    if |s| < 4 then [] else RecsIn(s[4..], OfLe(s[..4]))
  }

  lemma {:induction false} RecsBack(rs: seq<Rec>, rest: seq<byte>)
    requires forall k | 0 <= k < |rs| :: RecOk(rs[k])
    ensures RecsIn(EncRecs(rs) + rest, |rs|) == rs
    decreases |rs|
  {
    hide RecOk, EncRec, ReadRec;
    if rs != [] {
      EncMore(rs, rest);
      ReadRecBack(rs[0], EncRecs(rs[1..]) + rest);
      RecsBack(rs[1..], rest);
    }
  }

  /** Records written and read. */
  lemma RecordsBack(rs: seq<Rec>, rest: seq<byte>)
    requires RecsOk(rs) && |rs| <= MOST_HANDLES
    ensures Records(EncTable(rs) + rest) == rs
  {
    hide RecsIn, EncRecs;
    var s := EncTable(rs) + rest;
    Pow4();
    LeRound(|rs|, 4);
    assert s[..4] == Le(|rs|, 4) && s[4..] == EncRecs(rs) + rest;
    RecsBack(rs, rest);
  }

  /** What is taken is what the records say. */
  lemma {:induction false} ParseTaken(files: seq<File>, anywhere: bool, s: seq<byte>, n: nat, next: nat, hs: seq<Opened>)
    requires ParseRecs(files, anywhere, s, n, next, hs).Taken?
    ensures AllMounted(files, RecsIn(s, n))
    ensures ParseRecs(files, anywhere, s, n, next, hs).hs == hs + AllReopened(files, anywhere, RecsIn(s, n))
    decreases n
  {
    hide ReadRec, Landing, Cut, Mounted;
    if n > 0 {
      var (r, rest) := ReadRec(s).value;
      assert Mounted(files, Cut(r.name)) by { MountedIs(files, Cut(r.name)); }
      ParseTaken(files, anywhere, rest, n - 1, r.fd + 1, hs + [Reopened(files, anywhere, r)]);
      var rs := RecsIn(s, n);
      assert rs[0] == r && rs[1..] == RecsIn(rest, n - 1);
      MountMore(files, rs);
      ReopenMore(files, anywhere, rs, hs);
    }
  }

  /** A handle is what a record says: its descriptor, on the file of that name,
      where the record says if that is before the file's end or seeks may go
      anywhere, and else at the end. */
  predicate OpenedAs(files: seq<File>, anywhere: bool, r: Rec, h: Opened) {
    && h.fd == r.fd && h.file < |files| && files[h.file].name == Cut(r.name)
    && (r.pos < files[h.file].len || anywhere ==> h.pos == r.pos)
    && (r.pos >= files[h.file].len && !anywhere ==> h.pos == files[h.file].len)
  }

  predicate AllOpenedAs(files: seq<File>, anywhere: bool, rs: seq<Rec>, hs: seq<Opened>) {
    |hs| == |rs| && forall k | 0 <= k < |rs| :: OpenedAs(files, anywhere, rs[k], hs[k])
  }

  /** The first record whose file is not mounted, or their number. */
  function MissingAt(files: seq<File>, rs: seq<Rec>): (m: nat)
    ensures m <= |rs| && (m < |rs| ==> !Mounted(files, Cut(rs[m].name)))
    ensures forall k | 0 <= k < m :: Mounted(files, Cut(rs[k].name))
  {
    if rs == [] || !Mounted(files, Cut(rs[0].name)) then 0 else 1 + MissingAt(files, rs[1..])
  }

  /** The first m records have descriptors in rising order, none below `next`. */
  predicate InOrder(rs: seq<Rec>, m: nat, next: nat)
    requires m <= |rs|
  {
    (forall k | 0 <= k < m :: next <= rs[k].fd < MOST_FDS) && forall a, b | 0 <= a < b < m :: rs[a].fd < rs[b].fd
  }

  lemma {:induction false} SkipAll(s: seq<byte>, n: nat)
    ensures SkipRecs(s, n).Some? <==> |RecsIn(s, n)| == n
    decreases n
  {
    hide ReadRec;
    if n > 0 && ReadRec(s).Some? { SkipAll(ReadRec(s).value.1, n - 1); }
  }

  /** Taken exactly when all of the record is there, its descriptors rise, and
      every file is mounted. Left alone exactly when all of it is there and a
      file is not mounted, with the descriptors in order so far. Both leave the
      stream behind the whole record. */
  predicate Outcome(files: seq<File>, s: seq<byte>, n: nat, next: nat, p: Parsed) {
    var rs := RecsIn(s, n);
    var m := MissingAt(files, rs);
    && (p.Taken? <==> |rs| == n && m == n && InOrder(rs, n, next))
    && (p.LeftAlone? <==> |rs| == n && m < n && InOrder(rs, m + 1, next))
    && (p.NoRecord? || SkipRecs(s, n) == Some(p.rest))
  }

  lemma OrderMore(rs: seq<Rec>, m: nat, next: nat)
    requires 0 < m <= |rs|
    ensures InOrder(rs, m, next) <==> next <= rs[0].fd < MOST_FDS && InOrder(rs[1..], m - 1, rs[0].fd + 1)
  {
    var tail := rs[1..];
    forall k | 0 <= k < m - 1 ensures tail[k] == rs[k + 1] {
    }
    if next <= rs[0].fd < MOST_FDS && InOrder(tail, m - 1, rs[0].fd + 1) {
      forall k | 0 <= k < m ensures next <= rs[k].fd < MOST_FDS {
        if k > 0 { assert rs[k] == tail[k - 1]; }
      }
      forall a, b | 0 <= a < b < m ensures rs[a].fd < rs[b].fd {
        assert rs[b] == tail[b - 1];
        if a > 0 { assert rs[a] == tail[a - 1]; }
      }
    }
    if InOrder(rs, m, next) {
      forall k | 0 <= k < m - 1 ensures rs[0].fd + 1 <= tail[k].fd < MOST_FDS {
        assert rs[0].fd < rs[k + 1].fd;
      }
      forall a, b | 0 <= a < b < m - 1 ensures tail[a].fd < tail[b].fd {
        assert rs[a + 1].fd < rs[b + 1].fd;
      }
    }
  }

  /** A record in front whose file is mounted and whose descriptor is in order. */
  lemma OutcomeMore(files: seq<File>, s: seq<byte>, n: nat, next: nat, p: Parsed)
    requires n > 0 && ReadRec(s).Some?
    requires var r := ReadRec(s).value.0; next <= r.fd < MOST_FDS && Mounted(files, Cut(r.name))
    requires Outcome(files, ReadRec(s).value.1, n - 1, ReadRec(s).value.0.fd + 1, p)
    ensures Outcome(files, s, n, next, p)
  {
    hide ReadRec, Cut, Mounted, InOrder;
    var (r, rest) := ReadRec(s).value;
    var rs := RecsIn(s, n);
    assert rs[0] == r && rs[1..] == RecsIn(rest, n - 1);
    if |rs| == n {
      var m := MissingAt(files, rs);
      OrderMore(rs, if m < n then m + 1 else n, next);
    }
  }

  /** A record in front that ends the reading: out of order, or not mounted. */
  lemma OutcomeEnds(files: seq<File>, anywhere: bool, s: seq<byte>, n: nat, next: nat, hs: seq<Opened>)
    requires n > 0 && ReadRec(s).Some?
    requires var r := ReadRec(s).value.0; !(next <= r.fd < MOST_FDS && Mounted(files, Cut(r.name)))
    ensures Outcome(files, s, n, next, ParseRecs(files, anywhere, s, n, next, hs))
  {
    hide ReadRec, Landing, Cut, Mounted, InOrder;
    var (r, rest) := ReadRec(s).value;
    var rs := RecsIn(s, n);
    assert rs[0] == r && rs[1..] == RecsIn(rest, n - 1);
    SkipAll(rest, n - 1);
    MountedIs(files, Cut(r.name));
    OrderNone(rs[1..], r.fd + 1);
    if |rs| == n {
      var m := MissingAt(files, rs);
      OrderMore(rs, if m < n then m + 1 else n, next);
    }
  }

  /** No record asked for, or none there. */
  lemma OutcomeNone(files: seq<File>, s: seq<byte>, n: nat, next: nat, hs: seq<Opened>)
    requires n == 0 || ReadRec(s) == None
    ensures Outcome(files, s, n, next, if n == 0 then Taken(hs, s) else NoRecord)
  {
    hide ReadRec, Cut, Mounted;
    OrderNone([], next);
  }

  /** A record in front that is taken: the rest is read. */
  lemma ParseMore(files: seq<File>, anywhere: bool, s: seq<byte>, n: nat, next: nat, hs: seq<Opened>)
    requires n > 0 && ReadRec(s).Some?
    requires var r := ReadRec(s).value.0; next <= r.fd < MOST_FDS && Mounted(files, Cut(r.name))
    ensures var (r, rest) := ReadRec(s).value;
            ParseRecs(files, anywhere, s, n, next, hs) == ParseRecs(files, anywhere, rest, n - 1, r.fd + 1, hs + [Reopened(files, anywhere, r)])
  {
    hide ReadRec, Landing, Cut, SkipRecs;
  }

  lemma {:induction false} ParseOutcome(files: seq<File>, anywhere: bool, s: seq<byte>, n: nat, next: nat, hs: seq<Opened>)
    ensures Outcome(files, s, n, next, ParseRecs(files, anywhere, s, n, next, hs))
    decreases n
  {
    hide ReadRec, Cut, Mounted, Outcome, Reopened;
    if n == 0 || ReadRec(s) == None {
      OutcomeNone(files, s, n, next, hs);
    } else {
      hide ParseRecs;
      var (r, rest) := ReadRec(s).value;
      if next <= r.fd < MOST_FDS && Mounted(files, Cut(r.name)) {
        ParseMore(files, anywhere, s, n, next, hs);
        ParseOutcome(files, anywhere, rest, n - 1, r.fd + 1, hs + [Reopened(files, anywhere, r)]);
        OutcomeMore(files, s, n, next, ParseRecs(files, anywhere, s, n, next, hs));
      } else {
        OutcomeEnds(files, anywhere, s, n, next, hs);
      }
    }
  }

  lemma OrderNone(rs: seq<Rec>, next: nat)
    ensures InOrder(rs, 0, next)
  {
  }

  /** A state's record of open files, read: what becomes of it, and, taken, what
      every handle is. */
  lemma LoadOutcome(files: seq<File>, anywhere: bool, s: seq<byte>)
    ensures var p := ParseTable(files, anywhere, s);
            if |s| < 4 || OfLe(s[..4]) > MOST_HANDLES then p.NoRecord?
            else Outcome(files, s[4..], OfLe(s[..4]), 0, p) && (p.Taken? ==> AllOpenedAs(files, anywhere, Records(s), p.hs))
  {
    hide ParseRecs, RecsIn, Outcome, Cut;
    if |s| >= 4 && OfLe(s[..4]) <= MOST_HANDLES {
      var n := OfLe(s[..4]);
      ParseOutcome(files, anywhere, s[4..], n, 0, []);
      if ParseTable(files, anywhere, s).Taken? {
        ParseTaken(files, anywhere, s[4..], n, 0, []);
        var rs := Records(s);
        var hs := AllReopened(files, anywhere, rs);
        assert ParseTable(files, anywhere, s).hs == hs;
        forall k | 0 <= k < |rs| ensures OpenedAs(files, anywhere, rs[k], hs[k]) {
          assert Mounted(files, Cut(rs[k].name));
        }
      }
    }
  }

  lemma MountedIs(files: seq<File>, name: seq<byte>)
    ensures Mounted(files, name) <==> NameAt(files, name, 0) < |files|
  {
  }

  /** No two of the records name one file that only one handle may have open. */
  predicate SoleNamed(files: seq<File>, rs: seq<Rec>) {
    forall a, b | 0 <= a < b < |rs| && Cut(rs[a].name) == Cut(rs[b].name) && Mounted(files, Cut(rs[a].name)) ::
      !Sole(files[NameAt(files, Cut(rs[a].name), 0)])
  }

  lemma SoleReopened(files: seq<File>, anywhere: bool, rs: seq<Rec>)
    requires AllMounted(files, rs)
    ensures Placed(files, AllReopened(files, anywhere, rs))
    ensures SoleOnce(files, AllReopened(files, anywhere, rs)) <==> SoleNamed(files, rs)
  {
    hide Cut, Landing;
    var hs := AllReopened(files, anywhere, rs);
    forall k | 0 <= k < |hs| ensures hs[k].file == NameAt(files, Cut(rs[k].name), 0) < |files| {
      assert Mounted(files, Cut(rs[k].name));
    }
    forall a, b | 0 <= a < b < |rs| ensures hs[a].file == hs[b].file <==> Cut(rs[a].name) == Cut(rs[b].name) {
      assert files[hs[a].file].name == Cut(rs[a].name) && files[hs[b].file].name == Cut(rs[b].name);
    }
    if SoleOnce(files, hs) {
      forall a, b | 0 <= a < b < |rs| && Cut(rs[a].name) == Cut(rs[b].name) ensures !Sole(files[NameAt(files, Cut(rs[a].name), 0)]) {
        assert hs[a].file == hs[b].file;
      }
    }
    if SoleNamed(files, rs) {
      forall a, b | 0 <= a < b < |hs| && hs[a].file == hs[b].file ensures !Sole(files[hs[a].file]) {
        assert Cut(rs[a].name) == Cut(rs[b].name);
      }
    }
  }

  /** A record that is taken leaves a writable file open twice exactly when it
      names one twice: nothing looks for that. */
  lemma SoleExactly(files: seq<File>, anywhere: bool, s: seq<byte>)
    requires ParseTable(files, anywhere, s).Taken?
    ensures Placed(files, ParseTable(files, anywhere, s).hs)
    ensures SoleOnce(files, ParseTable(files, anywhere, s).hs) <==> SoleNamed(files, Records(s))
  {
    hide ParseRecs, RecsIn;
    ParseTaken(files, anywhere, s[4..], OfLe(s[..4]), 0, []);
    var rs := Records(s);
    assert [] + AllReopened(files, anywhere, rs) == AllReopened(files, anywhere, rs);
    SoleReopened(files, anywhere, rs);
  }

  /** One writable file, and a record with two descriptors on it. */
  lemma OpenTwice(anywhere: bool, rest: seq<byte>)
    ensures var files := [File([47], Regular, true, 0)];
            var s := EncTable([Rec(3, 0, [47]), Rec(4, 0, [47])]) + rest;
            && NamesOnce(files) && ParseTable(files, anywhere, s).Taken?
            && Placed(files, ParseTable(files, anywhere, s).hs) && !SoleOnce(files, ParseTable(files, anywhere, s).hs)
  {
    hide ParseTable, EncTable, Records;
    var files, rs := [File([47], Regular, true, 0)], [Rec(3, 0, [47]), Rec(4, 0, [47])];
    CutSame([47]);
    assert Cut(rs[0].name) == Cut(rs[1].name) == [47] && Mounted(files, [47]);
    TableBack(files, anywhere, rs, rest);
    RecordsBack(rs, rest);
    SoleExactly(files, anywhere, EncTable(rs) + rest);
    assert !SoleNamed(files, rs);
  }

  // ---- saved and loaded ----

  /** What mb_fs_save_handles writes of a table: a record a handle, descriptors
      ascending. */
  predicate Saves(files: seq<File>, hs: seq<Opened>, rs: seq<Rec>)
    requires Placed(files, hs)
  {
    && |rs| == |hs| && Rises(rs)
    && forall k | 0 <= k < |rs| :: Held(files, hs, rs[k].fd) == Some((rs[k].name, rs[k].pos))
  }

  predicate HasFd(rs: seq<Rec>, d: nat) {
    exists k | 0 <= k < |rs| :: rs[k].fd == d
  }

  /** Every handle is among the records: there are as many as descriptors. */
  lemma SavesAll(files: seq<File>, hs: seq<Opened>, rs: seq<Rec>, i: nat)
    requires TableOk(files, hs) && Saves(files, hs, rs) && i < |hs|
    ensures HasFd(rs, hs[i].fd)
  {
    if forall k | 0 <= k < |rs| :: rs[k].fd != hs[i].fd {
      var places := seq(|rs|, k requires 0 <= k < |rs| => FdAt(hs, rs[k].fd, 0));
      forall a, b | 0 <= a < b < |places| ensures places[a] != places[b] {
        assert Held(files, hs, rs[a].fd).Some? && Held(files, hs, rs[b].fd).Some?;
      }
      forall k | 0 <= k < |places| ensures places[k] < |hs| && places[k] != i { assert Held(files, hs, rs[k].fd).Some?; }
      TooMany(places + [i], |hs|);
    }
  }

  /** Distinct numbers below n are at most n. */
  lemma {:induction false} TooMany(list: seq<nat>, n: nat)
    requires (forall a, b | 0 <= a < b < |list| :: list[a] != list[b]) && forall k | 0 <= k < |list| :: list[k] < n
    ensures |list| <= n
    decreases n
  {
    if list != [] {
      assert list[0] < n;
      if k :| 0 <= k < |list| && list[k] == n - 1 {
        var rest := list[..k] + list[k + 1..];
        forall a, b | 0 <= a < b < |rest| ensures rest[a] != rest[b] {
          assert rest[a] == list[if a < k then a else a + 1] && rest[b] == list[if b < k then b else b + 1];
        }
        forall a | 0 <= a < |rest| ensures rest[a] < n - 1 { assert rest[a] == list[if a < k then a else a + 1]; }
        TooMany(rest, n - 1);
      } else {
        TooMany(list, n - 1);
      }
    }
  }

  /** The same open files write the same record, however the table holds them. */
  lemma SavedAlike(files: seq<File>, hs: seq<Opened>, rs: seq<Rec>, files2: seq<File>, hs2: seq<Opened>, rs2: seq<Rec>)
    requires TableOk(files, hs) && TableOk(files2, hs2) && Saves(files, hs, rs) && Saves(files2, hs2, rs2)
    requires forall d: nat :: Held(files, hs, d) == Held(files2, hs2, d)
    ensures rs == rs2
  {
    forall d: nat ensures HasFd(rs, d) <==> HasFd(rs2, d) {
      SavedFd(files, hs, rs, d);
      SavedFd(files2, hs2, rs2, d);
    }
    SortedAlike(rs, rs2);
    forall k | 0 <= k < |rs| ensures rs[k] == rs2[k] {
      assert Held(files, hs, rs[k].fd) == Held(files2, hs2, rs2[k].fd);
    }
  }

  lemma SavedFd(files: seq<File>, hs: seq<Opened>, rs: seq<Rec>, d: nat)
    requires TableOk(files, hs) && Saves(files, hs, rs)
    ensures HasFd(rs, d) <==> Held(files, hs, d).Some?
  {
    var i := FdAt(hs, d, 0);
    if i < |hs| { SavesAll(files, hs, rs, i); }
  }

  /** Two ascending lists with the same descriptors. */
  lemma {:induction false} SortedAlike(a: seq<Rec>, b: seq<Rec>)
    requires Rises(a) && Rises(b) && forall d: nat :: HasFd(a, d) <==> HasFd(b, d)
    ensures |a| == |b| && forall k | 0 <= k < |a| :: a[k].fd == b[k].fd
    decreases |a|
  {
    if a == [] {
      if b != [] { assert HasFd(b, b[0].fd); }
    } else {
      assert HasFd(a, a[0].fd);
      var k :| 0 <= k < |b| && b[k].fd == a[0].fd;
      assert HasFd(b, b[0].fd);
      var j :| 0 <= j < |a| && a[j].fd == b[0].fd;
      assert b[0].fd == a[0].fd;
      forall d: nat ensures HasFd(a[1..], d) <==> HasFd(b[1..], d) {
        TailFd(a, d);
        TailFd(b, d);
      }
      TailRises(a);
      TailRises(b);
      SortedAlike(a[1..], b[1..]);
      forall i | 0 <= i < |a| ensures a[i].fd == b[i].fd {
        if i > 0 { assert a[i] == a[1..][i - 1] && b[i] == b[1..][i - 1]; }
      }
    }
  }

  predicate Rises(rs: seq<Rec>) {
    forall i, j | 0 <= i < j < |rs| :: rs[i].fd < rs[j].fd
  }

  lemma TailRises(a: seq<Rec>)
    requires a != [] && Rises(a)
    ensures Rises(a[1..])
  {
    forall i, j | 0 <= i < j < |a| - 1 ensures a[1..][i].fd < a[1..][j].fd { assert a[1..][i] == a[i + 1] && a[1..][j] == a[j + 1]; }
  }

  lemma TailFd(a: seq<Rec>, d: nat)
    requires a != [] && Rises(a)
    ensures HasFd(a[1..], d) <==> HasFd(a, d) && d != a[0].fd
  {
    if HasFd(a[1..], d) {
      var i :| 0 <= i < |a[1..]| && a[1..][i].fd == d;
      assert a[i + 1].fd == d;
    }
    if HasFd(a, d) && d != a[0].fd {
      var i :| 0 <= i < |a| && a[i].fd == d;
      assert a[1..][i - 1].fd == d;
    }
  }

  /** The same mounts, in any order: the same names, writable alike. */
  predicate SameMounts(a: seq<File>, b: seq<File>) {
    && (forall k | 0 <= k < |a| :: Mounted(b, a[k].name))
    && forall k | 0 <= k < |a| && Mounted(b, a[k].name) :: Sole(b[NameAt(b, a[k].name, 0)]) == Sole(a[k])
  }

  /** What a descriptor has open once loaded here: the same file, at the same
      position if that is before its end or seeks may go anywhere, and else at
      its end. */
  predicate Arrives(files: seq<File>, anywhere: bool, was: Option<(seq<byte>, nat)>, now: Option<(seq<byte>, nat)>) {
    && (now.Some? <==> was.Some?)
    && (was.Some? ==>
          && now.value.0 == was.value.0 && Mounted(files, was.value.0)
          && forall f | 0 <= f < |files| && files[f].name == was.value.0 ::
               && (was.value.1 < files[f].len || anywhere ==> now.value.1 == was.value.1)
               && (was.value.1 >= files[f].len && !anywhere ==> now.value.1 == files[f].len))
  }

  /** A table saved here and loaded where the same files are mounted, in whatever
      order: every descriptor has the same file open where it was, but for a
      position past what is left of the file, and no writable file is open twice. */
  lemma SavedLoads(files: seq<File>, hs: seq<Opened>, rs: seq<Rec>, files2: seq<File>, anywhere: bool)
    requires TableOk(files, hs) && Saves(files, hs, rs) && NamesOnce(files2) && SameMounts(files, files2)
    ensures AllMounted(files2, rs)
    ensures var hs2 := AllReopened(files2, anywhere, rs);
            && TableOk(files2, hs2)
            && forall d: nat :: Arrives(files2, anywhere, Held(files, hs, d), Held(files2, hs2, d))
  {
    forall k | 0 <= k < |rs| ensures Cut(rs[k].name) == rs[k].name && Mounted(files2, rs[k].name) {
      SavedName(files, hs, rs, k);
    }
    var hs2 := AllReopened(files2, anywhere, rs);
    LoadedOnce(files, hs, rs, files2, anywhere);
    forall d: nat ensures Arrives(files2, anywhere, Held(files, hs, d), Held(files2, hs2, d)) {
      FdArrives(files, hs, rs, files2, anywhere, d);
    }
  }

  lemma FdArrives(files: seq<File>, hs: seq<Opened>, rs: seq<Rec>, files2: seq<File>, anywhere: bool, d: nat)
    requires TableOk(files, hs) && Saves(files, hs, rs) && NamesOnce(files2) && AllMounted(files2, rs)
    requires TableOk(files2, AllReopened(files2, anywhere, rs))
    ensures Arrives(files2, anywhere, Held(files, hs, d), Held(files2, AllReopened(files2, anywhere, rs), d))
  {
    hide SoleOnce;
    var hs2 := AllReopened(files2, anywhere, rs);
    SavedFd(files, hs, rs, d);
    if Held(files, hs, d).Some? {
      var k :| 0 <= k < |rs| && rs[k].fd == d;
      SavedName(files, hs, rs, k);
      assert Mounted(files2, Cut(rs[k].name));
      assert hs2[k] == Reopened(files2, anywhere, rs[k]);
      HeldIs(files2, hs2, k);
    } else {
      forall k | 0 <= k < |hs2| ensures hs2[k].fd != d { assert hs2[k] == Reopened(files2, anywhere, rs[k]); }
    }
  }

  /** What is saved is a name. */
  lemma SavedName(files: seq<File>, hs: seq<Opened>, rs: seq<Rec>, k: nat)
    requires Placed(files, hs) && Saves(files, hs, rs) && k < |rs|
    ensures var i := FdAt(hs, rs[k].fd, 0); i < |hs| && files[hs[i].file].name == rs[k].name
    ensures Cut(rs[k].name) == rs[k].name
  {
    assert Held(files, hs, rs[k].fd).Some?;
    CutSame(files[hs[FdAt(hs, rs[k].fd, 0)].file].name);
  }

  /** The whole way: a table saved, written, and read back from a stream where
      the same files are mounted. */
  lemma StateCarriesFiles(files: seq<File>, hs: seq<Opened>, rs: seq<Rec>, files2: seq<File>, anywhere: bool, rest: seq<byte>)
    requires TableOk(files, hs) && Saves(files, hs, rs) && NamesOnce(files2) && SameMounts(files, files2)
    requires RecsOk(rs) && |rs| <= MOST_HANDLES
    ensures var p := ParseTable(files2, anywhere, EncTable(rs) + rest);
            && p.Taken? && p.rest == rest && TableOk(files2, p.hs)
            && forall d: nat :: Arrives(files2, anywhere, Held(files, hs, d), Held(files2, p.hs, d))
  {
    hide ParseTable, EncTable, Held, Saves, SameMounts, AllReopened, AllMounted, RecsOk, Arrives;
    SavedLoads(files, hs, rs, files2, anywhere);
    TableBack(files2, anywhere, rs, rest);
  }

  lemma LoadedOnce(files: seq<File>, hs: seq<Opened>, rs: seq<Rec>, files2: seq<File>, anywhere: bool)
    requires TableOk(files, hs) && Saves(files, hs, rs) && NamesOnce(files2) && SameMounts(files, files2) && AllMounted(files2, rs)
    ensures TableOk(files2, AllReopened(files2, anywhere, rs))
  {
    var hs2 := AllReopened(files2, anywhere, rs);
    forall k | 0 <= k < |hs2| ensures hs2[k] == Reopened(files2, anywhere, rs[k]) && hs2[k].file < |files2| {
    }
    forall a, b | 0 <= a < b < |hs2| && hs2[a].file == hs2[b].file ensures !Sole(files2[hs2[a].file]) {
      var x, y := FdAt(hs, rs[a].fd, 0), FdAt(hs, rs[b].fd, 0);
      SavedName(files, hs, rs, a);
      SavedName(files, hs, rs, b);
      assert rs[a].name == rs[b].name == files2[hs2[a].file].name;
      assert files[hs[x].file].name == files[hs[y].file].name;
      assert hs[x].file == hs[y].file && x != y;
    }
  }

  // ---- the table in place ----

  /** "/dev/stdin", "/dev/stdout" and "/dev/stderr". */
  const STDIN: seq<byte> := [47, 100, 101, 118, 47, 115, 116, 100, 105, 110]
  const STDOUT: seq<byte> := [47, 100, 101, 118, 47, 115, 116, 100, 111, 117, 116]
  const STDERR: seq<byte> := [47, 100, 101, 118, 47, 115, 116, 100, 101, 114, 114]

  class FileTable {
    var files: seq<File>
    var hs: seq<Opened>
    /** linux_answers: a position may be put past a file's end. */
    const anywhere: bool

    ghost predicate Valid()
      reads this
    {
      TableOk(files, hs)
    }

    ghost function Has(fd: nat): Option<(seq<byte>, nat)>
      requires Valid()
      reads this
    {
      Held(files, hs, fd)
    }

    /** mb_fs_new: the three standard streams, open on 0, 1 and 2. */
    constructor (linux: bool)
      ensures Valid() && anywhere == linux
      ensures Has(0) == Some((STDIN, 0)) && Has(1) == Some((STDOUT, 0)) && Has(2) == Some((STDERR, 0))
      ensures forall fd: nat | fd > 2 :: Has(fd) == None
    {
      anywhere := linux;
      files := [File(STDIN, EmptyFile, false, 0), File(STDOUT, SysOut, false, 0), File(STDERR, SysOut, false, 0)];
      hs := [Opened(0, 0, 0), Opened(1, 1, 0), Opened(2, 2, 0)];
      new;
      assert |STDIN| < |STDOUT| == |STDERR| && STDOUT[8] != STDERR[8];
      HeldIs(files, hs, 0);
      HeldIs(files, hs, 1);
      HeldIs(files, hs, 2);
    }

    /** handle_by_fd, as a place. */
    method FindFd(fd: nat) returns (i: nat)
      ensures i == FdAt(hs, fd, 0)
    {
      i := 0;
      while i < |hs| && hs[i].fd != fd
        invariant i <= |hs| && FdAt(hs, fd, 0) == FdAt(hs, fd, i)
      {
        i := i + 1;
      }
    }

    /** by_name, as a place. */
    method FindName(name: seq<byte>) returns (i: nat)
      ensures i == NameAt(files, name, 0)
    {
      i := 0;
      while i < |files| && files[i].name != name
        invariant i <= |files| && NameAt(files, name, 0) == NameAt(files, name, i)
      {
        i := i + 1;
      }
    }

    /** file_is_open */
    method FileIsOpen(file: nat) returns (r: bool)
      ensures r == IsOpen(hs, file)
    {
      var i := 0;
      while i < |hs|
        invariant i <= |hs| && forall k | 0 <= k < i :: hs[k].file != file
      {
        if hs[i].file == file { return true; }
        i := i + 1;
      }
      return false;
    }

    /** handle_add: on the lowest free descriptor. */
    method Add(file: nat, pos: nat) returns (fd: nat)
      requires Valid() && file < |files| && (Sole(files[file]) ==> !IsOpen(hs, file))
      modifies `hs
      ensures Valid() && Lowest(old(hs), fd) && Has(fd) == Some((files[file].name, pos))
      ensures forall d: nat | d != fd :: Has(d) == old(Has(d))
    {
      fd := 0;
      var i := FindFd(0);
      while i < |hs|
        invariant hs == old(hs) && i == FdAt(hs, fd, 0) && forall lower: nat | lower < fd :: !Free(hs, lower)
        decreases |hs| + 1 - fd
      {
        TakenFits(hs, fd);
        fd := fd + 1;
        i := FindFd(fd);
      }
      AddKeeps(files, hs, fd, file, pos);
      hs := hs + [Opened(fd, file, pos)];
    }

    /** mb_fs_mount, and the two that mount a host's file. */
    method Mount(name: CString, kind: Kind, writable: bool, len: nat) returns (r: Reply)
      requires Valid()
      modifies `files
      ensures Valid() && (r == Refused(Exists) <==> Mounted(old(files), name)) && (r.Refused? ==> r.why == Exists)
      ensures files == if r.Refused? then old(files) else old(files) + [File(name, kind, writable, len)]
      ensures forall d: nat :: Has(d) == old(Has(d))
    {
      var i := FindName(name);
      if i < |files| { return Refused(Exists); }
      files := files + [File(name, kind, writable, len)];
      return Fine(0);
    }

    /** mb_fs_unmount; `flushed` is whether closing a host's file wrote all that
        was left to write. */
    method Unmount(name: CString, flushed: bool) returns (r: Reply)
      requires Valid()
      modifies `files, `hs
      ensures Valid() && forall d: nat :: Has(d) == old(Has(d))
      ensures var i := NameAt(old(files), name, 0);
              r == if i == |old(files)| then Refused(NotFound)
                   else if !HasBytes(old(files)[i]) then Refused(Invalid)
                   else if IsOpen(old(hs), i) then Refused(Busy)
                   else if old(files)[i].kind == HostOut && !flushed then Refused(LostBytes) else Fine(0)
      ensures r.Refused? && r.why != LostBytes ==> files == old(files) && hs == old(hs)
      ensures r.Fine? || r == Refused(LostBytes) ==> !Mounted(files, name) && forall other | other != name :: Mounted(files, other) == Mounted(old(files), other)
    {
      var i := FindName(name);
      if i == |files| { return Refused(NotFound); }
      if !HasBytes(files[i]) { return Refused(Invalid); }
      var busy := FileIsOpen(i);
      if busy { return Refused(Busy); }
      UnmountKeeps(files, hs, i);
      UnmountNames(files, i);
      var lost := files[i].kind == HostOut && !flushed;
      ghost var was := hs;
      files := files[..i] + files[i + 1..];
      var j := 0;
      while j < |hs|
        invariant j <= |hs| == |was| && files == WithoutFile(old(files), i)
        invariant forall k | 0 <= k < |hs| :: hs[k] == if k < j then Shifted(was[k], i) else was[k]
      {
        if hs[j].file > i { hs := hs[j := hs[j].(file := hs[j].file - 1)]; }
        j := j + 1;
      }
      assert hs == AllShifted(was, i);
      return if lost then Refused(LostBytes) else Fine(0);
    }

    /** mb_fs_open */
    method Open(name: CString, mode: Access) returns (r: Reply)
      requires Valid()
      modifies `hs
      ensures Valid()
      ensures var i := NameAt(files, name, 0);
              if i == |files| then r == Refused(NotFound)
              else if Sole(files[i]) && IsOpen(old(hs), i) then r == Refused(Forbidden)
              else if mode == OtherMode then r == Refused(Invalid)
              else if (mode != WriteOnly && files[i].kind == SysOut) || (mode != ReadOnly && files[i].kind != SysOut && !Sole(files[i]))
              then r == Refused(Forbidden)
              else r.Fine? && Lowest(old(hs), r.value) && Has(r.value) == Some((name, 0))
      ensures forall d: nat | r.Refused? || d != r.value :: Has(d) == old(Has(d))
    {
      var i := FindName(name);
      if i == |files| { return Refused(NotFound); }
      var f := files[i];
      var open := FileIsOpen(i);
      if HasBytes(f) && f.writable && open { return Refused(Forbidden); }
      var canRead := f.kind != SysOut;
      var canWrite := f.kind == SysOut || (HasBytes(f) && f.writable);
      match mode {
        case ReadOnly => if !canRead { return Refused(Forbidden); }
        case WriteOnly => if !canWrite { return Refused(Forbidden); }
        case ReadAndWrite => if !canRead || !canWrite { return Refused(Forbidden); }
        case OtherMode => return Refused(Invalid);
      }
      var fd := Add(i, 0);
      return Fine(fd);
    }

    /** mb_fs_dup: the new descriptor starts where the old one is. */
    method Dup(fd: nat) returns (r: Reply)
      requires Valid()
      modifies `hs
      ensures Valid()
      ensures if old(Has(fd)) == None then r == Refused(NotOpen)
              else if Sole(files[old(hs)[FdAt(old(hs), fd, 0)].file]) then r == Refused(Forbidden)
              else r.Fine? && Lowest(old(hs), r.value) && Has(r.value) == old(Has(fd))
      ensures forall d: nat | r.Refused? || d != r.value :: Has(d) == old(Has(d))
    {
      var i := FindFd(fd);
      if i == |hs| { return Refused(NotOpen); }
      var file, pos := hs[i].file, hs[i].pos;
      if HasBytes(files[file]) && files[file].writable { return Refused(Forbidden); }
      var d := Add(file, pos);
      return Fine(d);
    }

    /** mb_fs_close */
    method Close(fd: nat) returns (r: Reply)
      requires Valid()
      modifies `hs
      ensures Valid() && r == (if old(Has(fd)) == None then Refused(NotOpen) else Fine(0))
      ensures Has(fd) == None && forall d: nat | d != fd :: Has(d) == old(Has(d))
    {
      var i := FindFd(fd);
      if i == |hs| { return Refused(NotOpen); }
      CloseKeeps(files, hs, i);
      hs := hs[i := hs[|hs| - 1]][..|hs| - 1];
      return Fine(0);
    }

    /** The handle with the lowest descriptor from `least` on. */
    method NextUp(least: nat) returns (i: nat)
      ensures i <= |hs| && (i < |hs| ==> hs[i].fd >= least && forall k | 0 <= k < |hs| && hs[k].fd >= least :: hs[i].fd <= hs[k].fd)
      ensures i == |hs| ==> forall k | 0 <= k < |hs| :: hs[k].fd < least
    {
      i := |hs|;
      var k := 0;
      while k < |hs|
        invariant k <= |hs| && (i == |hs| || i < k)
        invariant i < |hs| ==> hs[i].fd >= least && forall q | 0 <= q < k && hs[q].fd >= least :: hs[i].fd <= hs[q].fd
        invariant i == |hs| ==> forall q | 0 <= q < k :: hs[q].fd < least
      {
        if hs[k].fd >= least && (i == |hs| || hs[k].fd < hs[i].fd) { i := k; }
        k := k + 1;
      }
    }

    /** mb_fs_save_handles: a record a handle, in descriptor order. */
    method Save() returns (rs: seq<Rec>)
      requires Valid()
      ensures Saves(files, hs, rs)
    {
      hide Held, HasFd, Saving;
      rs := [];
      var least: nat := 0;
      SavingNone(files, hs);
      while |rs| < |hs|
        invariant |rs| <= |hs| && Saving(files, hs, rs, least)
        decreases |hs| - |rs|
      {
        var i := NextUp(least);
        SavingFinds(files, hs, rs, least);
        SavingMore(files, hs, rs, least, i);
        rs := rs + [Rec(hs[i].fd, hs[i].pos, files[hs[i].file].name)];
        least := hs[i].fd + 1;
      }
      SavingDone(files, hs, rs, least);
    }

    /** mb_fs_load_handles: the table replaced, or left alone when a file it names
        is not mounted, or no record at all. */
    method Load(s: seq<byte>) returns (code: int, rest: seq<byte>)
      requires Valid()
      modifies `hs
      ensures match ParseTable(files, anywhere, s)
              case NoRecord => code == -1 && hs == old(hs)
              case LeftAlone(after) => code == 1 && hs == old(hs) && rest == after
              case Taken(got, after) => code == 0 && hs == got && rest == after
      ensures Placed(files, hs) && (Valid() <==> code != 0 || SoleNamed(files, Records(s)))
      ensures code == 0 ==> AllOpenedAs(files, anywhere, Records(s), hs)
    {
      hide NamesOnce, SoleOnce, SoleNamed, Records, Cut, ReadRec, Landing, SkipRecs, AllOpenedAs, Outcome;
      LoadOutcome(files, anywhere, s);
      if |s| < 4 || OfLe(s[..4]) > MOST_HANDLES { return -1, s; }
      var left: nat, next: nat := OfLe(s[..4]), 0;
      var got: seq<Opened> := [];
      rest := s[4..];
      while left > 0
        invariant ParseTable(files, anywhere, s) == ParseRecs(files, anywhere, rest, left, next, got) && hs == old(hs)
        invariant Placed(files, got) && FdsOnce(got) && forall k | 0 <= k < |got| :: got[k].fd < next
        decreases left
      {
        var r := ReadRec(rest);
        if r == None || r.value.0.fd >= MOST_FDS || r.value.0.fd < next { return -1, rest; }
        var f := FindName(Cut(r.value.0.name));
        if f == |files| {
          var after := PassOver(r.value.1, left - 1);
          if after == None { return -1, rest; }
          return 1, after.value;
        }
        got := got + [Opened(r.value.0.fd, f, Landing(r.value.0.pos, files[f].len, anywhere))];
        rest, left, next := r.value.1, left - 1, r.value.0.fd + 1;
      }
      SoleExactly(files, anywhere, s);
      hs := got;
      return 0, rest;
    }

    /** The rest of a record nobody takes, read past. */
    static method PassOver(s: seq<byte>, n: nat) returns (r: Option<seq<byte>>)
      ensures r == SkipRecs(s, n)
    {
      var rest, left := s, n;
      while left > 0
        invariant SkipRecs(s, n) == SkipRecs(rest, left)
      {
        var one := ReadRec(rest);
        if one == None { return None; }
        rest, left := one.value.1, left - 1;
      }
      return Some(rest);
    }
  }

  /** The records of the descriptors below `least`. */
  predicate Saving(files: seq<File>, hs: seq<Opened>, rs: seq<Rec>, least: nat)
    requires Placed(files, hs)
  {
    && Rises(rs) && (forall k | 0 <= k < |rs| :: rs[k].fd < least)
    && (forall k | 0 <= k < |rs| :: Held(files, hs, rs[k].fd) == Some((rs[k].name, rs[k].pos)))
    && forall k | 0 <= k < |hs| && hs[k].fd < least :: HasFd(rs, hs[k].fd)
  }

  lemma SavingNone(files: seq<File>, hs: seq<Opened>)
    requires Placed(files, hs)
    ensures Saving(files, hs, [], 0)
  {
  }

  lemma SavingDone(files: seq<File>, hs: seq<Opened>, rs: seq<Rec>, least: nat)
    requires Placed(files, hs) && Saving(files, hs, rs, least) && |rs| == |hs|
    ensures Saves(files, hs, rs)
  {
  }

  lemma SavingFinds(files: seq<File>, hs: seq<Opened>, rs: seq<Rec>, least: nat)
    requires Placed(files, hs) && FdsOnce(hs) && Saving(files, hs, rs, least) && |rs| < |hs|
    ensures exists k | 0 <= k < |hs| :: hs[k].fd >= least
  {
    SomeLeft(hs, rs);
  }

  lemma SavingMore(files: seq<File>, hs: seq<Opened>, rs: seq<Rec>, least: nat, i: nat)
    requires Placed(files, hs) && FdsOnce(hs) && Saving(files, hs, rs, least) && i < |hs| && hs[i].fd >= least
    requires forall k | 0 <= k < |hs| && hs[k].fd >= least :: hs[i].fd <= hs[k].fd
    ensures Saving(files, hs, rs + [Rec(hs[i].fd, hs[i].pos, files[hs[i].file].name)], hs[i].fd + 1)
  {
    hide Held;
    HeldIs(files, hs, i);
    var now := rs + [Rec(hs[i].fd, hs[i].pos, files[hs[i].file].name)];
    forall k | 0 <= k < |hs| && hs[k].fd < hs[i].fd + 1 ensures HasFd(now, hs[k].fd) {
      if hs[k].fd < least {
        var q :| 0 <= q < |rs| && rs[q].fd == hs[k].fd;
        assert now[q].fd == hs[k].fd;
      } else {
        assert now[|rs|].fd == hs[k].fd;
      }
    }
  }

  /** With fewer records than handles some descriptor is still to come. */
  lemma SomeLeft(hs: seq<Opened>, rs: seq<Rec>)
    requires FdsOnce(hs) && |rs| < |hs|
    ensures exists k | 0 <= k < |hs| :: !HasFd(rs, hs[k].fd)
  {
    if forall k | 0 <= k < |hs| :: HasFd(rs, hs[k].fd) {
      var places := seq(|hs|, k requires 0 <= k < |hs| => PlaceOf(rs, hs[k].fd, 0));
      forall k | 0 <= k < |hs| ensures places[k] < |rs| && rs[places[k]].fd == hs[k].fd {
        assert HasFd(rs, hs[k].fd);
      }
      forall a, b | 0 <= a < b < |places| ensures places[a] != places[b] {
        assert rs[places[a]].fd == hs[a].fd && rs[places[b]].fd == hs[b].fd;
      }
      TooMany(places, |rs|);
    }
  }

  function PlaceOf(rs: seq<Rec>, fd: nat, from: nat): (i: nat)
    requires from <= |rs|
    ensures from <= i <= |rs| && (i < |rs| ==> rs[i].fd == fd) && forall k | from <= k < i :: rs[k].fd != fd
    decreases |rs| - from
  {
    if from == |rs| || rs[from].fd == fd then from else PlaceOf(rs, fd, from + 1)
  }
}
