/** Deltas: what one epoch did, as two ascending lists; saving, applying and
    composing them. */
module Deltas {
  import opened Pages
  import opened Machine

  datatype Entry<+T> = Entry(page: nat, val: T)

  /** A data entry: the page's bytes, and whether the run left it clean. */
  datatype Change = Change(clean: bool, bytes: PageBytes)

  datatype Delta = Delta(npages: nat, status: seq<Entry<Status>>, data: seq<Entry<Change>>)

  predicate Ascending<T>(xs: seq<Entry<T>>) {
    forall a, b | 0 <= a < b < |xs| :: xs[a].page < xs[b].page
  }

  predicate Within<T>(xs: seq<Entry<T>>, n: nat) {
    forall a | 0 <= a < |xs| :: xs[a].page < n
  }

  predicate WellFormed(d: Delta) {
    && Ascending(d.status) && Ascending(d.data)
    && Within(d.status, d.npages) && Within(d.data, d.npages)
  }

  /** What a list says about page i. */
  function Find<T>(xs: seq<Entry<T>>, i: nat): (r: Option<T>)
  {
    if xs == [] then None
    else if xs[0].page == i then Some(xs[0].val)
    else Find(xs[1..], i)
  }

  lemma {:induction false} FindHit<T>(xs: seq<Entry<T>>, k: nat)
    requires Ascending(xs) && k < |xs|
    ensures Find(xs, xs[k].page) == Some(xs[k].val)
  {
    if k > 0 {
      FindHit(xs[1..], k - 1);
    }
  }

  lemma {:induction false} FindMiss<T>(xs: seq<Entry<T>>, i: nat)
    requires forall k | 0 <= k < |xs| :: xs[k].page != i
    ensures Find(xs, i) == None
  {
    if xs != [] {
      FindMiss(xs[1..], i);
    }
  }

  lemma {:induction false} FindFound<T>(xs: seq<Entry<T>>, i: nat) returns (k: nat)
    requires Find(xs, i).Some?
    ensures k < |xs| && xs[k].page == i && Some(xs[k].val) == Find(xs, i)
  {
    if xs[0].page == i { k := 0; } else {
      k := FindFound(xs[1..], i);
      k := k + 1;
    }
  }

  // ---- composing ----

  /** The merge of two ascending runs, the later one's entry where both have one. */
  function Merge<T>(a: seq<Entry<T>>, b: seq<Entry<T>>): (r: seq<Entry<T>>)
    decreases |a| + |b|
  {
    if a == [] && b == [] then []
    else if a == [] || (b != [] && b[0].page <= a[0].page) then
      [b[0]] + Merge(if a != [] && a[0].page == b[0].page then a[1..] else a, b[1..])
    else [a[0]] + Merge(a[1..], b)
  }

  function Compose(a: Delta, b: Delta): Delta {
    Delta(a.npages, Merge(a.status, b.status), Merge(a.data, b.data))
  }

  lemma {:induction false} MergeBounded<T>(a: seq<Entry<T>>, b: seq<Entry<T>>, n: nat)
    requires Within(a, n) && Within(b, n)
    ensures Within(Merge(a, b), n)
    decreases |a| + |b|
  {
    if a == [] && b == [] {
    } else if a == [] || (b != [] && b[0].page <= a[0].page) {
      MergeBounded(if a != [] && a[0].page == b[0].page then a[1..] else a, b[1..], n);
    } else {
      MergeBounded(a[1..], b, n);
    }
  }

  lemma {:induction false} MergeAbove<T>(a: seq<Entry<T>>, b: seq<Entry<T>>, lo: nat)
    requires forall k | 0 <= k < |a| :: lo < a[k].page
    requires forall k | 0 <= k < |b| :: lo < b[k].page
    ensures forall k | 0 <= k < |Merge(a, b)| :: lo < Merge(a, b)[k].page
    decreases |a| + |b|
  {
    if a == [] && b == [] {
    } else if a == [] || (b != [] && b[0].page <= a[0].page) {
      MergeAbove(if a != [] && a[0].page == b[0].page then a[1..] else a, b[1..], lo);
    } else {
      MergeAbove(a[1..], b, lo);
    }
  }

  lemma {:induction false} MergeAscending<T>(a: seq<Entry<T>>, b: seq<Entry<T>>)
    requires Ascending(a) && Ascending(b)
    ensures Ascending(Merge(a, b))
    decreases |a| + |b|
  {
    if a == [] && b == [] {
    } else if a == [] || (b != [] && b[0].page <= a[0].page) {
      var a' := if a != [] && a[0].page == b[0].page then a[1..] else a;
      MergeAscending(a', b[1..]);
      MergeAbove(a', b[1..], b[0].page);
    } else {
      MergeAscending(a[1..], b);
      MergeAbove(a[1..], b, a[0].page);
    }
  }

  /** Later wins: the merge says about every page what b says, or what a says
      where b says nothing. */
  lemma {:induction false} MergeFinds<T>(a: seq<Entry<T>>, b: seq<Entry<T>>, i: nat)
    requires Ascending(a) && Ascending(b)
    ensures Find(Merge(a, b), i) == if Find(b, i).Some? then Find(b, i) else Find(a, i)
    decreases |a| + |b|
  {
    if a == [] && b == [] {
    } else if a == [] || (b != [] && b[0].page <= a[0].page) {
      var a' := if a != [] && a[0].page == b[0].page then a[1..] else a;
      MergeFinds(a', b[1..], i);
      var r := Merge(a', b[1..]);
      assert Merge(a, b) == [b[0]] + r && ([b[0]] + r)[1..] == r;
    } else {
      MergeFinds(a[1..], b, i);
      var r := Merge(a[1..], b);
      assert Merge(a, b) == [a[0]] + r && ([a[0]] + r)[1..] == r;
      if a[0].page == i {
        FindMiss(b, i);
      }
    }
  }

  /** Two ascending lists that say the same about every page are one list. */
  lemma {:induction false} FindDetermines<T>(xs: seq<Entry<T>>, ys: seq<Entry<T>>)
    requires Ascending(xs) && Ascending(ys)
    requires forall i: nat :: Find(xs, i) == Find(ys, i)
    ensures xs == ys
  {
    var first := if xs != [] then xs[0].page else if ys != [] then ys[0].page else 0;
    assert Find(xs, first) == Find(ys, first);
    if xs != [] && ys != [] {
      var x, y := xs[0].page, ys[0].page;
      assert Find(xs, x).Some? && Find(ys, y).Some?;
      var kx := FindFound(ys, x);
      var ky := FindFound(xs, y);
      assert x == y;
      forall i: nat ensures Find(xs[1..], i) == Find(ys[1..], i) {
        if i == x {
          FindMiss(xs[1..], i);
          FindMiss(ys[1..], i);
        } else {
          assert Find(xs, i) == Find(ys, i);
        }
      }
      FindDetermines(xs[1..], ys[1..]);
      assert xs == [xs[0]] + xs[1..] && ys == [ys[0]] + ys[1..];
    }
  }

  lemma MergeAssociative<T>(a: seq<Entry<T>>, b: seq<Entry<T>>, c: seq<Entry<T>>)
    requires Ascending(a) && Ascending(b) && Ascending(c)
    ensures Merge(Merge(a, b), c) == Merge(a, Merge(b, c))
  {
    MergeAscending(a, b);
    MergeAscending(b, c);
    MergeAscending(Merge(a, b), c);
    MergeAscending(a, Merge(b, c));
    forall i: nat ensures Find(Merge(Merge(a, b), c), i) == Find(Merge(a, Merge(b, c)), i) {
      MergeFinds(Merge(a, b), c, i);
      MergeFinds(a, b, i);
      MergeFinds(a, Merge(b, c), i);
      MergeFinds(b, c, i);
    }
    FindDetermines(Merge(Merge(a, b), c), Merge(a, Merge(b, c)));
  }

  lemma ComposeWellFormed(a: Delta, b: Delta)
    requires WellFormed(a) && WellFormed(b) && a.npages == b.npages
    ensures WellFormed(Compose(a, b)) && Compose(a, b).npages == b.npages
  {
    MergeAscending(a.status, b.status);
    MergeAscending(a.data, b.data);
    MergeBounded(a.status, b.status, a.npages);
    MergeBounded(a.data, b.data, a.npages);
  }

  lemma ComposeAssociative(a: Delta, b: Delta, c: Delta)
    requires WellFormed(a) && WellFormed(b) && WellFormed(c)
    ensures Compose(Compose(a, b), c) == Compose(a, Compose(b, c))
  {
    MergeAssociative(a.status, b.status, c.status);
    MergeAssociative(a.data, b.data, c.data);
  }

  // ---- saving ----

  function StatBits(cells: seq<Cell>): (r: seq<bool>) {
    seq(|cells|, i requires 0 <= i < |cells| => cells[i].stat)
  }

  function EpochBits(cells: seq<Cell>): (r: seq<bool>) {
    seq(|cells|, i requires 0 <= i < |cells| => cells[i].p.epochDirty)
  }

  /** The two lists as they stand, in page order. */
  function DeltaOf(cells: seq<Cell>): (d: Delta)
    ensures WellFormed(d) && d.npages == |cells|
  {
    var s := Picks(StatBits(cells), |cells|);
    var e := Picks(EpochBits(cells), |cells|);
    PicksSorted(StatBits(cells), |cells|);
    PicksSorted(EpochBits(cells), |cells|);
    Delta(|cells|,
          seq(|s|, k requires 0 <= k < |s| => Entry(s[k], cells[s[k]].p.status)),
          seq(|e|, k requires 0 <= k < |e| => Entry(e[k], Change(!cells[e[k]].p.dirty, cells[e[k]].mem))))
  }

  lemma DeltaOfFinds(cells: seq<Cell>, i: nat)
    requires i < |cells|
    ensures Find(DeltaOf(cells).status, i) ==
              if cells[i].stat then Some(cells[i].p.status) else None
    ensures Find(DeltaOf(cells).data, i) ==
              if cells[i].p.epochDirty then Some(Change(!cells[i].p.dirty, cells[i].mem)) else None
  {
    var d := DeltaOf(cells);
    PicksSorted(StatBits(cells), |cells|);
    PicksSorted(EpochBits(cells), |cells|);
    if cells[i].stat {
      assert StatBits(cells)[i];
      FindHit(d.status, |Picks(StatBits(cells), i)|);
    } else {
      FindMiss(d.status, i);
    }
    if cells[i].p.epochDirty {
      assert EpochBits(cells)[i];
      FindHit(d.data, |Picks(EpochBits(cells), i)|);
    } else {
      FindMiss(d.data, i);
    }
  }

  /** mb_block_delta_save: the delta written, and the machine after it. */
  function SaveDelta(m: Machine): (r: (Machine, Delta))
  {
    var c := CompareHot(m);
    (c.(cells := HeatBelow(c.cells, c.epochNo, |c.cells|)), DeltaOf(c.cells))
  }

  // ---- applying ----

  function Restatused(cells: seq<Cell>, d: Delta): (r: seq<Cell>)
    ensures |r| == |cells|
  {
    seq(|cells|, i requires 0 <= i < |cells| =>
          match Find(d.status, i) case None => cells[i] case Some(s) => NoteStatus(cells[i], s))
  }

  function Patched(cells: seq<Cell>, d: Delta): (r: seq<Cell>)
    ensures |r| == |cells|
  {
    seq(|cells|, i requires 0 <= i < |cells| =>
          match Find(d.data, i) case None => cells[i] case Some(ch) => PatchedCell(cells[i], ch.clean, ch.bytes))
  }

  /** mb_block_delta_apply: statuses first, then bytes, each swept on its own. */
  ghost function ApplyDelta(m: Machine, d: Delta): Machine
    requires Shaped(m)
  {
    var m1 := Swept(m, Restatused(m.cells, d));
    EpochClear(Swept(m1, Patched(m1.cells, d)))
  }

  /** What a delta does to what a savestate sees. */
  function ApplyToView(v: PageView, s: Option<Status>, ch: Option<Change>): PageView {
    var st := if s.Some? then s.value else v.status;
    match v
    case Hidden(_) => Hidden(st)
    case Shown(_, d, b) =>
      if ch.Some? then Shown(st, !ch.value.clean, ch.value.bytes) else Shown(st, d, b)
  }

  function ApplyView(v: seq<PageView>, d: Delta): (r: seq<PageView>) {
    seq(|v|, i requires 0 <= i < |v| => ApplyToView(v[i], Find(d.status, i), Find(d.data, i)))
  }

  lemma SweptShows(m: Machine, cells: seq<Cell>, i: nat)
    requires Shaped(m) && |cells| == |m.cells| && i < |cells|
    ensures ViewOf(Swept(m, cells).cells[i]) == ViewOf(cells[i])
  {
  }

  lemma StatusShows(c: Cell, s: Status)
    ensures ViewOf(NoteStatus(c, s)) == ApplyToView(ViewOf(c), Some(s), None)
  {
  }

  lemma PatchShows(c: Cell, ch: Change)
    ensures ViewOf(PatchedCell(c, ch.clean, ch.bytes)) == ApplyToView(ViewOf(c), None, Some(ch))
  {
  }

  lemma ApplyShowsAt(m: Machine, d: Delta, i: nat)
    requires Shaped(m) && i < |m.cells|
    ensures ViewOf(ApplyDelta(m, d).cells[i]) == ApplyToView(ViewOf(m.cells[i]), Find(d.status, i), Find(d.data, i))
  {
    var m1 := Swept(m, Restatused(m.cells, d));
    assert ViewOf(m1.cells[i]) == ApplyToView(ViewOf(m.cells[i]), Find(d.status, i), None) by {
      SweptShows(m, Restatused(m.cells, d), i);
      if Find(d.status, i).Some? { StatusShows(m.cells[i], Find(d.status, i).value); }
    }
    var p := Patched(m1.cells, d);
    assert ViewOf(p[i]) == ApplyToView(ViewOf(m1.cells[i]), None, Find(d.data, i)) by {
      if Find(d.data, i).Some? { PatchShows(m1.cells[i], Find(d.data, i).value); }
    }
    SweptShows(m1, p, i);
  }

  /** Applying a delta to a machine does to its view what the two lists say. */
  lemma ApplyShows(m: Machine, d: Delta)
    requires Shaped(m)
    ensures ViewOfMachine(ApplyDelta(m, d)) == ApplyView(ViewOfMachine(m), d)
  {
    forall i | 0 <= i < |m.cells|
      ensures ViewOf(ApplyDelta(m, d).cells[i]) == ApplyView(ViewOfMachine(m), d)[i]
    {
      ApplyShowsAt(m, d, i);
    }
  }

  /** Composition is sequencing. */
  lemma ComposeSequences(v: seq<PageView>, a: Delta, b: Delta)
    requires WellFormed(a) && WellFormed(b)
    ensures ApplyView(v, Compose(a, b)) == ApplyView(ApplyView(v, a), b)
  {
    forall i | 0 <= i < |v|
      ensures ApplyView(v, Compose(a, b))[i] == ApplyView(ApplyView(v, a), b)[i]
    {
      MergeFinds(a.status, b.status, i);
      MergeFinds(a.data, b.data, i);
    }
  }
}
