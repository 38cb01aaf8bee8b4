/** Stray writes. Where a host page is several machine pages, the OS lets a page
    the guest may not write be written beside one it may; nothing faults and
    nothing is recorded. This module says which pages those are and what such a
    write leaves behind. */
module Strays {
  import opened Pages
  import opened Machine
  import opened Deltas
  import opened Invariant
  import opened Epochs

  /** A page the guest may not write, in a host page the OS lets be written. */
  predicate Stray(m: Machine, i: nat) {
    i < |m.cells| == |m.os| && !Tracked(m.cells[i].p.status) && Writable(m.os[i])
  }

  /** There is none where a host page is one machine page. */
  lemma StrayGrouped(m: Machine, base: seq<PageBytes>, i: nat)
    requires Inv(m, base) && Stray(m, i)
    ensures m.group > 1
  {
  }

  /** What a page can bear to be written with, unrecorded. */
  predicate Bears(c: Cell, bytes: PageBytes) {
    c.p.invisible || bytes == c.mem || (c.p.dirty && c.p.status != StFree)
  }

  lemma StoreBears(c: Cell, base: PageBytes, bytes: PageBytes)
    requires CellOk(c, base)
    ensures CellOk(c.(mem := bytes), base) <==> Bears(c, bytes)
  {
  }

  /** The invariant survives a stray write exactly when the page can bear it. */
  lemma StrayKeeps(m: Machine, base: seq<PageBytes>, i: nat, bytes: PageBytes)
    requires Inv(m, base) && Stray(m, i)
    ensures Inv(Store(m, i, bytes), base) <==> Bears(m.cells[i], bytes)
    ensures Enrolled(Store(m, i, bytes)) == Enrolled(m)
  {
    hide CellOk, Enlisted;
    var r := Store(m, i, bytes);
    assert CellOk(m.cells[i], base[i]);
    StoreBears(m.cells[i], base[i], bytes);
    assert forall k | 0 <= k < |m.cells| && k != i :: r.cells[k] == m.cells[k];
    assert r.cells[i] == m.cells[i].(mem := bytes);
    assert Watched(r) && Tight(r) && PlanOk(r);
    assert Enlisted(r.cells[i]) == Enlisted(m.cells[i]) by { EnlistedMem(m.cells[i], bytes); }
    if !CellOk(r.cells[i], base[i]) { assert !CellsOk(r.cells, base); }
  }

  lemma EnlistedMem(c: Cell, bytes: PageBytes)
    ensures Enlisted(c.(mem := bytes)) == Enlisted(c)
  {
  }

  /** No state carries it unless the page was dirty already, and no delta unless
      the epoch had the page already. */
  lemma StrayUnrecorded(m: Machine, base: seq<PageBytes>, i: nat, bytes: PageBytes)
    requires Inv(m, base) && Stray(m, i)
    ensures !Carried(m.cells[i]) ==> SaveState(Store(m, i, bytes)) == SaveState(m)
    ensures !m.cells[i].p.epochDirty ==> SaveDelta(Store(m, i, bytes)).1 == SaveDelta(m).1
    ensures ViewOfMachine(Store(m, i, bytes)) == ViewOfMachine(m) <==> m.cells[i].p.invisible || bytes == m.cells[i].mem
  {
    hide CellOk;
    assert CellOk(m.cells[i], base[i]);
    StateSame(m, i, bytes);
    StrayCompared(m.cells[i], base[i], bytes);
    DeltaSame(m, i, bytes);
    StrayShows(m, i, bytes);
  }

  lemma StateSame(m: Machine, i: nat, bytes: PageBytes)
    requires i < |m.cells|
    requires Shaped(m)
    ensures !Carried(m.cells[i]) ==> SaveState(Store(m, i, bytes)) == SaveState(m)
  {
    var r := Store(m, i, bytes);
    assert StatusMap(r.cells) == StatusMap(m.cells) && DirtyMap(r.cells) == DirtyMap(m.cells) && CarriedBits(r.cells) == CarriedBits(m.cells);
  }

  lemma StrayCompared(c: Cell, base: PageBytes, bytes: PageBytes)
    requires CellOk(c, base) && !Tracked(c.p.status)
    ensures Compared(c) == c && Compared(c.(mem := bytes)) == c.(mem := bytes)
  {
  }

  lemma DeltaSame(m: Machine, i: nat, bytes: PageBytes)
    requires Shaped(m) && i < |m.cells| && Compared(m.cells[i]) == m.cells[i]
    requires Compared(m.cells[i].(mem := bytes)) == m.cells[i].(mem := bytes)
    ensures !m.cells[i].p.epochDirty ==> SaveDelta(Store(m, i, bytes)).1 == SaveDelta(m).1
  {
    hide Compared;
    var a, b := CompareHot(m).cells, CompareHot(Store(m, i, bytes)).cells;
    assert b == a[i := a[i].(mem := bytes)];
    assert StatBits(a) == StatBits(b) && EpochBits(a) == EpochBits(b);
    if !m.cells[i].p.epochDirty {
      assert DeltaOf(a).status == DeltaOf(b).status;
      assert DeltaOf(a).data == DeltaOf(b).data;
    }
  }

  lemma StrayShows(m: Machine, i: nat, bytes: PageBytes)
    requires Shaped(m) && i < |m.cells|
    ensures ViewOfMachine(Store(m, i, bytes)) == ViewOfMachine(m) <==> m.cells[i].p.invisible || bytes == m.cells[i].mem
  {
    var r := Store(m, i, bytes);
    assert ViewOfMachine(r)[i] == ViewOf(m.cells[i].(mem := bytes)) && ViewOfMachine(m)[i] == ViewOf(m.cells[i]);
  }

  /** So a delta is complete after a stray write exactly when the epoch had the
      page already, or nothing seen has changed. */
  lemma StrayDelta(m: Machine, base: seq<PageBytes>, v: seq<PageView>, i: nat, bytes: PageBytes)
    requires Inv(m, base) && EpochTrue(m, v) && Sees(v, m.cells) && Stray(m, i)
    ensures var r := Store(m, i, bytes);
            ApplyView(v, SaveDelta(r).1) == ViewOfMachine(r) <==>
              m.cells[i].p.epochDirty || m.cells[i].p.invisible || bytes == m.cells[i].mem
  {
    hide SaveDelta, CellOk, Watched, Tight, PlanOk, Accounted, ApplyToView, ViewOf, Find;
    var r := Store(m, i, bytes);
    StrayUnrecorded(m, base, i, bytes);
    DeltaTrue(m, base, v);
    if bytes == m.cells[i].mem {
      assert r == m;
    } else if m.cells[i].p.epochDirty || m.cells[i].p.invisible {
      forall k | 0 <= k < |v| ensures ApplyView(v, SaveDelta(r).1)[k] == ViewOf(r.cells[k]) {
        assert ApplyView(v, SaveDelta(m).1)[k] == ViewOfMachine(m)[k];
        assert CellOk(m.cells[i], base[i]);
        if k == i { StrayAt(m, base, v, i, bytes); } else { StrayElsewhere(m, i, bytes, k); }
      }
      assert ApplyView(v, SaveDelta(r).1) == ViewOfMachine(r);
    }
  }

  lemma StrayElsewhere(m: Machine, i: nat, bytes: PageBytes, k: nat)
    requires Shaped(m) && i < |m.cells| && k < |m.cells| && k != i
    ensures Find(SaveDelta(Store(m, i, bytes)).1.status, k) == Find(SaveDelta(m).1.status, k)
    ensures Find(SaveDelta(Store(m, i, bytes)).1.data, k) == Find(SaveDelta(m).1.data, k)
  {
    hide Compared, Find;
    DeltaOfFinds(CompareHot(m).cells, k);
    DeltaOfFinds(CompareHot(Store(m, i, bytes)).cells, k);
  }

  lemma StrayAt(m: Machine, base: seq<PageBytes>, v: seq<PageView>, i: nat, bytes: PageBytes)
    requires Inv(m, base) && EpochTrue(m, v) && Sees(v, m.cells) && Stray(m, i) && (m.cells[i].p.epochDirty || m.cells[i].p.invisible)
    ensures var d := SaveDelta(Store(m, i, bytes)).1;
            ApplyToView(v[i], Find(d.status, i), Find(d.data, i)) == ViewOf(m.cells[i].(mem := bytes))
  {
    hide Compared, Find, CellOk, Watched, Tight, PlanOk;
    assert CellOk(m.cells[i], base[i]);
    StrayCompared(m.cells[i], base[i], bytes);
    DeltaOfFinds(CompareHot(Store(m, i, bytes)).cells, i);
  }
}
