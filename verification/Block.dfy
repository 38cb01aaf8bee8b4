/** The memory block as the host keeps it: the page array, the mirror, the
    bitmaps, the packed maps and the counts, changed in place by every
    operation. Each operation is proved to compute its function of Machine.dfy,
    and to leave every index agreeing with the page array. */
module MemBlock {
  import opened Pages
  import opened Machine
  import opened Deltas
  import opened Invariant
  import opened Restore
  import opened Sweeps
  import opened Arena
  import opened Workings
  import opened Calls
  import opened Strays
  import opened Loads
  import opened Access
  import opened Effects

  class Block {
    /** Where the guest sees the block. */
    const addr: nat
    const group: nat
    var pages: seq<Page>
    var mirror: seq<PageBytes>
    var os: seq<Prot>
    var statusMap: seq<Status>
    var dirtyMap: seq<bool>
    var epochBits: seq<bool>
    var statBits: seq<bool>
    var unheldBits: seq<bool>
    var hotBits: seq<bool>
    var nhot: nat
    var epochNdirty: nat
    var epochNstat: nat
    var groupFree: seq<nat>
    var sealed: bool
    var epochActive: bool
    var epochNo: nat
    var planActive: bool
    var planStatus: seq<Status>
    var planDirty: seq<bool>
    var planList: seq<nat>
    var planDest: seq<PageBytes>
    /** Each page with its bits and bytes. */
    ghost var cells: seq<Cell>
    /** The sealed image; zeros until the seal. */
    ghost var base: seq<PageBytes>
    /** Whether a move has shown a page that was mapped writable unseen. */
    ghost var unveiled: bool

    // ---- what agrees with what ----

    ghost predicate PageTied(i: nat)
      reads this
    {
      Tie(cells, pages, mirror, unheldBits, statBits, statusMap, dirtyMap, hotBits, epochBits, i)
    }

    /** Every index agrees with the page array. */
    ghost predicate Tied()
      reads this
    {
      && group > 0 && |os| == |pages| == |cells|
      && Agree(cells, pages, mirror, unheldBits, statBits, statusMap, dirtyMap, hotBits, epochBits)
      && nhot == Count(hotBits) && epochNdirty == Count(epochBits) && epochNstat == Count(statBits)
      && Counted(statusMap, groupFree)
    }

    lemma AllTied()
      requires |pages| == |mirror| == |unheldBits| == |statBits| == |statusMap| == |dirtyMap| == |hotBits| == |epochBits| == |cells|
      requires forall i | 0 <= i < |cells| :: PageTied(i)
      ensures Agree(cells, pages, mirror, unheldBits, statBits, statusMap, dirtyMap, hotBits, epochBits)
    {
      forall i | 0 <= i < |cells|
        ensures Tie(cells, pages, mirror, unheldBits, statBits, statusMap, dirtyMap, hotBits, epochBits, i)
      {
        assert PageTied(i);
      }
    }

    lemma Lengths()
      requires Tied()
      ensures group > 0 && |os| == |pages| == |cells|
    {
    }

    ghost function PlanNow(): Plan
      reads this
    {
      if planActive then Open(planStatus, planDirty, planList, planDest) else Idle
    }

    /** The block as a value. */
    ghost function Abs(): Machine
      reads this
    {
      Machine(cells, group, os, epochActive, epochNo, PlanNow())
    }

    /** The block's invariant: indexes in agreement, every page anchored to the
        sealed image, flags coherent, the plan in order, the watch kept, and
        every page mapped writable on the list of those the next epoch holds. */
    ghost predicate Valid()
      reads this
    {
      addr % PAGESIZE == 0 && Tied() && Inv(Abs(), base) && Quiet(cells)
      && (planActive ==> sealed && Sorted(planList)) && BaseOk(sealed, base)
      && (!unveiled ==> Enrolled(Abs()))
    }

    // ---- one page's bookkeeping ----

    /** note_prot */
    method NoteProt(i: nat, prot: Prot)
      requires Tied() && i < |cells|
      modifies `pages, `cells, `unheldBits
      ensures Tied() && cells == old(cells)[i := Pages.NoteProt(old(cells[i]), prot)]
    {
      hide Count, Counted;
      assert PageTied(i);
      var writable := Writable(prot);
      unheldBits, pages, cells :=
        unheldBits[i := writable && !pages[i].hot && !pages[i].invisible],
        if writable then pages[i := pages[i].(held := false)] else pages,
        cells[i := Pages.NoteProt(cells[i], prot)];
      forall j | 0 <= j < |cells| ensures PageTied(j) { assert old(PageTied(j)); }
      AllTied();
    }

    /** page_cool */
    method PageCool(i: nat)
      requires Tied() && i < |cells|
      modifies `pages, `cells, `unheldBits, `hotBits, `nhot
      ensures Tied() && cells == old(cells)[i := Cool(old(cells[i]))]
    {
      hide Count, Counted;
      assert PageTied(i);
      if !pages[i].hot {
        assert cells == cells[i := Cool(cells[i])];
        return;
      }
      CountSet(hotBits, i, false);
      pages, hotBits, nhot, unheldBits, cells :=
        pages[i := pages[i].(hot := false, heat := 0, shadow := None)], hotBits[i := false], nhot - 1, unheldBits[i := true],
        cells[i := Cool(cells[i])];
      forall j | 0 <= j < |cells| ensures PageTied(j) { assert old(PageTied(j)); }
      AllTied();
    }

    /** The status in the page, in the packed map and in its group's count. */
    method PutStatus(i: nat, s: Status)
      requires Tied() && i < |cells|
      modifies `pages, `cells, `statusMap, `groupFree
      ensures Tied() && cells == old(cells)[i := old(cells[i]).(p := old(cells[i]).p.(status := s))]
    {
      hide Count, Counted;
      assert PageTied(i);
      groupFree, statusMap, pages, cells :=
        Recount(statusMap, groupFree, i, s), statusMap[i := s], pages[i := pages[i].(status := s)],
        cells[i := cells[i].(p := cells[i].p.(status := s))];
      forall j | 0 <= j < |cells| ensures PageTied(j) { assert old(PageTied(j)); }
      AllTied();
    }

    /** note_status */
    method NoteStatus(i: nat, s: Status)
      requires Tied() && i < |cells|
      modifies `pages, `cells, `unheldBits, `hotBits, `nhot, `statusMap, `groupFree
      ensures Tied() && cells == old(cells)[i := Pages.NoteStatus(old(cells[i]), s)]
    {
      hide Count, Counted;
      assert PageTied(i);
      if pages[i].hot && pages[i].status != s {
        PageCool(i);
      }
      PutStatus(i, s);
    }

    /** set_dirty */
    method SetDirty(i: nat, d: bool)
      requires Tied() && i < |cells|
      modifies `pages, `cells, `unheldBits, `hotBits, `nhot, `dirtyMap
      ensures Tied() && cells == old(cells)[i := Pages.SetDirty(old(cells[i]), d)]
    {
      hide Count, Counted;
      if !d {
        PageCool(i);
      }
      label cooled:
      assert PageTied(i);
      pages, dirtyMap, cells :=
        pages[i := pages[i].(dirty := d)], dirtyMap[i := d], cells[i := cells[i].(p := cells[i].p.(dirty := d))];
      forall j | 0 <= j < |cells| ensures PageTied(j) { assert old@cooled(PageTied(j)); }
      AllTied();
    }

    /** A page's record changed in fields no index repeats. */
    method PutPage(i: nat, p: Page)
      requires Tied() && i < |cells|
      requires p.status == pages[i].status && p.dirty == pages[i].dirty && p.hot == pages[i].hot
      requires p.epochDirty == pages[i].epochDirty
      modifies `pages, `cells
      ensures Tied() && pages == old(pages)[i := p] && cells == old(cells)[i := old(cells[i]).(p := p)]
    {
      hide Count, Counted;
      assert PageTied(i);
      pages, cells := pages[i := p], cells[i := cells[i].(p := p)];
      forall j | 0 <= j < |cells| ensures PageTied(j) { assert old(PageTied(j)); }
      AllTied();
    }

    /** A page written through the mirror. */
    method PutBytes(i: nat, bytes: PageBytes)
      requires Tied() && i < |cells|
      modifies `mirror, `cells
      ensures Tied() && cells == old(cells)[i := old(cells[i]).(mem := bytes)]
    {
      hide Count, Counted;
      mirror, cells := mirror[i := bytes], cells[i := cells[i].(mem := bytes)];
      forall j | 0 <= j < |cells| ensures PageTied(j) { assert old(PageTied(j)); }
      AllTied();
    }

    /** The bit, the flag and the count of a page the open epoch owes. */
    method MarkEpochDirty(i: nat)
      requires Tied() && i < |cells| && !pages[i].epochDirty
      modifies `pages, `cells, `epochBits, `epochNdirty
      ensures Tied() && cells == old(cells)[i := old(cells[i]).(p := old(cells[i]).p.(epochDirty := true))]
      ensures pages == old(pages)[i := old(pages[i]).(epochDirty := true)]
    {
      hide Count, Counted;
      assert PageTied(i);
      CountSet(epochBits, i, true);
      pages, epochBits, epochNdirty, cells :=
        pages[i := pages[i].(epochDirty := true)], epochBits[i := true], epochNdirty + 1,
        cells[i := cells[i].(p := cells[i].p.(epochDirty := true))];
      forall j | 0 <= j < |cells| ensures PageTied(j) { assert old(PageTied(j)); }
      AllTied();
    }

    /** mb_page_maybe_snapshot */
    method MaybeSnapshot(i: nat)
      requires Tied() && i < |cells|
      modifies `pages, `cells
      ensures Tied() && cells == old(cells)[i := Snapshot(old(cells[i]))]
    {
      hide Count, Counted;
      assert PageTied(i);
      if pages[i].snap == NoSnap {
        PutPage(i, pages[i].(snap := DataSnap(mirror[i])));
      } else {
        assert cells == cells[i := Snapshot(cells[i])];
      }
    }

    /** mb_block_epoch_capture */
    method EpochCapture(i: nat)
      requires Tied() && i < |cells|
      modifies `pages, `cells, `epochBits, `epochNdirty
      ensures Tied() && cells == old(cells)[i := Pages.EpochCapture(old(cells[i]), epochActive)]
    {
      hide Count, Counted;
      assert PageTied(i);
      PutPage(i, pages[i].(held := false));
      if !epochActive || !EpochTracks(pages[i]) || pages[i].epochDirty {
        return;
      }
      assert PageTied(i);
      MarkEpochDirty(i);
    }

    /** A page whose allocation the open epoch has seen change. */
    method MarkStat(i: nat)
      requires Tied() && i < |cells|
      modifies `cells, `statBits, `epochNstat
      ensures Tied() && cells == old(cells)[i := old(cells[i]).(stat := true)]
    {
      hide Count, Counted;
      assert PageTied(i);
      if !statBits[i] {
        CountSet(statBits, i, true);
        statBits := statBits[i := true];
        epochNstat := epochNstat + 1;
      }
      cells := cells[i := cells[i].(stat := true)];
      forall j | 0 <= j < |cells| ensures PageTied(j) { assert old(PageTied(j)); }
      AllTied();
    }

    /** epoch_note_status_change */
    method EpochNoteStatusChange(i: nat, to: Status)
      requires Tied() && i < |cells|
      modifies `pages, `cells, `epochBits, `epochNdirty, `statBits, `epochNstat
      ensures Tied() && cells == old(cells)[i := EpochNote(old(cells[i]), epochActive, to)]
    {
      hide Tied;
      var p := PageAt(i);
      ghost var c := cells[i];
      assert cells == cells[i := c];
      if !epochActive || p.status == to {
        return;
      }
      MarkStat(i);
      if p.invisible {
        return;
      }
      if EpochTracks(p) {
        EpochCapture(i);
        return;
      }
      if p.epochDirty {
        return;
      }
      p := PageAt(i);
      MarkEpochDirty(i);
    }

    method StatusAt(i: nat) returns (s: Status)
      requires Tied() && i < |cells|
      ensures s == cells[i].p.status
    {
      hide Count, Counted;
      assert PageTied(i);
      return pages[i].status;
    }

    method PageAt(i: nat) returns (p: Page)
      requires Tied() && i < |cells|
      ensures p == pages[i] == cells[i].p
    {
      hide Count, Counted;
      assert PageTied(i);
      return pages[i];
    }

    method BytesAt(i: nat) returns (bytes: PageBytes)
      requires Tied() && i < |cells|
      ensures bytes == cells[i].mem
    {
      hide Count, Counted;
      assert PageTied(i);
      return mirror[i];
    }

    // ---- telling the OS ----

    /** mb_pal_protect over pages [a, b), no further than the block. */
    method Tell(a: nat, b: nat, prot: Prot)
      requires Tied()
      modifies `os
      ensures Tied() && |os| == |old(os)|
      ensures forall i | 0 <= i < |os| :: os[i] == if a <= i < b then prot else old(os[i])
    {
      hide Count, Counted;
      var was := os;
      os := seq(|was|, i requires 0 <= i < |was| => if a <= i < b then prot else was[i]);

    }

    /** group_native_prot */
    method GroupNativeProt(first: nat) returns (prot: Prot)
      requires Tied() && first < |cells| && first % group == 0
      ensures prot == GroupProt(cells, group, first)
      ensures Executable(prot) <==> HostRuns(cells, group, first)
      ensures prot != NoAccess <==> HostReads(cells, group, first)
    {
      hide Count, Counted, HostRuns, HostReads, GroupWants, GroupArmed, GroupRuns, GroupReads;
      GroupAccess(cells, group, first);
      assert PageTied(first);
      if group == 1 {
        return NativeProt(pages[first]);
      }
      var r, w, x, held := false, false, false, false;
      var k := first;
      while k < first + group && k < |pages|
        invariant first <= k <= first + group && k <= |pages|
        invariant Flags(r, w, x, held) == FlagsIn(cells, first, k)
      {
        assert PageTied(k);
        var p := NativeProt(pages[k]);
        match p {
          case NoAccess =>
          case Read => r := true;
          case ReadWrite => r, w := true, true;
          case ReadWriteStack => r, w := true, true;
          case ReadExec => r, x := true, true;
          case ReadWriteExec => r, w, x := true, true, true;
        }
        if Tracked(pages[k].status) && !Writable(p) { held := true; }
        k := k + 1;
      }
      FlagsMean(cells, group, first, k);
      if held { w := false; }
      if x { return if w then ReadWriteExec else ReadExec; }
      if w { return ReadWrite; }
      return if r then Read else NoAccess;
    }

    /** refresh_range on a host whose page is the machine's, in runs alike. */
    method RefreshOnes(lo: nat, hi: nat)
      requires Tied() && group == 1 && lo < hi <= |cells|
      modifies `pages, `cells, `unheldBits, `os
      ensures Tied() && RangeRefreshed(old(cells), lo, hi, cells)
      ensures os == RefreshOs(cells, group, old(os), lo, hi)
    {
      hide Count, Counted;
      var i := lo;
      while i < hi
        invariant Tied() && lo <= i <= hi && |os| == |old(os)|
        invariant RangeRefreshed(old(cells), lo, i, cells)
        invariant forall k | 0 <= k < |os| :: os[k] == if lo <= k < i then NativeProt(cells[k].p) else old(os[k])
      {
        assert PageTied(i);
        var prot := NativeProt(pages[i]);
        var j := i + 1;
        while j < hi && NativeProt(pages[j]) == prot
          invariant i < j <= hi && forall k | i <= k < j :: NativeProt(pages[k]) == prot
        {
          j := j + 1;
        }
        assert forall k | i <= k < j :: NativeProt(cells[k].p) == prot by {
          forall k | i <= k < j ensures NativeProt(cells[k].p) == prot { assert PageTied(k); }
        }
        Tell(i, j, prot);
        NoteRun(i, j, prot);
        assert RangeRefreshed(old(cells), lo, j, cells);
        forall k | 0 <= k < |os| ensures os[k] == if lo <= k < j then NativeProt(cells[k].p) else old(os[k]) {
          if lo <= k < j { SameNative(old(cells[k])); }
        }
        i := j;
      }
      OnesTold(cells, old(os), os, lo, hi);
    }

    method NoteRun(a: nat, b: nat, prot: Prot)
      requires Tied() && a <= b <= |cells| && forall k | a <= k < b :: NativeProt(cells[k].p) == prot
      modifies `pages, `cells, `unheldBits
      ensures Tied() && RangeRefreshed(old(cells), a, b, cells)
    {
      hide Tied;
      var k := a;
      while k < b
        invariant a <= k <= b && Tied() && RangeRefreshed(old(cells), a, k, cells)
      {
        NoteProt(k, prot);
        k := k + 1;
      }
    }

    method NoteRange(lo: nat, hi: nat)
      requires Tied() && lo <= hi <= |cells|
      modifies `pages, `cells, `unheldBits
      ensures Tied() && RangeRefreshed(old(cells), lo, hi, cells)
    {
      hide Count, Counted;
      var k := lo;
      while k < hi
        invariant lo <= k <= hi && Tied() && RangeRefreshed(old(cells), lo, k, cells)
      {
        assert PageTied(k);
        NoteProt(k, NativeProt(pages[k]));
        k := k + 1;
      }
    }

    /** How far the host pages from g on ask for the same protection. */
    method SameProtUpTo(g: nat, hi: nat, prot: Prot) returns (h: nat)
      requires Tied() && g % group == 0 && g < hi <= |cells| && prot == GroupProt(cells, group, g)
      ensures h % group == 0 && g < h < hi + group
      ensures forall p | g <= p < h && p < |cells| :: GroupProt(cells, group, p) == prot
    {
      hide Tied;
      Lengths();
      h := g + group;
      RoundUp(group, g);
      GroupProtShared(cells, group, g);
      while h < hi
        invariant h % group == 0 && g < h < hi + group
        invariant forall p | g <= p < h && p < |cells| :: GroupProt(cells, group, p) == prot
        decreases hi + group - h
      {
        var next := GroupNativeProt(h);
        if next != prot { break; }
        GroupProtShared(cells, group, h);
        RoundUp(group, h);
        h := h + group;
        Lengths();
      }
    }

    /** Every host page from first on that touches pages below hi, coalesced. */
    method TellGroups(first: nat, hi: nat) returns (end: nat)
      requires Tied() && first % group == 0 && first < hi <= |cells|
      modifies `os
      ensures Tied() && end % group == 0 && hi <= end < hi + group && |os| == |old(os)|
      ensures forall p | 0 <= p < |os| :: os[p] == if first <= p < end then GroupProt(cells, group, p) else old(os[p])
    {
      hide Tied;
      Lengths();
      end := first;
      while end < hi
        invariant Tied() && end % group == 0 && first <= end < hi + group && |os| == |old(os)|
        invariant forall p | 0 <= p < |os| :: os[p] == if first <= p < end then GroupProt(cells, group, p) else old(os[p])
        decreases hi + group - end
      {
        var prot := GroupNativeProt(end);
        var h := SameProtUpTo(end, hi, prot);
        Tell(end, h, prot);
        end := h;
        Lengths();
      }
    }

    /** refresh_groups */
    method RefreshGroups(lo: nat, hi: nat)
      requires Tied() && lo < hi <= |cells|
      modifies `pages, `cells, `unheldBits, `os
      ensures Tied() && RangeRefreshed(old(cells), lo, hi, cells)
      ensures os == RefreshOs(cells, group, old(os), lo, hi)
    {
      hide Tied;
      Lengths();
      NoteRange(lo, hi);
      var first := lo - lo % group;
      RoundDown(group, lo);
      var end := TellGroups(first, hi);
      GroupsTold(cells, group, old(os), os, lo, hi, first, end);
    }

    /** refresh_range */
    method RefreshRange(lo: nat, hi: nat)
      requires Tied() && lo < hi <= |cells|
      modifies `pages, `cells, `unheldBits, `os
      ensures Tied() && RangeRefreshed(old(cells), lo, hi, cells)
      ensures os == RefreshOs(cells, group, old(os), lo, hi)
    {
      hide Tied;
      Lengths();
      if group > 1 {
        RefreshGroups(lo, hi);
      } else {
        RefreshOnes(lo, hi);
      }
    }

    // ---- allocation ----

    method EpochNoteRange(lo: nat, hi: nat, s: Status)
      requires Tied() && lo <= hi <= |cells|
      modifies `pages, `cells, `epochBits, `epochNdirty, `statBits, `epochNstat
      ensures Tied() && |cells| == |old(cells)|
      ensures forall k | 0 <= k < |cells| ::
                cells[k] == if lo <= k < hi then EpochNote(old(cells[k]), epochActive, s) else old(cells[k])
    {
      hide Tied;
      var i := lo;
      while i < hi
        invariant Tied() && lo <= i <= hi && |cells| == |old(cells)|
        invariant forall k | 0 <= k < |cells| ::
                    cells[k] == if lo <= k < i then EpochNote(old(cells[k]), epochActive, s) else old(cells[k])
      {
        EpochNoteStatusChange(i, s);
        i := i + 1;
      }
    }

    method NoteStatusRange(lo: nat, hi: nat, s: Status)
      requires Tied() && lo <= hi <= |cells|
      modifies `pages, `cells, `unheldBits, `hotBits, `nhot, `statusMap, `groupFree
      ensures Tied() && |cells| == |old(cells)|
      ensures forall k | 0 <= k < |cells| ::
                cells[k] == if lo <= k < hi then Pages.NoteStatus(old(cells[k]), s) else old(cells[k])
    {
      hide Tied;
      var i := lo;
      while i < hi
        invariant Tied() && lo <= i <= hi && |cells| == |old(cells)|
        invariant forall k | 0 <= k < |cells| ::
                    cells[k] == if lo <= k < i then Pages.NoteStatus(old(cells[k]), s) else old(cells[k])
      {
        NoteStatus(i, s);
        i := i + 1;
      }
    }

    /** set_protections */
    method SetProtections(lo: nat, hi: nat, s: Status)
      requires Tied() && lo < hi <= |cells|
      modifies `pages, `cells, `unheldBits, `os, `epochBits, `epochNdirty, `statBits, `epochNstat,
               `hotBits, `nhot, `statusMap, `groupFree
      ensures Tied() && Abs() == Protect(old(Abs()), lo, hi, s)
    {
      hide Tied;
      Lengths();
      EpochNoteRange(lo, hi, s);
      NoteStatusRange(lo, hi, s);
      RefreshRange(lo, hi);
      ProtectIs(old(Abs()), lo, hi, s, cells);
    }

    /** plan_take, with no copier at the page. */
    method PlanTake(i: nat)
      requires Tied() && i < |cells| && !cells[i].p.planHold.Copying?
      requires cells[i].p.planHold == Owed ==> planActive && cells[i].p.planSlot < |planDest|
      modifies `pages, `cells, `planDest
      ensures Tied() && |planDest| == |old(planDest)|
      ensures cells == old(cells)[i := CaughtUp(old(cells[i]))]
      ensures planDest == if old(cells[i]).p.planHold == Owed
                          then old(planDest)[old(cells[i]).p.planSlot := old(cells[i]).mem] else old(planDest)
    {
      hide Count, Counted;
      assert PageTied(i);
      if pages[i].planHold == Owed {
        planDest := planDest[pages[i].planSlot := mirror[i]];
        forall j | 0 <= j < |cells| ensures PageTied(j) { assert old(PageTied(j)); }
      AllTied();
        PutPage(i, pages[i].(planHold := Clear));
      } else {
        assert cells == cells[i := CaughtUp(cells[i])];
      }
    }

    /** zero_run: the pages read zero in both views. */
    method ZeroRun(start: nat, count: nat)
      requires Tied() && start + count <= |cells|
      modifies `mirror, `cells
      ensures Tied() && |cells| == |old(cells)|
      ensures forall k | 0 <= k < |cells| ::
                cells[k] == if start <= k < start + count then old(cells[k]).(mem := Zeros()) else old(cells[k])
    {
      hide Tied;
      var k := start;
      while k < start + count
        invariant Tied() && start <= k <= start + count && |cells| == |old(cells)|
        invariant forall j | 0 <= j < |cells| ::
                    cells[j] == if start <= j < k then old(cells[j]).(mem := Zeros()) else old(cells[j])
      {
        PutBytes(k, Zeros());
        k := k + 1;
      }
    }

    /** What free_pages sees to before a page's bytes go: the planned state, the
        baseline copy, the open epoch. */
    method NoteEmpty(i: nat)
      requires Tied() && i < |cells| && !cells[i].p.planHold.Copying?
      requires cells[i].p.planHold == Owed ==> planActive && cells[i].p.planSlot < |planDest|
      modifies `pages, `cells, `planDest, `epochBits, `epochNdirty, `statBits, `epochNstat
      ensures Tied() && |planDest| == |old(planDest)|
      ensures cells == old(cells)[i := EpochNote(Snapshot(CaughtUp(old(cells[i]))), epochActive, StFree)]
      ensures planDest == if old(cells[i]).p.planHold == Owed
                          then old(planDest)[old(cells[i]).p.planSlot := old(cells[i]).mem] else old(planDest)
    {
      hide Tied;
      PlanTake(i);
      MaybeSnapshot(i);
      assert cells == old(cells)[i := Snapshot(CaughtUp(old(cells[i])))];
      EpochNoteStatusChange(i, StFree);
    }

    /** One page of free_pages' loop, up to the zeroing it may still owe. */
    method EmptyPage(i: nat) returns (zeroAlready: bool)
      requires Tied() && i < |cells| && !cells[i].p.planHold.Copying?
      requires cells[i].p.planHold == Owed ==> planActive && cells[i].p.planSlot < |planDest|
      modifies `pages, `cells, `planDest, `unheldBits, `epochBits, `epochNdirty, `statBits, `epochNstat, `hotBits, `nhot, `dirtyMap
      ensures Tied() && |planDest| == |old(planDest)|
      ensures cells == old(cells)[i := Emptying(CaughtUp(old(cells[i])), epochActive)]
      ensures zeroAlready == ZeroAlready(EpochNote(Snapshot(CaughtUp(old(cells[i]))), epochActive, StFree))
      ensures planDest == if old(cells[i]).p.planHold == Owed
                          then old(planDest)[old(cells[i]).p.planSlot := old(cells[i]).mem] else old(planDest)
    {
      hide Count, Counted;
      NoteEmpty(i);
      zeroAlready := IsZeroAlready(i);
      assert PageTied(i);
      SetDirty(i, !pages[i].invisible && pages[i].snap != ZeroSnap);
    }

    method IsZeroAlready(i: nat) returns (z: bool)
      requires Tied() && i < |cells|
      ensures z == ZeroAlready(cells[i])
    {
      hide Count, Counted;
      assert PageTied(i);
      z := !pages[i].dirty && !pages[i].invisible && pages[i].snap == ZeroSnap;
    }

    /** One turn of free_pages' loop; `run` pages from runStart on are still to
        be zeroed. */
    method EmptyNext(ghost was: seq<Cell>, ghost lo: nat, i: nat, runStart: nat, run: nat) returns (runStart': nat, run': nat)
      requires Tied() && lo <= i < |cells| && lo <= runStart && RunEndsAt(runStart, run, i)
      requires EmptyingAt(was, epochActive, lo, i, runStart, run, cells)
      requires !cells[i].p.planHold.Copying?
      requires cells[i].p.planHold == Owed ==> planActive && cells[i].p.planSlot < |planDest|
      modifies `pages, `cells, `mirror, `planDest, `unheldBits, `epochBits, `epochNdirty, `statBits, `epochNstat,
               `hotBits, `nhot, `dirtyMap
      ensures Tied() && lo <= runStart' && RunEndsAt(runStart', run', i + 1) && |planDest| == |old(planDest)|
      ensures EmptyingAt(was, epochActive, lo, i + 1, runStart', run', cells)
      ensures planDest == if old(cells[i]).p.planHold == Owed
                          then old(planDest)[old(cells[i]).p.planSlot := old(cells[i]).mem] else old(planDest)
    {
      hide Tied;
      assert EmptyingOk(was, epochActive, lo, i, runStart, run, cells, i);
      var zeroAlready := EmptyPage(i);
      EmptyingThenZero(CaughtUp(was[i]), epochActive);
      if zeroAlready {
        ghost var mid := cells;
        ZeroRun(runStart, run);
        EmptyingFlushed(was, epochActive, lo, i, runStart, run, old(cells), mid, cells);
        return runStart, 0;
      } else {
        EmptyingGrows(was, epochActive, lo, i, runStart, run, old(cells), cells);
        return if run == 0 then i else runStart, run + 1;
      }
    }

    /** One turn of free_pages' loop, the planned state's buffer in step. */
    method EmptyTurn(ghost was: seq<Cell>, ghost dest: seq<PageBytes>, lo: nat, ghost hi: nat, i: nat, runStart: nat, run: nat)
      returns (runStart': nat, run': nat)
      requires Tied() && lo <= i < hi <= |cells| == |was| && lo <= runStart && RunEndsAt(runStart, run, i)
      requires EmptyingAt(was, epochActive, lo, i, runStart, run, cells) && CanTake(was, planActive, planList, dest, lo, hi)
      requires planDest == DestAfter(was, planActive, planList, dest, Range(lo, i))
      modifies `pages, `cells, `mirror, `planDest, `unheldBits, `epochBits, `epochNdirty, `statBits, `epochNstat,
               `hotBits, `nhot, `dirtyMap
      ensures Tied() && |cells| == |was| && lo <= runStart' && RunEndsAt(runStart', run', i + 1)
      ensures EmptyingAt(was, epochActive, lo, i + 1, runStart', run', cells)
      ensures planDest == DestAfter(was, planActive, planList, dest, Range(lo, i + 1))
    {
      hide Tied, SlotsOk, DestTaken, DestAfter;
      assert EmptyingOk(was, epochActive, lo, i, runStart, run, cells, i);
      TakeOneMore(was, planActive, planList, dest, Range(lo, i), i);
      assert Range(lo, i + 1) == Range(lo, i) + {i};
      runStart', run' := EmptyNext(was, lo, i, runStart, run);
    }

    /** free_pages' loop: every page of the range emptied, the zeroing in runs. */
    method EmptyRange(lo: nat, hi: nat)
      requires Tied() && lo < hi <= |cells| && CanTake(cells, planActive, planList, planDest, lo, hi)
      modifies `pages, `cells, `mirror, `planDest, `unheldBits, `epochBits, `epochNdirty, `statBits, `epochNstat,
               `hotBits, `nhot, `dirtyMap
      ensures Tied() && EmptyingAt(old(cells), epochActive, lo, hi, lo, 0, cells)
      ensures planDest == DestAfter(old(cells), planActive, planList, old(planDest), Range(lo, hi))
    {
      hide *;
      ghost var was, dest := cells, planDest;
      var runStart, run := lo, 0;
      var i := lo;
      EmptyingStart(was, epochActive, lo, planActive, planList, dest);
      while i < hi
        invariant Tied() && lo <= i <= hi <= |cells| == |was| && lo <= runStart && RunEndsAt(runStart, run, i)
        invariant EmptyingAt(was, epochActive, lo, i, runStart, run, cells) && CanTake(was, planActive, planList, dest, lo, hi)
        invariant planDest == DestAfter(was, planActive, planList, dest, Range(lo, i))
      {
        runStart, run := EmptyTurn(was, dest, lo, hi, i, runStart, run);
        i := i + 1;
      }
      ghost var mid := cells;
      RunFits(runStart, run, hi);
      ZeroRun(runStart, run);
      EmptyingDone(was, epochActive, lo, hi, runStart, run, mid, cells);
    }

    method EmptyAll(lo: nat, hi: nat)
      requires Tied() && lo < hi <= |cells| && CanTake(cells, planActive, planList, planDest, lo, hi)
      modifies `pages, `cells, `mirror, `planDest, `unheldBits, `epochBits, `epochNdirty, `statBits, `epochNstat,
               `hotBits, `nhot, `dirtyMap
      ensures Tied() && AllEmptied(old(Abs()), lo, hi, Abs())
    {
      hide Tied;
      Lengths();
      SlotsShape(Abs());
      EmptyRange(lo, hi);
    }

    /** The pages zeroed and kept allocated. */
    method AdvisePages(lo: nat, hi: nat)
      requires Tied() && lo < hi <= |cells| && CanTake(cells, planActive, planList, planDest, lo, hi)
      modifies `pages, `cells, `mirror, `planDest, `unheldBits, `os, `epochBits, `epochNdirty, `statBits, `epochNstat,
               `hotBits, `nhot, `dirtyMap
      ensures Tied() && PlanShaped(old(Abs())) && Abs() == GiveBack(TakeIn(old(Abs()), Range(lo, hi)), lo, hi, true)
    {
      hide Count, Counted;
      EmptyAll(lo, hi);
      ghost var mid := Abs();
      RefreshRange(lo, hi);
      AdvisedIs(old(Abs()), lo, hi, mid, cells);
      assert Abs() == mid.(cells := cells, os := os);
    }

    /** The pages zeroed and freed. */
    method UnmapPages(lo: nat, hi: nat)
      requires Tied() && lo < hi <= |cells| && CanTake(cells, planActive, planList, planDest, lo, hi)
      modifies `pages, `cells, `mirror, `planDest, `unheldBits, `os, `epochBits, `epochNdirty, `statBits, `epochNstat,
               `hotBits, `nhot, `dirtyMap, `statusMap, `groupFree
      ensures Tied() && PlanShaped(old(Abs())) && Abs() == GiveBack(TakeIn(old(Abs()), Range(lo, hi)), lo, hi, false)
    {
      hide Tied;
      EmptyAll(lo, hi);
      ghost var mid := Abs();
      SetProtections(lo, hi, StFree);
      UnmappedIs(old(Abs()), lo, hi, mid);
    }

    /** free_pages */
    method FreePages(lo: nat, hi: nat, adviseOnly: bool)
      requires Tied() && lo < hi <= |cells| && CanTake(cells, planActive, planList, planDest, lo, hi)
      modifies `pages, `cells, `mirror, `planDest, `unheldBits, `os, `epochBits, `epochNdirty, `statBits, `epochNstat,
               `hotBits, `nhot, `dirtyMap, `statusMap, `groupFree
      ensures Tied() && PlanShaped(old(Abs())) && Abs() == GiveBack(TakeIn(old(Abs()), Range(lo, hi)), lo, hi, adviseOnly)
    {
      hide Tied;
      if adviseOnly {
        AdvisePages(lo, hi);
      } else {
        UnmapPages(lo, hi);
      }
    }

    // ---- the write fault ----

    /** group_page_held */
    method GroupPageHeld(q: nat, i: nat) returns (held: bool)
      requires Tied() && q < |cells| && i < |cells| && SameGroup(group, i, q)
      ensures held == FoundHeld(cells, group, i, q)
    {
      hide Count, Counted;
      assert PageTied(q);
      held := Tracked(pages[q].status) && (q == i || !Writable(NativeProt(pages[q])));
    }

    /** mb_block_protect_group */
    method ProtectGroup(i: nat)
      requires Tied() && i < |cells|
      modifies `os
      ensures Tied() && os == RefreshOs(cells, group, old(os), i, i + 1)
    {
      hide Tied;
      Lengths();
      var first := i - i % group;
      RoundDown(group, i);
      var prot := GroupNativeProt(first);
      Tell(first, first + group, prot);
      GroupProtShared(cells, group, first);
      RoundUp(group, first);
      GroupsTold(cells, group, old(os), os, i, i + 1, first, first + group);
    }

    /** trip's first loop: the baseline copies. */
    method SnapshotHeld(i: nat, first: nat, end: nat)
      requires Tied() && Span(group, |cells|, i, first, end)
      modifies `pages, `cells
      ensures Tied() && |cells| == |old(cells)| && AllSnapshotAt(old(cells), group, i, end, cells)
    {
      hide Tied;
      ghost var was := cells;
      var q := first;
      SnapshotStart(was, group, i, first, end);
      while q < end
        invariant Tied() && first <= q <= end && AllSnapshotAt(was, group, i, q, cells)
      {
        SnapshotNext(was, i, first, end, q);
        q := q + 1;
      }
    }

    method SnapshotNext(ghost was: seq<Cell>, i: nat, ghost first: nat, ghost end: nat, q: nat)
      requires Tied() && Span(group, |cells|, i, first, end) && first <= q < end && AllSnapshotAt(was, group, i, q, cells)
      modifies `pages, `cells
      ensures Tied() && AllSnapshotAt(was, group, i, q + 1, cells)
    {
      hide Tied;
      assert SameGroup(group, i, q);
      assert SnapshotAt(was, group, i, q, cells, q);
      var held := GroupPageHeld(q, i);
      if held {
        MaybeSnapshot(q);
      }
      SnapshotStep(was, group, i, q, old(cells), cells);
    }

    /** One page of trip's second loop. */
    method RecordHeld(q: nat)
      requires Tied() && q < |cells| && !cells[q].p.planHold.Copying?
      requires cells[q].p.planHold == Owed ==> planActive && cells[q].p.planSlot < |planDest|
      modifies `pages, `cells, `planDest, `unheldBits, `epochBits, `epochNdirty, `hotBits, `nhot, `dirtyMap
      ensures Tied() && |planDest| == |old(planDest)|
      ensures cells == old(cells)[q := Recording(old(cells[q]), epochActive)]
      ensures planDest == if old(cells[q]).p.planHold == Owed
                          then old(planDest)[old(cells[q]).p.planSlot := old(cells[q]).mem] else old(planDest)
    {
      hide Tied;
      EpochCapture(q);
      assert cells == old(cells)[q := Pages.EpochCapture(old(cells[q]), epochActive)];
      PlanTake(q);
      SetDirty(q, true);
    }

    /** note_unheld */
    method NoteUnheld(q: nat)
      requires Tied() && q < |cells|
      modifies `cells, `unheldBits
      ensures Tied() && cells == old(cells)[q := if old(cells[q]).p.hot then old(cells[q]) else old(cells[q]).(unheld := true)]
    {
      hide Count, Counted;
      assert PageTied(q);
      if pages[q].hot { return; }
      unheldBits := unheldBits[q := true];
      cells := cells[q := cells[q].(unheld := true)];
      forall j | 0 <= j < |cells| ensures PageTied(j) { assert old(PageTied(j)); }
      AllTied();
    }

    /** trip's second loop: every held page recorded, and which ones. */
    method RecordAllHeld(ghost was: seq<Cell>, i: nat, first: nat, end: nat) returns (released: seq<bool>)
      requires Tied() && Span(group, |cells|, i, first, end) && AllSnapshotAt(was, group, i, end, cells)
      requires CanTake(was, planActive, planList, planDest, first, end)
      modifies `pages, `cells, `planDest, `unheldBits, `epochBits, `epochNdirty, `hotBits, `nhot, `dirtyMap
      ensures Tied() && AllRecordAt(was, group, i, epochActive, end, cells) && Marks(was, group, i, first, end, released)
      ensures planDest == DestAfter(was, planActive, planList, old(planDest), HeldBelow(was, group, i, end))
    {
      hide *;
      SpanFits(was, group, i, first, end, cells);
      ghost var dest := planDest;
      released := [];
      var q := first;
      MarksNone(was, group, i, first);
      RecordStart(was, group, i, epochActive, first, end, cells);
      HeldBelowSpan(was, group, i, first, end);
      TakeNobody(was, planActive, planList, dest);
      while q < end
        invariant Tied() && |cells| == |was| && first <= q <= end && AllRecordAt(was, group, i, epochActive, q, cells)
        invariant Marks(was, group, i, first, q, released)
        invariant CanTake(was, planActive, planList, dest, first, end)
        invariant planDest == DestAfter(was, planActive, planList, dest, HeldBelow(was, group, i, q))
      {
        var held := RecordNext(was, i, first, end, q, dest);
        MarksOneMore(was, group, i, first, q, released, held);
        released := released + [held];
        q := q + 1;
      }
    }

    method RecordNext(ghost was: seq<Cell>, i: nat, ghost first: nat, ghost end: nat, q: nat, ghost dest: seq<PageBytes>) returns (held: bool)
      requires Tied() && Span(group, |cells|, i, first, end) && first <= q < end && AllRecordAt(was, group, i, epochActive, q, cells)
      requires CanTake(was, planActive, planList, dest, first, end)
      requires planDest == DestAfter(was, planActive, planList, dest, HeldBelow(was, group, i, q))
      modifies `pages, `cells, `planDest, `unheldBits, `epochBits, `epochNdirty, `hotBits, `nhot, `dirtyMap
      ensures Tied() && |cells| == |was| && AllRecordAt(was, group, i, epochActive, q + 1, cells) && held == FoundHeld(was, group, i, q)
      ensures planDest == DestAfter(was, planActive, planList, dest, HeldBelow(was, group, i, q + 1))
    {
      hide Tied;
      assert SameGroup(group, i, q);
      assert RecordAt(was, group, i, epochActive, q, cells, q);
      FoundHeldSnapshot(was, cells, group, i, q, epochActive);
      held := GroupPageHeld(q, i);
      if held {
        TakeOneMore(was, planActive, planList, dest, HeldBelow(was, group, i, q), q);
        RecordHeld(q);
      }
      RecordStep(was, group, i, epochActive, q, old(cells), cells);
    }

    /** trip's last loop: the pages let go are for the next epoch to hold. */
    method NoteAllUnheld(ghost was: seq<Cell>, i: nat, first: nat, end: nat, released: seq<bool>)
      requires Tied() && |cells| == |was| && Span(group, |was|, i, first, end) && Marks(was, group, i, first, end, released)
      modifies `cells, `unheldBits
      ensures Tied() && AllUnheldAt(was, group, i, old(cells), end, cells)
    {
      hide *;
      ghost var mid := cells;
      UnheldStart(was, group, i, first, end, mid);
      MarksLength(was, group, i, first, end, released);
      var q := first;
      while q < end
        invariant Tied() && first <= q <= end && |cells| == |was| && AllUnheldAt(was, group, i, mid, q, cells)
      {
        ghost var now := cells;
        if released[q - first] {
          NoteUnheld(q);
        }
        UnheldStep(was, group, i, first, end, mid, q, released, now, cells);
        q := q + 1;
      }
    }

    /** trip under the lock, loop by loop. */
    method LetHeldGo(i: nat, first: nat, end: nat) returns (ghost mid: seq<Cell>)
      requires Tied() && Span(group, |cells|, i, first, end) && CanTake(cells, planActive, planList, planDest, first, end)
      modifies `pages, `cells, `planDest, `unheldBits, `epochBits, `epochNdirty, `hotBits, `nhot, `dirtyMap, `os
      requires |os| == |cells|
      ensures Tied() && |mid| == |old(cells)| == |old(os)|
      ensures AllRecordAt(old(cells), group, i, epochActive, end, mid) && AllUnheldAt(old(cells), group, i, mid, end, cells)
      ensures os == RefreshOs(mid, group, old(os), i, i + 1)
      ensures planDest == DestAfter(old(cells), planActive, planList, old(planDest), HeldBelow(old(cells), group, i, end))
    {
      hide *;
      ghost var was := cells;
      SnapshotHeld(i, first, end);
      SpanFits(was, group, i, first, end, cells);
      var released := RecordAllHeld(was, i, first, end);
      mid := cells;
      RecordedLength(was, group, i, epochActive, end, mid);
      ProtectGroup(i);
      NoteAllUnheld(was, i, first, end, released);
    }

    /** What trip does to the host page of a tracked page. */
    method LetGroupGo(i: nat, first: nat, end: nat)
      requires Tied() && Span(group, |cells|, i, first, end) && CanTake(cells, planActive, planList, planDest, first, end)
      modifies `pages, `cells, `planDest, `unheldBits, `epochBits, `epochNdirty, `hotBits, `nhot, `dirtyMap, `os
      ensures Tied() && PlanShaped(old(Abs()))
      ensures var which := HeldBelow(old(cells), group, i, end);
              Abs() == Trip(TakeIn(old(Abs()), which), i, which)
    {
      hide Tied, Span, CanTake, AllSnapshotAt, AllRecordAt, AllUnheldAt, HeldBelow, Trip, TakeIn, RefreshOs,
           DestAfter, SlotsOk, PlanShaped;
      Lengths();
      ghost var m := Abs();
      ghost var mid := LetHeldGo(i, first, end);
      CanTakeShape(m, first, end);
      TripIs(m, i, first, end, mid, cells);
    }

    /** The pages of page i's host page. */
    method HostPage(i: nat) returns (first: nat, end: nat)
      requires Tied() && i < |cells|
      ensures Span(group, |cells|, i, first, end) && first <= end <= |cells|
      ensures HeldBelow(cells, group, i, end) == HeldBelow(cells, group, i, |cells|)
    {
      hide Tied, Span, HeldBelow;
      Lengths();
      first := i - i % group;
      end := if first + group < |pages| then first + group else |pages|;
      SpanOf(group, |cells|, i);
      HeldBelowSpan(cells, group, i, first, end);
    }

    /** trip on a tracked page. */
    method ServeFault(i: nat)
      requires Valid() && i < |cells| && Tracked(cells[i].p.status)
      modifies `pages, `cells, `planDest, `unheldBits, `epochBits, `epochNdirty, `hotBits, `nhot, `dirtyMap, `os
      ensures Valid() && Abs() == Faulted(old(Abs()), i)
    {
      hide Tied, BaseOk, Sorted, Watched, Tight, Enrolled, CellsOk, PlanShaped, HeldBelow, Trip, TakeIn, Quiet, Span, CanTake;
      ghost var m := Abs();
      var first, end := HostPage(i);
      TakeReady(m, base, planList, planDest, first, end);
      FaultKeeps(m, base, i);
      LetGroupGo(i, first, end);
    }

    /** trip: every page of the host page still held is recorded with this one,
        a planned state gets the bytes it is owed first, and the write can then
        go ahead. */
    method WriteFault(i: nat) returns (handled: bool)
      requires Valid() && i < |cells|
      modifies `pages, `cells, `planDest, `unheldBits, `epochBits, `epochNdirty, `hotBits, `nhot, `dirtyMap, `os
      ensures Valid() && handled == Tracked(old(cells[i]).p.status)
      ensures Abs() == if handled then Faulted(old(Abs()), i) else old(Abs())
    {
      hide Tied, Inv, Quiet, BaseOk, Sorted, Faulted;
      var status := StatusAt(i);
      handled := Tracked(status);
      if handled { ServeFault(i); }
    }

    /** A guest write to one page: straight through when the OS lets it, after
        the handler when not; a write nobody tracks is the guest's own fault,
        unless a neighbour in its host page lets it through. */
    method GuestStore(i: nat, bytes: PageBytes) returns (stored: bool)
      requires Valid() && i < |cells|
      modifies `pages, `cells, `mirror, `planDest, `unheldBits, `epochBits, `epochNdirty, `hotBits, `nhot, `dirtyMap, `os
      ensures stored <==> Tracked(old(cells[i]).p.status) || Writable(old(os[i]))
      ensures Abs() == if !stored then old(Abs())
                       else if Tracked(old(cells[i]).p.status) then Overwritten(old(Abs()), i, bytes)
                       else Store(old(Abs()), i, bytes)
      ensures Valid() <==> !Stray(old(Abs()), i) || Bears(old(cells[i]), bytes)
    {
      hide Tied, Quiet, BaseOk, Sorted, Faulted, Watched, Tight, Enrolled, CellsOk, PlanShaped, Store, TakeIn, Trip;
      ghost var m := Abs();
      Lengths();
      stored := true;
      var status := StatusAt(i);
      if Writable(os[i]) && !Tracked(status) {
        StrayStore(i, bytes);
        return;
      }
      if !Writable(os[i]) {
        stored := WriteFault(i);
        if !stored { return; }
        FaultServes(m, base, i);
      } else {
        NoUnrecordedWrite(m, base, i);
      }
      OverwrittenIs(m, i, bytes);
      StoreBytes(i, bytes);
    }

    /** A write nothing records. */
    method StrayStore(i: nat, bytes: PageBytes)
      requires Valid() && Stray(Abs(), i)
      modifies `cells, `mirror
      ensures i < |old(cells)| == |cells| && Abs() == Store(old(Abs()), i, bytes)
      ensures Valid() <==> Bears(old(cells[i]), bytes)
    {
      hide Tied, Counted, Count, BaseOk, Sorted, Watched, Tight, Enrolled, CellsOk, PlanOk, Bears;
      StrayKeeps(Abs(), base, i, bytes);
      PutBytes(i, bytes);
    }

    /** The write itself, on a page already recorded. */
    method StoreBytes(i: nat, bytes: PageBytes)
      requires Valid() && i < |cells| && Tracked(cells[i].p.status) && cells[i].p.dirty
      modifies `cells, `mirror
      ensures Valid() && Abs() == Store(old(Abs()), i, bytes)
    {
      hide Tied, Counted, Count, BaseOk, Sorted, Watched, Tight, Enrolled, CellsOk, PlanOk;
      StoreKeeps(Abs(), base, i, bytes);
      PutBytes(i, bytes);
    }

    // ---- the guest's calls ----

    method SomeFree(lo: nat, hi: nat) returns (found: bool)
      requires Tied() && lo <= hi <= |cells|
      ensures found <==> !AllTaken(cells, lo, hi)
    {
      hide Count, Counted;
      var i := lo;
      while i < hi
        invariant lo <= i <= hi && AllTaken(cells, lo, i)
      {
        assert PageTied(i);
        if pages[i].status == StFree { return true; }
        i := i + 1;
      }
      return false;
    }

    method SomeTaken(lo: nat, hi: nat) returns (found: bool)
      requires Tied() && lo <= hi <= |cells|
      ensures found <==> !AllGiven(cells, lo, hi)
    {
      hide Count, Counted;
      var i := lo;
      while i < hi
        invariant lo <= i <= hi && AllGiven(cells, lo, i)
      {
        assert PageTied(i);
        if pages[i].status != StFree { return true; }
        i := i + 1;
      }
      return false;
    }

    /** munmap_impl */
    method Munmap(start: nat, size: nat, adviseOnly: bool) returns (e: Errno)
      requires Valid()
      modifies `pages, `cells, `mirror, `planDest, `unheldBits, `os, `epochBits, `epochNdirty, `statBits, `epochNstat,
               `hotBits, `nhot, `dirtyMap, `statusMap, `groupFree
      ensures Valid() && (e == Ok || e == EINVAL)
      ensures var r := PageRange(addr, |old(cells)|, start, size);
              && (e == Ok <==> r.Some? && AllTaken(old(cells), r.value.0, r.value.0 + r.value.1))
              && (e == Ok ==> Abs() == Unmap(old(Abs()), r.value.0, r.value.0 + r.value.1, adviseOnly)
                              && |cells| == |old(cells)| && GivenUp(old(cells), cells, r.value.0, r.value.0 + r.value.1, adviseOnly))
      ensures e != Ok ==> Abs() == old(Abs())
    {
      hide GivenUp, Tied, Counted, Count, BaseOk, Sorted, Watched, Tight, Enrolled, CellsOk, PlanShaped, AllTaken, TakeIn, GiveBack,
           Quiet, CanTake;
      Lengths();
      var r := PageRange(addr, |pages|, start, size);
      if r == None { return EINVAL; }
      var lo, hi := r.value.0, r.value.0 + r.value.1;
      var free := SomeFree(lo, hi);
      if free { return EINVAL; }
      TakeReady(Abs(), base, planList, planDest, lo, hi);
      UnmapKeeps(Abs(), base, lo, hi, adviseOnly);
      UnmapGives(Abs(), base, lo, hi, adviseOnly);
      FreePages(lo, hi, adviseOnly);
      return Ok;
    }

    /** mprotect_impl */
    method Mprotect(start: nat, size: nat, prot: Prot) returns (e: Errno)
      requires Valid()
      modifies `pages, `cells, `unheldBits, `os, `epochBits, `epochNdirty, `statBits, `epochNstat,
               `hotBits, `nhot, `statusMap, `groupFree
      ensures Valid()
      ensures var r := PageRange(addr, |old(cells)|, start, size);
              && e == (if r == None then EINVAL
                       else if AllTaken(old(cells), r.value.0, r.value.0 + r.value.1) then Ok else ENOMEM)
              && (e == Ok ==> Abs() == Protect(old(Abs()), r.value.0, r.value.0 + r.value.1, ProtStatus(prot))
                              && Reprotected(old(cells), cells, r.value.0, r.value.0 + r.value.1, ProtStatus(prot)))
      ensures e != Ok ==> Abs() == old(Abs())
    {
      hide Tied, Counted, Count, BaseOk, Sorted, Watched, Tight, Enrolled, CellsOk, PlanShaped, AllTaken, Protect, Quiet,
           Reprotected;
      Lengths();
      var r := PageRange(addr, |pages|, start, size);
      if r == None { return EINVAL; }
      var lo, hi := r.value.0, r.value.0 + r.value.1;
      var free := SomeFree(lo, hi);
      if free { return ENOMEM; }
      ProtectKeeps(Abs(), base, lo, hi, ProtStatus(prot));
      ProtectQuiet(Abs(), base, lo, hi, ProtStatus(prot));
      ProtectGives(Abs(), lo, hi, ProtStatus(prot));
      SetProtections(lo, hi, ProtStatus(prot));
      return Ok;
    }

    /** The end of the allocated stretch that starts at page i. */
    method StretchEnd(i: nat, hi: nat) returns (j: nat)
      requires Tied() && i < hi <= |cells| && cells[i].p.status != StFree
      ensures i < j <= hi && AllTaken(cells, i, j)
    {
      hide Count, Counted;
      assert PageTied(i);
      j := i + 1;
      while j < hi && pages[j].status != StFree
        invariant i < j <= hi && AllTaken(cells, i, j)
      {
        assert PageTied(j);
        j := j + 1;
      }
    }

    /** mmap_fixed_impl's zeroing, by allocated stretch. */
    method ZeroOverlap(lo: nat, hi: nat)
      requires Valid() && lo < hi <= |cells|
      modifies `pages, `cells, `mirror, `planDest, `unheldBits, `os, `epochBits, `epochNdirty, `statBits, `epochNstat,
               `hotBits, `nhot, `dirtyMap, `statusMap, `groupFree
      ensures Tied() && OverlapAt(old(Abs()), lo, hi, hi, Abs())
    {
      hide Tied, Counted, Count, BaseOk, Sorted, Watched, Tight, Enrolled, CellsOk, PlanShaped, AllTaken, TakeIn, GiveBack,
           Quiet, CanTake, OverlapAt;
      ghost var m := Abs();
      OverlapStart(m, lo, hi);
      var i := lo;
      while i < hi
        invariant Tied() && |cells| == |m.cells| && lo <= i <= hi && OverlapAt(m, lo, hi, i, Abs())
      {
        ghost var now := Abs();
        OverlapAhead(m, lo, hi, i, now);
        var status := StatusAt(i);
        if status == StFree {
          OverlapPass(m, lo, hi, i, now);
          i := i + 1;
        } else {
          var j := StretchEnd(i, hi);
          OverlapTaken(m, lo, hi, i, now, j);
          OverlapCanTake(m, base, lo, hi, i, now, j);
          FreePages(i, j, true);
          OverlapStretch(m, base, lo, hi, i, now, j, Abs());
          OverlapAhead(m, lo, hi, j, Abs());
          i := j;
        }
      }
    }

    /** mmap_fixed_impl's last step, zeroing first when asked. */
    method MapRange(lo: nat, hi: nat, s: Status, zeroOverlap: bool)
      requires Valid() && lo < hi <= |cells| && s != StFree
      modifies `pages, `cells, `mirror, `planDest, `unheldBits, `os, `epochBits, `epochNdirty, `statBits, `epochNstat,
               `hotBits, `nhot, `dirtyMap, `statusMap, `groupFree
      ensures Valid() && Abs() == MapFixed(old(Abs()), lo, hi, s, zeroOverlap)
    {
      hide Tied, Counted, Count, BaseOk, Sorted, Watched, Tight, Enrolled, CellsOk, PlanShaped, Protect, Quiet, OverlapAt, MapFixed;
      ghost var m := Abs();
      MapFixedKeeps(m, base, lo, hi, s, zeroOverlap);
      MapPlain(m, lo, hi, s);
      if zeroOverlap {
        ZeroOverlap(lo, hi);
        OverlapDone(m, lo, hi, Abs(), s);
      }
      SetProtections(lo, hi, s);
    }

    /** mmap_fixed_impl */
    method MmapFixed(start: nat, size: nat, prot: Prot, noReplace: bool, zeroOverlap: bool) returns (e: Errno)
      requires Valid()
      modifies `pages, `cells, `mirror, `planDest, `unheldBits, `os, `epochBits, `epochNdirty, `statBits, `epochNstat,
               `hotBits, `nhot, `dirtyMap, `statusMap, `groupFree
      ensures Valid()
      ensures var r := PageRange(addr, |old(cells)|, start, size);
              && e == (if r == None then EINVAL
                       else if noReplace && !AllGiven(old(cells), r.value.0, r.value.0 + r.value.1) then EEXIST else Ok)
              && (e == Ok ==> Abs() == MapFixed(old(Abs()), r.value.0, r.value.0 + r.value.1, ProtStatus(prot), zeroOverlap)
                              && Mapped(old(cells), cells, r.value.0, r.value.0 + r.value.1, ProtStatus(prot), zeroOverlap))
      ensures e != Ok ==> Abs() == old(Abs())
    {
      hide Tied, Counted, Count, BaseOk, Sorted, Watched, Tight, Enrolled, CellsOk, PlanShaped, AllGiven, MapFixed, Quiet,
           Mapped;
      Lengths();
      var r := PageRange(addr, |pages|, start, size);
      if r == None { return EINVAL; }
      var lo, hi := r.value.0, r.value.0 + r.value.1;
      if noReplace {
        var taken := SomeTaken(lo, hi);
        if taken { return EEXIST; }
      }
      MapGives(Abs(), base, lo, hi, ProtStatus(prot), zeroOverlap);
      MapRange(lo, hi, ProtStatus(prot), zeroOverlap);
      return Ok;
    }

    /** find_free_pages on the block's own map. */
    method FindRoom(lo: nat, hi: nat, n: nat) returns (r: Option<nat>)
      requires Tied() && lo <= hi <= |cells| && 0 < n
      ensures Placement(StatusMap(cells), lo, hi, n, r)
      ensures r.Some? ==> lo <= r.value && r.value + n <= hi && AllGiven(cells, r.value, r.value + n)
    {
      hide Count, Counted;
      forall i | 0 <= i < |cells| ensures statusMap[i] == StatusMap(cells)[i] { assert PageTied(i); }
      assert statusMap == StatusMap(cells);
      r := FindFreePages(statusMap, groupFree, lo, hi, n);
      if r.Some? {
        forall k | r.value <= k < r.value + n ensures cells[k].p.status == StFree { assert statusMap[k] == StFree; }
      }
    }

    /** mmap_impl with no address given: a big request from the top of the
        arena, a small one where it fits best. */
    method MmapAnywhere(size: nat, prot: Prot, arenaStart: nat, arenaSize: nat) returns (e: Errno, at: nat)
      requires Valid()
      modifies `pages, `cells, `mirror, `planDest, `unheldBits, `os, `epochBits, `epochNdirty, `statBits, `epochNstat,
               `hotBits, `nhot, `dirtyMap, `statusMap, `groupFree
      ensures Valid()
      ensures var a := PageRange(addr, |old(cells)|, arenaStart, arenaSize);
              if size == 0 || size % PAGESIZE != 0 || a == None then e == EINVAL
              else
                var n := size / PAGESIZE;
                var lo, hi := a.value.0, a.value.0 + a.value.1;
                if e == Ok then
                  && at >= addr && at % PAGESIZE == 0
                  && var first := (at - addr) / PAGESIZE;
                  && Placement(StatusMap(old(cells)), lo, hi, n, Some(first))
                  && lo <= first && first + n <= hi && AllGiven(old(cells), first, first + n)
                  && Abs() == Protect(old(Abs()), first, first + n, ProtStatus(prot))
                  && MappedNew(old(cells), cells, first, first + n, ProtStatus(prot))
                else e == ENOMEM && Placement(StatusMap(old(cells)), lo, hi, n, None)
      ensures e != Ok ==> Abs() == old(Abs())
    {
      hide Tied, Counted, Count, BaseOk, Sorted, Watched, Tight, Enrolled, CellsOk, PlanShaped, AllGiven, Protect, Quiet,
           Placement, StatusMap, MappedNew;
      Lengths();
      at := 0;
      if size == 0 || size % PAGESIZE != 0 { return EINVAL, 0; }
      var a := PageRange(addr, |pages|, arenaStart, arenaSize);
      if a == None { return EINVAL, 0; }
      var n := size / PAGESIZE;
      var room := FindRoom(a.value.0, a.value.0 + a.value.1, n);
      if room == None { return ENOMEM, 0; }
      ProtectKeeps(Abs(), base, room.value, room.value + n, ProtStatus(prot));
      ProtectQuiet(Abs(), base, room.value, room.value + n, ProtStatus(prot));
      NewMapGives(Abs(), base, room.value, room.value + n, ProtStatus(prot));
      SetProtections(room.value, room.value + n, ProtStatus(prot));
      return Ok, addr + room.value * PAGESIZE;
    }

    /** mremap_impl's growth: the pages behind the range, if they are free. */
    method Grow(lo: nat, hi: nat, end: nat) returns (e: Errno)
      requires Valid() && lo < hi <= end <= |cells| && AllTaken(cells, lo, hi) && hi < end
      modifies `pages, `cells, `unheldBits, `os, `epochBits, `epochNdirty, `statBits, `epochNstat,
               `hotBits, `nhot, `statusMap, `groupFree
      ensures Valid() && e == (if AllGiven(old(cells), hi, end) then Ok else EEXIST)
      ensures Abs() == if e == Ok then Protect(old(Abs()), hi, end, old(cells[lo]).p.status) else old(Abs())
    {
      hide Tied, BaseOk, Sorted, Watched, Tight, Enrolled, CellsOk, PlanShaped, AllTaken, AllGiven, Protect, Quiet;
      Lengths();
      var taken := SomeTaken(hi, end);
      if taken { return EEXIST; }
      var status := StatusAt(lo);
      FirstTaken(cells, lo, hi);
      ProtectKeeps(Abs(), base, hi, end, status);
      ProtectQuiet(Abs(), base, hi, end, status);
      SetProtections(hi, end, status);
      return Ok;
    }

    /** mremap_impl: in place only. */
    method Mremap(start: nat, size: nat, newSize: nat) returns (e: Errno)
      requires Valid()
      modifies `pages, `cells, `mirror, `planDest, `unheldBits, `os, `epochBits, `epochNdirty, `statBits, `epochNstat,
               `hotBits, `nhot, `dirtyMap, `statusMap, `groupFree
      ensures Valid() && e == RemapErr(addr, old(cells), start, size, newSize)
      ensures e == Ok ==> Abs() == Remapped(addr, old(Abs()), start, size, newSize)
      ensures e == Ok ==> var r := PageRange(addr, |old(cells)|, start, size).value;
                          Resized(old(cells), cells, r.0, r.1, newSize / PAGESIZE)
      ensures e != Ok ==> Abs() == old(Abs())
    {
      hide Tied, BaseOk, Sorted, Watched, Tight, Enrolled, CellsOk, PlanShaped, AllTaken, AllGiven, Protect, TakeIn, GiveBack, Quiet,
           Resized, GivenUp;
      Lengths();
      if RemapErr(addr, cells, start, size, newSize) == Ok { RemapGives(addr, Abs(), base, start, size, newSize); }
      if size == 0 || newSize == 0 { return EINVAL; }
      if start == 0 { return ENOSYS; }
      var r := PageRange(addr, |pages|, start, size);
      if r == None { return EINVAL; }
      var lo, hi := r.value.0, r.value.0 + r.value.1;
      var free := SomeFree(lo, hi);
      if newSize > size {
        var f := PageRange(addr, |pages|, start, newSize);
        if f == None || free { return EINVAL; }
        e := Grow(lo, hi, f.value.0 + f.value.1);
      } else {
        if free { return EINVAL; }
        TailTaken(addr, cells, start, size, newSize);
        e := Munmap(start + newSize, size - newSize, false);
      }
    }

    /** A page made visible or not, owed nothing. */
    method ShowAs(i: nat, hidden: bool)
      requires Tied() && i < |cells| && cells[i].p.planHold == Clear
      modifies `pages, `cells, `planDest
      ensures Tied() && planDest == old(planDest)
      ensures cells == old(cells)[i := old(cells[i]).(p := old(cells[i]).p.(invisible := hidden))]
    {
      hide Tied, Counted, Count;
      var p := PageAt(i);
      PutPage(i, p.(invisible := hidden));
      PlanTake(i);
      assert cells == old(cells)[i := cells[i]];
    }

    /** The page mremap protected, marked and filled. */
    method FillLanded(i: nat, hidden: bool, bytes: PageBytes)
      requires Tied() && i < |cells| && cells[i].p.planHold == Clear
      modifies `pages, `cells, `mirror, `planDest, `unheldBits, `hotBits, `nhot, `dirtyMap
      ensures Tied() && Abs() == old(Abs()).(cells := old(cells)[i := Filled(old(cells[i]), hidden, bytes)])
    {
      hide Tied, Counted, Count, Cool, Pages.SetDirty;
      ShowAs(i, hidden);
      SetDirty(i, true);
      PageCool(i);
      PutBytes(i, bytes);
      assert cells == old(cells)[i := Filled(old(cells[i]), hidden, bytes)];
    }

    /** One page of mremap's move. */
    method LandPage(i: nat, s: Status, hidden: bool, bytes: PageBytes)
      requires Tied() && i < |cells| && s != StFree && cells[i].p.planHold == Clear
      modifies `pages, `cells, `mirror, `planDest, `unheldBits, `os, `epochBits, `epochNdirty, `statBits, `epochNstat,
               `hotBits, `nhot, `dirtyMap, `statusMap, `groupFree
      ensures Tied() && Abs() == Land(old(Abs()), i, s, hidden, bytes)
    {
      hide Tied, Counted, Count, Protect, Land, Landed, Protected, Filled;
      Lengths();
      ghost var m := Abs();
      LandIsSwap(m, i, s, hidden, bytes);
      ProtectHold(m.cells[i], m.epochActive, s);
      LandedIsFilled(m.cells[i], m.epochActive, s, hidden, bytes);
      SetProtections(i, i + 1, s);
      FillLanded(i, hidden, bytes);
    }

    /** mremap_move_impl's loop. */
    method LandAll(lo: nat, count: nat, to: nat, newCount: nat)
      requires Valid() && count > 0 && lo + count <= |cells| && to + newCount <= |cells|
      requires AllTaken(cells, lo, lo + count) && AllGiven(cells, to, to + newCount)
      modifies `pages, `cells, `mirror, `planDest, `unheldBits, `os, `epochBits, `epochNdirty, `statBits, `epochNstat,
               `hotBits, `nhot, `dirtyMap, `statusMap, `groupFree
      ensures Tied() && Abs() == LandRun(old(Abs()), lo, count, to, newCount)
    {
      hide Tied, Counted, Count, BaseOk, Sorted, Watched, Tight, Enrolled, CellsOk, PlanShaped, Quiet, Land, LandRun,
           AllTaken, AllGiven;
      ghost var m := Abs();
      var k := 0;
      LandRunStart(m, lo, count, to);
      while k < newCount
        invariant Tied() && 0 <= k <= newCount && |cells| == |m.cells| && Abs() == LandRun(m, lo, count, to, k)
      {
        LandReady(m, base, lo, count, to, newCount, k);
        LandRunStep(m, lo, count, to, k);
        var c := PageAt(MoveSource(lo, count, k));
        var bytes := BytesAt(MoveSource(lo, count, k));
        var zeros: PageBytes := Zeros();
        LandPage(to + k, c.status, c.invisible, if k < count then bytes else zeros);
        k := k + 1;
      }
    }

    /** mremap_move_impl: to where the arena has room, the old range given back. */
    method MremapMove(start: nat, size: nat, newSize: nat, arenaStart: nat, arenaSize: nat) returns (e: Errno, at: nat)
      requires Valid()
      modifies `pages, `cells, `mirror, `planDest, `unheldBits, `os, `epochBits, `epochNdirty, `statBits, `epochNstat,
               `hotBits, `nhot, `dirtyMap, `statusMap, `groupFree, `unveiled
      ensures Valid()
      ensures Moves(addr, old(Abs()), start, size, newSize, arenaStart, arenaSize, e, at, Abs())
      ensures e == Ok ==> var r := PageRange(addr, |old(cells)|, start, size).value;
                          at >= addr && Transferred(old(cells), cells, r.0, r.1, (at - addr) / PAGESIZE, newSize / PAGESIZE)
      ensures e != Ok ==> Abs() == old(Abs())
      ensures unveiled == (old(unveiled) || (e == Ok && Unveils(addr, old(Abs()), start, size, newSize, at)))
      ensures old(Enrolled(Abs())) && e == Ok ==> (Enrolled(Abs()) <==> !Unveils(addr, old(Abs()), start, size, newSize, at))
    {
      hide Tied, Counted, Count, BaseOk, Sorted, Watched, Tight, Enrolled, CellsOk, PlanShaped, AllTaken, AllGiven, Quiet,
           Placement, StatusMap, LandRun, Unmap, CanTake, Veiled, Transferred;
      Lengths();
      at := 0;
      var r := PageRange(addr, |pages|, start, size);
      if r == None || newSize == 0 || newSize % PAGESIZE != 0 { return EINVAL, 0; }
      var lo, count := r.value.0, r.value.1;
      var free := SomeFree(lo, lo + count);
      if free { return EINVAL, 0; }
      var a := PageRange(addr, |pages|, arenaStart, arenaSize);
      if a == None { return EINVAL, 0; }
      var n := newSize / PAGESIZE;
      var room := FindRoom(a.value.0, a.value.0 + a.value.1, n);
      if room == None { return ENOMEM, 0; }
      MoveGives(Abs(), base, lo, count, room.value, n);
      MoveRange(lo, count, room.value, n);
      return Ok, addr + room.value * PAGESIZE;
    }

    method MoveRange(lo: nat, count: nat, to: nat, newCount: nat)
      requires Valid() && count > 0 && lo + count <= |cells| && to + newCount <= |cells|
      requires AllTaken(cells, lo, lo + count) && AllGiven(cells, to, to + newCount)
      modifies `pages, `cells, `mirror, `planDest, `unheldBits, `os, `epochBits, `epochNdirty, `statBits, `epochNstat,
               `hotBits, `nhot, `dirtyMap, `statusMap, `groupFree, `unveiled
      ensures Valid() && Abs() == MoveTo(old(Abs()), lo, count, to, newCount)
      ensures unveiled == (old(unveiled) || (group == 1 && !Veiled(old(cells), lo, count, to, newCount)))
      ensures old(Enrolled(Abs())) ==> (Enrolled(Abs()) <==> group != 1 || Veiled(old(cells), lo, count, to, newCount))
    {
      hide Tied, Inv, PlanShaped, Counted, Count, BaseOk, Sorted, Enrolled, AllTaken, AllGiven, Quiet, MoveTo, Veiled;
      ghost var shown := group == 1 && !Veiled(cells, lo, count, to, newCount);
      MoveKeeps(Abs(), base, lo, count, to, newCount);
      MoveOver(lo, count, to, newCount);
      NoteUnveiled(shown);
    }

    ghost method NoteUnveiled(shown: bool)
      requires Tied() && addr % PAGESIZE == 0 && Inv(Abs(), base) && Quiet(cells) && BaseOk(sealed, base)
      requires (planActive ==> sealed && Sorted(planList)) && (!unveiled && !shown ==> Enrolled(Abs()))
      modifies `unveiled
      ensures Valid() && unveiled == (old(unveiled) || shown) && Abs() == old(Abs())
    {
      hide Inv, Quiet, Enrolled, Sorted, BaseOk;
      unveiled := unveiled || shown;
    }

    method MoveOver(lo: nat, count: nat, to: nat, newCount: nat)
      requires Valid() && count > 0 && lo + count <= |cells| && to + newCount <= |cells|
      requires AllTaken(cells, lo, lo + count) && AllGiven(cells, to, to + newCount)
      modifies `pages, `cells, `mirror, `planDest, `unheldBits, `os, `epochBits, `epochNdirty, `statBits, `epochNstat,
               `hotBits, `nhot, `dirtyMap, `statusMap, `groupFree
      ensures Tied() && Shaped(old(Abs())) && PlanShaped(old(Abs()))
      ensures Abs() == MoveTo(old(Abs()), lo, count, to, newCount)
    {
      hide Tied, Counted, Count, BaseOk, Sorted, Watched, Tight, Enrolled, CellsOk, PlanShaped, AllTaken, AllGiven, Quiet,
           LandRun, TakeIn, GiveBack, CanTake;
      ghost var m := Abs();
      MoveKeeps(m, base, lo, count, to, newCount);
      LandRunKeeps(m, base, lo, count, to, newCount);
      LandAll(lo, count, to, newCount);
      TakeReady(Abs(), base, planList, planDest, lo, lo + count);
      FreePages(lo, lo + count, false);
    }

    /** mb_block_mremap_maymove: in place when it fits, moved when blocked. */
    method MremapMayMove(start: nat, size: nat, newSize: nat, arenaStart: nat, arenaSize: nat, mayMove: bool)
      returns (e: Errno, at: nat)
      requires Valid()
      modifies `pages, `cells, `mirror, `planDest, `unheldBits, `os, `epochBits, `epochNdirty, `statBits, `epochNstat,
               `hotBits, `nhot, `dirtyMap, `statusMap, `groupFree, `unveiled
      ensures Valid()
      ensures var inPlace := RemapErr(addr, old(cells), start, size, newSize);
              && (!(mayMove && newSize > size && inPlace == EEXIST) ==> e == inPlace && at == start)
              && (inPlace == Ok ==> Abs() == Remapped(addr, old(Abs()), start, size, newSize))
              && (e == Ok ==> var r := PageRange(addr, |old(cells)|, start, size).value;
                              if inPlace == Ok then Resized(old(cells), cells, r.0, r.1, newSize / PAGESIZE)
                              else at >= addr
                                   && Transferred(old(cells), cells, r.0, r.1, (at - addr) / PAGESIZE, newSize / PAGESIZE))
              && (mayMove && newSize > size && inPlace == EEXIST ==>
                    Moves(addr, old(Abs()), start, size, newSize, arenaStart, arenaSize, e, at, Abs()))
      ensures e != Ok ==> Abs() == old(Abs())
      ensures unveiled == (old(unveiled) || (e == Ok && RemapErr(addr, old(cells), start, size, newSize) != Ok
                                             && Unveils(addr, old(Abs()), start, size, newSize, at)))
    {
      hide Tied, Counted, Count, BaseOk, Sorted, Watched, Tight, Enrolled, CellsOk, PlanShaped, AllTaken, AllGiven, Quiet,
           Placement, StatusMap, Protect, Unmap, Moves, Unveils, Resized, Transferred;
      e := Mremap(start, size, newSize);
      at := start;
      if mayMove && newSize > size && e == EEXIST {
        e, at := MremapMove(start, size, newSize, arenaStart, arenaSize);
      }
    }

    // ---- refreshing in runs ----

    /** run_note: page k, just put as the walk wants it, is noted. */
    method RunNote(ghost w: Walk, ghost before: seq<Cell>, k: nat, run: ProtRun) returns (next: ProtRun)
      requires Tied() && w.g == group && At(w, k, run, before, os) && k < |w.goal| && w.noted[k]
      requires |before| == |w.goal| && cells == before[k := w.goal[k]]
      modifies `pages, `cells, `unheldBits, `os
      ensures Tied() && At(w, k + 1, next, cells, os)
    {
      hide Tied, Counted, Count, PagesAt, OsAt, RefreshOs, Refreshed;
      if run.open && k != run.last + 1 {
        ghost var filled, told := cells, os;
        RefreshRange(run.start, run.last + 1);
        RunToldBy(run, filled, cells);
        Parted(w, k, run, before, told, cells);
        return ProtRun(true, k, k);
      }
      Joined(w, k, run, before, os);
      return ProtRun(true, if run.open then run.start else k, k);
    }

    /** run_close: the walk is over. */
    method RunClose(ghost w: Walk, run: ProtRun)
      requires Tied() && w.g == group && At(w, |w.goal|, run, cells, os)
      modifies `pages, `cells, `unheldBits, `os
      ensures Tied() && cells == Settled(w.goal, w.noted) && |w.os0| == |w.goal| && os == SettledOs(w.goal, w.noted, w.g, w.os0)
    {
      hide Tied, Counted, Count, OsAt, RefreshOs, Settled, SettledOs, Refreshed;
      if run.open {
        ghost var filled, told := cells, os;
        RefreshRange(run.start, run.last + 1);
        RunToldBy(run, filled, cells);
        Closed(w, run, filled, told, cells);
      } else {
        ClosedEmpty(w, run, cells, os);
      }
    }

    // ---- epochs ----

    /** epoch_forget's walk: the flag off every page whose bit is set. */
    method ForgetFlags() returns (forgot: seq<Page>)
      requires Tied()
      ensures |forgot| == |pages| && forall k | 0 <= k < |pages| :: forgot[k] == pages[k].(epochDirty := false)
    {
      hide Count, Counted;
      forgot := pages;
      var i := 0;
      while i < |pages|
        invariant 0 <= i <= |pages| == |forgot|
        invariant forall k | 0 <= k < |pages| :: forgot[k] == if k < i then pages[k].(epochDirty := false) else pages[k]
      {
        assert PageTied(i);
        if epochBits[i] {
          forgot := forgot[i := forgot[i].(epochDirty := false)];
        }
        i := i + 1;
      }
    }

    /** epoch_forget */
    method EpochForget()
      requires Tied()
      modifies `pages, `cells, `epochBits, `statBits, `epochNdirty, `epochNstat
      ensures Tied() && cells == EpochClear(old(Abs())).cells
    {
      hide Count, Counted;
      var forgot := ForgetFlags();
      var none := seq(|epochBits|, _ => false);
      CountNothing(none);
      pages, epochBits, statBits, epochNdirty, epochNstat, cells := forgot, none, none, 0, 0, EpochClear(Abs()).cells;
      forall j | 0 <= j < |cells| ensures PageTied(j) { assert old(PageTied(j)); }
      AllTied();
    }

    method PutEpoch(active: bool, number: nat)
      requires Tied()
      modifies `epochActive, `epochNo
      ensures Tied() && epochActive == active && epochNo == number
    {
      hide Count, Counted;
      epochActive, epochNo := active, number;

    }

    /** The hot pages as the epoch finds them. */
    method ShadowHot()
      requires Tied()
      modifies `pages, `cells
      ensures Tied() && |cells| == |old(cells)| && forall k | 0 <= k < |cells| :: cells[k] == Shadowed(old(cells[k]))
    {
      hide Count, Counted;
      var i := 0;
      while i < |pages|
        invariant Tied() && 0 <= i <= |pages| == |cells| == |old(cells)|
        invariant forall k | 0 <= k < |cells| :: cells[k] == if k < i then Shadowed(old(cells[k])) else old(cells[k])
      {
        assert PageTied(i);
        if hotBits[i] {
          PutPage(i, pages[i].(shadow := Some(mirror[i])));
        }
        i := i + 1;
      }
    }

    /** A writable page found: its bit taken, and held if the epoch tracks it. */
    method TakeUnheld(i: nat)
      requires Tied() && i < |cells|
      modifies `pages, `cells, `unheldBits
      ensures Tied() && cells == old(cells)[i := Reheld(old(cells[i]))]
    {
      hide Count, Counted;
      assert PageTied(i);
      unheldBits, pages, cells :=
        unheldBits[i := false],
        if EpochTracks(pages[i]) then pages[i := pages[i].(held := true)] else pages,
        cells[i := Reheld(cells[i])];
      forall j | 0 <= j < |cells| ensures PageTied(j) { assert old(PageTied(j)); }
      AllTied();
    }

    method UnheldAtPage(i: nat) returns (b: bool)
      requires Tied() && i < |cells|
      ensures b == cells[i].unheld
    {
      hide Count, Counted;
      assert PageTied(i);
      return unheldBits[i];
    }

    /** epoch_begin_impl's walk over the pages mapped writable. */
    method HoldAgain()
      requires Tied()
      modifies `pages, `cells, `unheldBits, `os
      ensures Tied() && |old(os)| == |old(cells)|
      ensures cells == Settled(Rehold(old(cells)), UnheldBits(old(cells)))
      ensures os == SettledOs(Rehold(old(cells)), UnheldBits(old(cells)), group, old(os))
    {
      hide Tied, Counted, Count, At, Reheld, Settled, SettledOs;
      Lengths();
      ghost var w := Walk(cells, Rehold(cells), UnheldBits(cells), group, os);
      Start(w);
      var run := NO_RUN;
      var i := 0;
      while i < |pages|
        invariant Tied() && 0 <= i <= |pages| == |cells| == |w.orig| && At(w, i, run, cells, os)
      {
        ghost var before := cells;
        AtAhead(w, i, run, cells, os);
        var unheld := UnheldAtPage(i);
        if unheld {
          TakeUnheld(i);
          run := RunNote(w, before, i, run);
        } else {
          AdvanceOne(w, i, run, cells, os);
        }
        i := i + 1;
        AtLength(w, i, run, cells, os);
        Lengths();
      }
      RunClose(w, run);
    }

    /** mb_block_epoch_clear */
    method ClearEpoch()
      requires Valid()
      modifies `pages, `cells, `epochBits, `statBits, `epochNdirty, `epochNstat, `epochActive, `epochNo
      ensures Valid() && Abs() == EpochClear(old(Abs())) && EpochOver(Abs())
    {
      hide Tied, Counted, Count, BaseOk, Sorted, Watched, Tight, Enrolled, CellsOk, PlanShaped, EpochOver;
      ghost var m := Abs();
      ClearEnds(m);
      ClearKeeps(m, base);
      ClearWatched(m);
      EpochForget();
      PutEpoch(false, epochNo);
    }

    /** epoch_begin_impl, the block sealed. */
    method OpenEpoch()
      requires Tied()
      modifies `pages, `cells, `epochBits, `statBits, `epochNdirty, `epochNstat, `unheldBits, `os, `epochActive, `epochNo
      ensures Tied() && Abs() == EpochBegin(old(Abs()))
    {
      hide Tied, Counted, Count, Settled, SettledOs, Rehold, UnheldBits, EpochBegin, Shadowed;
      Lengths();
      ghost var m := Abs();
      EpochForget();
      PutEpoch(true, (epochNo + 1) % 65536);
      ShadowHot();
      ghost var found := cells;
      HoldAgain();
      OpenedIs(m, found, cells, os);
    }

    /** epoch_begin_impl */
    method BeginEpoch() returns (e: Errno)
      requires Valid()
      modifies `pages, `cells, `epochBits, `statBits, `epochNdirty, `epochNstat, `unheldBits, `os, `epochActive, `epochNo
      ensures Valid() && e == (if sealed then Ok else EINVAL)
      ensures Abs() == if sealed then EpochBegin(old(Abs())) else old(Abs())
      ensures e == Ok ==> epochActive && NothingRecorded(cells)
    {
      hide Tied, Counted, Count, BaseOk, Sorted, Watched, Tight, Enrolled, CellsOk, PlanShaped, EpochBegin, Quiet,
           NothingRecorded;
      if !sealed { return EINVAL; }
      BeginOpens(Abs());
      BeginKeeps(Abs(), base);
      BeginQuiet(Abs(), base);
      OpenEpoch();
      return Ok;
    }

    /** get_hot_epoch on one page. */
    method CompareOne(i: nat)
      requires Tied() && i < |cells|
      modifies `pages, `cells, `unheldBits, `hotBits, `nhot, `epochBits, `epochNdirty
      ensures Tied() && cells == old(cells)[i := Compared(old(cells[i]))]
    {
      hide Tied;
      Lengths();
      var p := PageAt(i);
      var live := BytesAt(i);
      ghost var c := cells[i];
      assert cells == cells[i := c];
      if !p.hot { return; }
      if p.shadow == Some(live) {
        PutPage(i, p.(heat := p.heat + 1));
        if p.heat + 1 >= COLD_AFTER {
          PageCool(i);
        }
      } else {
        PutPage(i, p.(heat := 0));
        if !p.epochDirty {
          MarkEpochDirty(i);
        }
      }
    }

    /** get_hot_epoch */
    method GetHotEpoch()
      requires Tied()
      modifies `pages, `cells, `unheldBits, `hotBits, `nhot, `epochBits, `epochNdirty
      ensures Tied() && cells == CompareHot(old(Abs())).cells
    {
      hide Tied, Counted, Count, Compared;
      Lengths();
      var i := 0;
      while i < |pages|
        invariant Tied() && 0 <= i <= |pages| == |cells| == |old(cells)|
        invariant forall k | 0 <= k < |cells| :: cells[k] == if k < i then Compared(old(cells[k])) else old(cells[k])
      {
        CompareOne(i);
        i := i + 1;
        Lengths();
      }
    }

    /** page_heat */
    method PageHeat(i: nat)
      requires Tied() && i < |cells| && MayHeat(cells[i].p, cells[i].unheld) && nhot < HOT_MOST
      modifies `pages, `cells, `unheldBits, `hotBits, `nhot
      ensures Tied() && cells == old(cells)[i := GoesHot(old(cells[i]))]
    {
      hide Count, Counted;
      assert PageTied(i);
      CountSet(hotBits, i, true);
      pages, hotBits, unheldBits, nhot, cells :=
        pages[i := pages[i].(shadow := Some(mirror[i]), hot := true, heat := 0)], hotBits[i := true], unheldBits[i := false],
        nhot + 1, cells[i := GoesHot(cells[i])];
      forall j | 0 <= j < |cells| ensures PageTied(j) { assert old(PageTied(j)); }
      AllTied();
    }

    /** heat_written_pages on one page. */
    method HeatOne(i: nat)
      requires Tied() && i < |cells|
      modifies `pages, `cells, `unheldBits, `hotBits, `nhot
      ensures Tied() && cells == old(cells)[i := Heated(old(cells[i]), epochNo, old(nhot) < HOT_MOST)]
    {
      hide Tied;
      var p := PageAt(i);
      var unheld := UnheldAtPage(i);
      ghost var c := cells[i];
      assert cells == cells[i := c];
      if !p.epochDirty || p.hot { return; }
      var heat := if p.seen == (epochNo + 65535) % 65536 then (if p.heat < 255 then p.heat + 1 else p.heat) else 1;
      var warm := p.(heat := heat, seen := epochNo);
      PutPage(i, warm);
      if heat >= HOT_AFTER && nhot < HOT_MOST && MayHeat(warm, unheld) {
        PageHeat(i);
      }
    }

    /** heat_written_pages */
    method HeatWrittenPages()
      requires Tied()
      modifies `pages, `cells, `unheldBits, `hotBits, `nhot
      ensures Tied() && cells == HeatBelow(old(cells), epochNo, |old(cells)|)
    {
      hide Tied, Counted, Count, CountHot, Heated;
      Lengths();
      var i := 0;
      HeatStart(cells, epochNo);
      while i < |pages|
        invariant Tied() && 0 <= i <= |pages| == |cells| == |old(cells)|
        invariant cells == HeatBelow(old(cells), epochNo, i)
      {
        HotCount();
        HeatStep(old(cells), epochNo, i);
        HeatOne(i);
        i := i + 1;
        Lengths();
      }
    }

    lemma HotCount()
      requires Tied()
      ensures nhot == CountHot(cells)
    {
      forall i | 0 <= i < |hotBits| ensures hotBits[i] == cells[i].p.hot { assert PageTied(i); }
      CountHotBits(cells, hotBits);
    }

    /** The status list, by the bits. */
    method ListStatus() returns (list: seq<Entry<Status>>)
      requires Tied()
      ensures list == DeltaOf(cells).status && |list| == epochNstat
    {
      hide Count, Counted;
      list := [];
      var i := 0;
      ghost var bits := StatBits(cells);
      while i < |pages|
        invariant 0 <= i <= |pages| && |list| == |Picks(bits, i)|
        invariant forall k | 0 <= k < |list| :: list[k] == Entry(Picks(bits, i)[k], cells[Picks(bits, i)[k]].p.status)
      {
        assert PageTied(i);
        if statBits[i] {
          list := list + [Entry(i, pages[i].status)];
        }
        i := i + 1;
      }
      forall j | 0 <= j < |cells| ensures statBits[j] == bits[j] { assert PageTied(j); }
      assert statBits == bits;
      PicksCount(bits);
    }

    /** The data list, by the bits: the live pages, and which are clean again. */
    method ListData() returns (list: seq<Entry<Change>>)
      requires Tied()
      ensures list == DeltaOf(cells).data && |list| == epochNdirty
    {
      hide Count, Counted;
      list := [];
      var i := 0;
      ghost var bits := EpochBits(cells);
      while i < |pages|
        invariant 0 <= i <= |pages| && |list| == |Picks(bits, i)|
        invariant forall k | 0 <= k < |list| ::
                    list[k] == Entry(Picks(bits, i)[k], Change(!cells[Picks(bits, i)[k]].p.dirty, cells[Picks(bits, i)[k]].mem))
      {
        assert PageTied(i);
        if epochBits[i] {
          list := list + [Entry(i, Change(!pages[i].dirty, mirror[i]))];
        }
        i := i + 1;
      }
      forall j | 0 <= j < |cells| ensures epochBits[j] == bits[j] { assert PageTied(j); }
      assert epochBits == bits;
      PicksCount(bits);
    }

    /** mb_block_delta_save: the counts written ahead of the lists are the
        lists' lengths. */
    method DeltaSave(forward: bool) returns (e: Errno, nstatus: nat, ndata: nat, d: Delta)
      requires Valid()
      modifies `pages, `cells, `unheldBits, `hotBits, `nhot, `epochBits, `epochNdirty
      ensures Valid()
      ensures e == if !epochActive then EINVAL else if !forward then ENOTSUP else Ok
      ensures e == EINVAL ==> Abs() == old(Abs())
      ensures e == ENOTSUP ==> Abs() == CompareHot(old(Abs()))
      ensures e == Ok ==> (Abs(), d) == SaveDelta(old(Abs())) && nstatus == |d.status| && ndata == |d.data|
    {
      hide Tied, Counted, Count, BaseOk, Sorted, Watched, Tight, Enrolled, CellsOk, PlanShaped, Quiet, HeatBelow, DeltaOf, Compared;
      Lengths();
      nstatus, ndata, d := 0, 0, Delta(0, [], []);
      if !epochActive { return EINVAL, nstatus, ndata, d; }
      ghost var m := Abs();
      CompareKeeps(m, base);
      SaveDeltaKeeps(m, base);
      DeltaQuiet(m, base);
      GetHotEpoch();
      if !forward { return ENOTSUP, nstatus, ndata, d; }
      nstatus, ndata := epochNstat, epochNdirty;
      var status := ListStatus();
      var data := ListData();
      Lengths();
      d := Delta(|pages|, status, data);
      HeatWrittenPages();
      return Ok, nstatus, ndata, d;
    }

    // ---- whole states ----

    /** next_state_page: eight clean pages at a time. */
    method NextStatePage(from: nat) returns (i: nat)
      requires Tied() && from <= |cells|
      ensures from <= i <= |cells| && (forall k | from <= k < i :: !Carried(cells[k])) && (i < |cells| ==> Carried(cells[i]))
    {
      hide Count, Counted;
      i := from;
      while i < |pages|
        invariant from <= i <= |cells| && forall k | from <= k < i :: !Carried(cells[k])
      {
        if i % 8 == 0 && |pages| - i >= 8 && NoneSet(dirtyMap, i, i + 8) {
          forall k | i <= k < i + 8 ensures !Carried(cells[k]) { assert PageTied(k) && !dirtyMap[k]; }
          i := i + 8;
        } else {
          assert PageTied(i);
          if dirtyMap[i] && !pages[i].invisible { return; }
          i := i + 1;
        }
      }
    }

    /** count_state_pages */
    method CountStatePages() returns (n: nat)
      requires Tied()
      ensures n == |Picks(CarriedBits(cells), |cells|)|
    {
      hide Tied, Counted, Count, Picks, Carried, CarriedBits;
      Lengths();
      n := 0;
      var i := NextStatePage(0);
      CarriedNext(cells, 0, i);
      while i < |pages|
        invariant 0 <= i <= |cells| == |pages| && n == |Picks(CarriedBits(cells), i)| && (i < |cells| ==> Carried(cells[i]))
      {
        var j := NextStatePage(i + 1);
        CarriedNext(cells, i, j);
        n := n + 1;
        i := j;
        Lengths();
      }
    }

    /** mb_block_save_state */
    method Save() returns (e: Errno, st: State)
      requires Valid()
      ensures e == (if sealed then Ok else EINVAL) && (e == Ok ==> st == SaveState(Abs()))
    {
      hide Count, Counted;
      st := State([], [], []);
      if !sealed { return EINVAL, st; }
      ghost var bits := CarriedBits(cells);
      var data: seq<PageBytes> := [];
      var i := 0;
      while i < |pages|
        invariant 0 <= i <= |pages| && |data| == |Picks(bits, i)|
        invariant forall k | 0 <= k < |data| :: data[k] == cells[Picks(bits, i)[k]].mem
      {
        assert PageTied(i);
        if !pages[i].invisible && pages[i].dirty {
          data := data + [mirror[i]];
        }
        i := i + 1;
      }
      forall j | 0 <= j < |cells| ensures statusMap[j] == StatusMap(cells)[j] && dirtyMap[j] == DirtyMap(cells)[j] { assert PageTied(j); }
      assert statusMap == StatusMap(cells) && dirtyMap == DirtyMap(cells);
      assert data == BytesOf(cells, Picks(bits, |cells|));
      return Ok, State(statusMap, dirtyMap, data);
    }

    // ---- a state taken while the machine runs ----

    /** A carried page given its slot, and owed if it can be held still. */
    method MarkPlanned(i: nat, slot: nat)
      requires Tied() && i < |cells|
      modifies `pages, `cells
      ensures Tied() && cells == old(cells)[i := PlanMark(old(cells[i]), slot)]
    {
      hide Tied;
      var p := PageAt(i);
      if Tracked(p.status) {
        PutPage(i, p.(planSlot := slot, planHold := Owed, held := p.held || !p.hot));
      } else {
        PutPage(i, p.(planSlot := slot));
      }
    }

    /** Page i, which the state carries, listed, and held or copied. */
    method PlanPage(ghost w: Walk, i: nat, run: ProtRun, list: seq<nat>, dest: seq<PageBytes>, blank: PageBytes)
      returns (run': ProtRun, list': seq<nat>, dest': seq<PageBytes>)
      requires Tied() && PlanWalking(w, group, i, run, cells, os) && i < |w.orig| && Carried(w.orig[i])
      requires PlanLists(w.orig, i, blank, list, dest)
      modifies `pages, `cells, `unheldBits, `os
      ensures Tied() && PlanWalking(w, group, i + 1, run', cells, os) && PlanLists(w.orig, i + 1, blank, list', dest')
    {
      hide Tied, Counted, Count, At, PlanMark, PlanGoal, PlanNoted, Picks, Carried, PlanTells, PlanLists;
      ghost var before := cells;
      AtAhead(w, i, run, cells, os);
      var status := StatusAt(i);
      var bytes := BytesAt(i);
      PlanListed(w.orig, i, list, blank, dest);
      PlanMarked(w.orig, i);
      MarkPlanned(i, |list|);
      list', dest' := list + [i], dest + [if Tracked(status) then blank else bytes];
      if Tracked(status) {
        run' := RunNote(w, before, i, run);
      } else {
        Advance(w, i, i + 1, run, before, cells, os);
        run' := run;
      }
    }

    /** state_plan_impl's walk. */
    method PlanWalk(blank: PageBytes) returns (list: seq<nat>, dest: seq<PageBytes>)
      requires Tied()
      modifies `pages, `cells, `unheldBits, `os
      ensures Tied() && |old(os)| == |old(cells)|
      ensures cells == Settled(PlanGoal(old(cells)), PlanNoted(old(cells)))
      ensures os == SettledOs(PlanGoal(old(cells)), PlanNoted(old(cells)), group, old(os))
      ensures PlanLists(old(cells), |old(cells)|, blank, list, dest)
    {
      hide Tied, Counted, Count, PlanWalking, Settled, SettledOs, PlanGoal, PlanNoted, PlanLists, Carried;
      Lengths();
      ghost var w := Walk(cells, PlanGoal(cells), PlanNoted(cells), group, os);
      PlanStart(w, blank);
      var run := NO_RUN;
      list, dest := [], [];
      var i := NextStatePage(0);
      PlanSkip(w, group, 0, i, run, cells, os, blank, list, dest);
      while i < |pages|
        invariant Tied() && 0 <= i <= |pages| == |cells| == |w.orig| && PlanWalking(w, group, i, run, cells, os)
        invariant i < |w.orig| ==> Carried(w.orig[i])
        invariant PlanLists(w.orig, i, blank, list, dest)
      {
        run, list, dest := PlanPage(w, i, run, list, dest, blank);
        PlanLength(w, group, i + 1, run, cells, os);
        var j := NextStatePage(i + 1);
        PlanSkip(w, group, i + 1, j, run, cells, os, blank, list, dest);
        i := j;
        Lengths();
      }
      PlanOver(w, group, run, cells, os);
      RunClose(w, run);
    }

    method PutPlan(active: bool, status: seq<Status>, dirty: seq<bool>, list: seq<nat>, dest: seq<PageBytes>)
      requires Tied()
      modifies `planActive, `planStatus, `planDirty, `planList, `planDest
      ensures Tied() && PlanNow() == if active then Open(status, dirty, list, dest) else Idle
      ensures planActive == active && planList == list
    {
      hide Count, Counted;
      planActive, planStatus, planDirty, planList, planDest := active, status, dirty, list, dest;

    }

    method CopyMaps() returns (status: seq<Status>, dirty: seq<bool>)
      requires Tied()
      ensures status == StatusMap(cells) && dirty == DirtyMap(cells)
    {
      hide Count, Counted;
      forall j | 0 <= j < |cells| ensures statusMap[j] == StatusMap(cells)[j] && dirtyMap[j] == DirtyMap(cells)[j] { assert PageTied(j); }
      return statusMap, dirtyMap;
    }

    /** state_plan_impl, nothing refused. */
    method PlanIt(blank: PageBytes)
      requires Tied()
      modifies `pages, `cells, `unheldBits, `os, `planActive, `planStatus, `planDirty, `planList, `planDest
      ensures Tied() && Abs() == PlanState(old(Abs()), blank)
      ensures planActive && planList == Picks(CarriedBits(old(cells)), |old(cells)|)
    {
      hide Tied, Counted, Count, Settled, SettledOs, PlanGoal, PlanNoted, PlanLists, PlanState, Carried, StatusMap,
           DirtyMap;
      Lengths();
      ghost var m := Abs();
      var status, dirty := CopyMaps();
      var list, dest := PlanWalk(blank);
      PlannedIs(m, blank, cells, os, list, dest);
      PutPlan(true, status, dirty, list, dest);
    }

    /** state_plan_impl: where the page data will start in the buffer, or 0. A
        slot of the buffer nobody has filled yet holds `blank`. */
    method StatePlan(capacity: nat, blank: PageBytes) returns (at: nat)
      requires Valid()
      modifies `pages, `cells, `unheldBits, `os, `planActive, `planStatus, `planDirty, `planList, `planDest
      ensures Valid()
      ensures var header := HeaderSize(|old(cells)|);
              var size := header + |SaveState(old(Abs())).data| * PAGESIZE;
              if sealed && !old(planActive) && size <= capacity
              then at == header > 0 && Abs() == PlanState(old(Abs()), blank)
              else at == 0 && Abs() == old(Abs())
    {
      hide Tied, Counted, Count, BaseOk, Sorted, Watched, Tight, Enrolled, CellsOk, PlanShaped, Quiet, PlanState, Picks,
           CarriedBits;
      Lengths();
      if !sealed || planActive { return 0; }
      var count := CountStatePages();
      if HeaderSize(|pages|) + count * PAGESIZE > capacity { return 0; }
      PlanKeeps(Abs(), base, blank);
      PlanQuiet(Abs(), base, blank);
      PlanSorted(cells);
      at := HeaderSize(|pages|);
      PlanIt(blank);
    }

    /** plan_take as the machine sees it. */
    method TakePage(i: nat) returns (taken: bool)
      requires Tied() && i < |cells| && CanTake(cells, planActive, planList, planDest, i, i + 1)
      modifies `pages, `cells, `planDest
      ensures Tied() && PlanShaped(old(Abs())) && Abs() == TakeIn(old(Abs()), {i}) && taken == (old(cells[i]).p.planHold == Owed)
    {
      hide PageTied, Agree, Counted, Count, PlanShaped, SlotsOk, DestTaken;
      ghost var m := Abs();
      var p := PageAt(i);
      taken := p.planHold == Owed;
      CanTakeShape(m, i, i + 1);
      TakeOneMore(cells, planActive, planList, planDest, {}, i);
      TakeNobody(cells, planActive, planList, planDest);
      PlanTake(i);
      TakenIs(m, i, cells, planDest);
    }

    /** plan_take on pages [from, to) of the plan. */
    method TakeListed(from: nat, to: nat) returns (done: nat)
      requires Valid() && planActive && from <= to <= |planList|
      modifies `pages, `cells, `planDest
      ensures Valid() && Abs() == TakeIn(old(Abs()), Listed(planList, from, to))
      ensures done == OwedIn(old(cells), planList, from, to)
    {
      hide Tied, Counted, Count, BaseOk, Sorted, Watched, Tight, Enrolled, CellsOk, PlanShaped, Quiet, TakeIn, CanTake,
           Listed, OwedIn;
      ghost var m := Abs();
      done := 0;
      var k := from;
      FillStart(m, base, planList, from, to);
      while k < to
        invariant Tied() && |cells| == |m.cells| && from <= k <= to && Abs() == TakeIn(m, Listed(planList, from, k))
        invariant done == OwedIn(m.cells, planList, from, k)
        invariant FillOk(m, base, planList, from, to)
      {
        FillReady(m, base, planList, from, to, k);
        var taken := TakePage(planList[k]);
        FillStep(m, base, planList, from, to, k);
        if taken { done := done + 1; }
        k := k + 1;
      }
      FillDone(m, base, planList, from, to);
    }

    /** mb_block_plan_fill: the copier's half. */
    method PlanFill(from: nat, to: nat) returns (done: nat)
      requires Valid()
      modifies `pages, `cells, `planDest
      ensures Valid()
      ensures var end := if to > |planList| then |planList| else to;
              if planActive && from < end
              then done == OwedIn(old(cells), planList, from, end) && Abs() == TakeIn(old(Abs()), Listed(planList, from, end))
              else done == 0 && Abs() == old(Abs())
    {
      hide Tied, Counted, Count, BaseOk, Sorted, Watched, Tight, Enrolled, CellsOk, PlanShaped, Quiet, TakeIn, Listed, OwedIn;
      if !planActive { return 0; }
      var end := if to > |planList| then |planList| else to;
      if from >= end { return 0; }
      done := TakeListed(from, end);
    }

    /** Refreshing the pages of an ascending list, in runs. */
    method RefreshListed(list: seq<nat>)
      requires Tied() && Sorted(list) && forall k | 0 <= k < |list| :: list[k] < |cells|
      modifies `pages, `cells, `unheldBits, `os
      ensures Tied() && |old(os)| == |old(cells)|
      ensures cells == Settled(old(cells), ListBits(list, |old(cells)|))
      ensures os == SettledOs(old(cells), ListBits(list, |old(cells)|), group, old(os))
    {
      hide Tied, Counted, Count, At, Settled, SettledOs, ListBits, Sorted;
      Lengths();
      ghost var w := Walk(cells, cells, ListBits(list, |cells|), group, os);
      ListBitsLength(list, |cells|);
      Start(w);
      var run := NO_RUN;
      var k := 0;
      while k < |list|
        invariant Tied() && 0 <= k <= |list| && |cells| == |w.orig| && At(w, AfterListed(list, k), run, cells, os)
      {
        ListSkip(w, list, k, run, cells, os);
        run := RunNote(w, cells, list[k], run);
        AtLength(w, list[k] + 1, run, cells, os);
        k := k + 1;
        Lengths();
      }
      ListEnd(w, list, run, cells, os);
      RunClose(w, run);
    }

    /** plan_finish_impl: whatever is left copied, the plan over, its pages given
        their ordinary protection back. The buffer is then a state. */
    method PlanFinish() returns (e: Errno, st: State)
      requires Valid()
      modifies `pages, `cells, `unheldBits, `os, `planActive, `planStatus, `planDirty, `planList, `planDest
      ensures Valid() && e == (if old(planActive) then Ok else EINVAL)
      ensures e == EINVAL ==> Abs() == old(Abs())
      ensures e == Ok ==> var t := TakeIn(old(Abs()), Listed(old(planList), 0, |old(planList)|));
                          Abs() == FinishPlan(t) && st == PlanBuffer(t.plan)
    {
      hide Tied, Counted, Count, BaseOk, Sorted, Watched, Tight, Enrolled, CellsOk, PlanShaped, Quiet, TakeIn, Listed, OwedIn, FinishPlan;
      st := State([], [], []);
      if !planActive { return EINVAL, st; }
      AllCopied(Abs(), base, planList);
      var done := TakeListed(0, |planList|);
      st := EndPlan();
      return Ok, st;
    }

    /** The plan over, every page copied. */
    method EndPlan() returns (st: State)
      requires Valid() && planActive && forall i | 0 <= i < |cells| :: cells[i].p.planHold == Clear
      modifies `pages, `cells, `unheldBits, `os, `planActive, `planStatus, `planDirty, `planList, `planDest
      ensures Valid() && Abs() == FinishPlan(old(Abs())) && st == PlanBuffer(old(PlanNow())) && !planActive
    {
      hide Tied, Counted, Count, BaseOk, Sorted, Watched, Tight, Enrolled, CellsOk, PlanShaped, Quiet, FinishPlan, Settled, SettledOs, ListBits;
      ghost var t := Abs();
      var list := planList;
      FinishKeeps(t, base);
      FinishQuiet(t);
      ListedFit(t, base);
      st := State(planStatus, planDirty, planDest);
      PutPlan(false, [], [], [], []);
      RefreshListed(list);
      FinishedIs(t, cells, os);
    }

    // ---- putting a state back ----

    /** The bytes of a loaded page: the stream's, or the baseline's again. */
    method FillLoaded(i: nat, d: bool, bytes: PageBytes)
      requires Tied() && i < |cells| && Loadable(cells[i])
      modifies `pages, `cells, `mirror
      ensures Tied() && cells == old(cells)[i := LoadFilled(old(cells[i]), d, bytes)]
    {
      hide Tied, Counted, Count;
      var p := PageAt(i);
      ghost var c := cells[i];
      assert cells == cells[i := c];
      if !p.dirty && d {
        MaybeSnapshot(i);
        PutBytes(i, bytes);
      } else if p.dirty && !d {
        var zeros: PageBytes := Zeros();
        PutBytes(i, if p.snap.DataSnap? then p.snap.data else zeros);
      } else if p.dirty && d {
        PutBytes(i, bytes);
      }
    }

    /** The mark of a loaded page; a hot one keeps its shadow true or cools. */
    method MarkLoaded(i: nat, d: bool)
      requires Tied() && i < |cells|
      modifies `pages, `cells, `unheldBits, `hotBits, `nhot, `dirtyMap
      ensures Tied() && cells == old(cells)[i := LoadMarked(old(cells[i]), d)]
    {
      hide Tied, Counted, Count;
      SetDirty(i, d);
      var p := PageAt(i);
      var live := BytesAt(i);
      if p.hot {
        PutPage(i, p.(shadow := Some(live)));
      }
    }

    /** load_state on one page that is not skipped. */
    method LoadPage(i: nat, s: Status, d: bool, bytes: PageBytes)
      requires Tied() && i < |cells| && Loadable(cells[i])
      modifies `pages, `cells, `mirror, `unheldBits, `hotBits, `nhot, `dirtyMap, `statusMap, `groupFree
      ensures Tied() && cells == old(cells)[i := LoadedCell(old(cells[i]), s, d, bytes)]
    {
      hide Tied, Counted, Count, LoadFilled, LoadMarked;
      var p := PageAt(i);
      if !p.invisible {
        FillLoaded(i, d, bytes);
        MarkLoaded(i, d);
      }
      NoteStatus(i, s);
    }

    /** The page the stream ended in. */
    method FailPage(i: nat, partial: PageBytes)
      requires Tied() && i < |cells|
      modifies `pages, `cells, `mirror, `unheldBits, `hotBits, `nhot, `dirtyMap
      ensures Tied() && cells == old(cells)[i := FailedCell(old(cells[i]), partial)]
    {
      hide Tied, Counted, Count;
      var p := PageAt(i);
      if p.dirty {
        PutBytes(i, partial);
      } else {
        MaybeSnapshot(i);
        PutBytes(i, partial);
        SetDirty(i, true);
      }
    }

    method ProtAt(i: nat) returns (prot: Prot)
      requires Tied() && i < |cells|
      ensures prot == NativeProt(cells[i].p)
    {
      hide Count, Counted;
      assert PageTied(i);
      return NativeProt(pages[i]);
    }

    /** One page of the load's loop, read whole. */
    method LoadNext(ghost w: Walk, st: State, ghost f: nat, ghost partial: PageBytes, i: nat, at: nat, run: ProtRun)
      returns (run': ProtRun, at': nat)
      requires Tied() && Loading(w, group, st, f, partial, i, at, run, cells, os) && i < f
      modifies `pages, `cells, `mirror, `unheldBits, `hotBits, `nhot, `dirtyMap, `statusMap, `groupFree, `os
      ensures Tied() && Loading(w, group, st, f, partial, i + 1, at', run', cells, os)
    {
      hide Tied, Counted, Count, At, Loadable, LoadedCell, LoadGoal, MovedBelow, FailsFrom, Picks, Settling, NativeProt;
      ghost var before, os0 := cells, os;
      LoadLength(w, group, st, f, partial, i, at, run, cells, os);
      LoadReads(w, group, st, f, partial, i, at, run, cells, os);
      var p := PageAt(i);
      var brought := st.dirty[i] && !p.invisible;
      var zeros: PageBytes := Zeros();
      var was := ProtAt(i);
      LoadPage(i, st.status[i], st.dirty[i], if brought then st.data[at] else zeros);
      run' := NoteIfMoved(w, before, i, was, run);
      at' := if brought then at + 1 else at;
      LoadedOne(w, group, st, f, partial, i, at, run, before, os0, run', cells, os);
    }

    /** Pages clean before and after with the same statuses, by the packed maps. */
    method SameByMaps(st: State, a: nat, b: nat) returns (same: bool)
      requires Tied() && |st.status| == |st.dirty| == |cells| && a <= b <= |cells|
      ensures same <==> forall k | a <= k < b :: !st.dirty[k] && !cells[k].p.dirty && st.status[k] == cells[k].p.status
    {
      hide Count, Counted;
      forall k | a <= k < b ensures dirtyMap[k] == cells[k].p.dirty && statusMap[k] == cells[k].p.status { assert PageTied(k); }
      same := Unchanged(st.dirty, st.status, dirtyMap, statusMap, a, b);
    }

    /** How many pages from i on the maps show unchanged: eight, one or none. */
    method SkipSame(st: State, i: nat) returns (n: nat)
      requires Tied() && |st.status| == |st.dirty| == |cells| && i < |cells|
      ensures i + n <= |cells| && forall k | i <= k < i + n :: !st.dirty[k] && !cells[k].p.dirty && st.status[k] == cells[k].p.status
      ensures n == 0 ==> st.dirty[i] || cells[i].p.dirty || st.status[i] != cells[i].p.status
    {
      hide Tied, Counted, Count;
      Lengths();
      n := if i % 8 == 0 && i + 8 <= |pages| then 8 else 1;
      var same := SameByMaps(st, i, i + n);
      if !same && n == 8 {
        n := 1;
        same := SameByMaps(st, i, i + 1);
      }
      if !same { n := 0; }
    }

    /** load_state's loop: eight unchanged pages at a time, then one by one. */
    method LoadPages(ghost w: Walk, st: State, ghost f: nat, partial: PageBytes) returns (whole: bool)
      requires Tied() && |st.status| == |st.dirty| == |cells| == |pages| == |w.orig|
      requires Loading(w, group, st, f, partial, 0, 0, NO_RUN, cells, os) && w.g == group
      modifies `pages, `cells, `mirror, `unheldBits, `hotBits, `nhot, `dirtyMap, `statusMap, `groupFree, `os
      ensures Tied() && |w.noted| == |w.goal| == |w.os0| && group > 0
      ensures cells == Settled(w.goal, w.noted) && os == SettledOs(w.goal, w.noted, group, w.os0)
      ensures whole == (f == |w.orig|)
    {
      hide *;
      var run := NO_RUN;
      var i, at, n := 0, 0, |pages|;
      whole := true;
      LoadShape(w, group, st, f, partial, 0, 0, NO_RUN, cells, os);
      while i < n && whole
        invariant Tied() && 0 <= i <= n == |cells| == |w.orig|
        invariant whole ==> Loading(w, group, st, f, partial, i, at, run, cells, os)
        invariant !whole ==> f < |w.orig| && At(w, |w.goal|, run, cells, os)
        decreases n - i, whole
      {
        run, i, at, whole := LoadStep(w, st, f, partial, i, at, run);
      }
      if whole {
        LoadOver(w, group, st, f, partial, at, run, cells, os);
      }
      RunClose(w, run);
    }

    method LoadWalk(st: State, partial: PageBytes) returns (whole: bool)
      requires Tied() && |st.status| == |st.dirty| == |cells| && Settling(cells)
      modifies `pages, `cells, `mirror, `unheldBits, `hotBits, `nhot, `dirtyMap, `statusMap, `groupFree, `os
      ensures Tied() && Abs() == Loaded(old(Abs()), st, partial)
      ensures whole == (FailsFrom(old(cells), st, 0) == |old(cells)|)
    {
      hide Tied, Counted, Count, Loading, FailsFrom, LoadGoal, MovedBelow, Settling, Settled, SettledOs;
      Lengths();
      ghost var f := FailsFrom(cells, st, 0);
      ghost var goal := LoadGoal(cells, st, f, partial);
      ghost var w := Walk(cells, goal, MovedBelow(cells, goal, f), group, os);
      LoadStart(w, group, st, partial);
      whole := LoadPages(w, st, f, partial);
    }

    /** One turn of the loop. */
    method LoadStep(ghost w: Walk, st: State, ghost f: nat, partial: PageBytes, i: nat, at: nat, run: ProtRun)
      returns (run': ProtRun, i': nat, at': nat, whole: bool)
      requires Tied() && i < |cells| == |w.orig| && |st.status| == |st.dirty| == |cells|
      requires Loading(w, group, st, f, partial, i, at, run, cells, os)
      modifies `pages, `cells, `mirror, `unheldBits, `hotBits, `nhot, `dirtyMap, `statusMap, `groupFree, `os
      ensures Tied() && |cells| == |w.orig| && i <= i' <= |cells| && (whole ==> i < i')
      ensures whole ==> Loading(w, group, st, f, partial, i', at', run', cells, os)
      ensures !whole ==> f < |w.orig| && At(w, |w.goal|, run', cells, os)
    {
      hide Tied, Counted, Count, Loading, FailsFrom, LoadGoal, MovedBelow, Settling, At, FailedCell;
      Lengths();
      LoadLength(w, group, st, f, partial, i, at, run, cells, os);
      var step := SkipSame(st, i);
      if step > 0 {
        LoadSkips(w, group, st, f, partial, i, i + step, at, run, cells, os);
        return run, i + step, at, true;
      }
      LoadReads(w, group, st, f, partial, i, at, run, cells, os);
      var p := PageAt(i);
      if st.dirty[i] && !p.invisible && |st.data| <= at {
        ghost var before := cells;
        FailPage(i, partial);
        LoadFailed(w, group, st, f, partial, at, run, before, cells, os);
        return run, i, at, false;
      }
      run', at' := LoadNext(w, st, f, partial, i, at, run);
      LoadLength(w, group, st, f, partial, i + 1, at', run', cells, os);
      return run', i + 1, at', true;
    }

    /** What a load does before it reads a page: the plan it would spoil is
        finished, and the epoch it makes meaningless forgotten. */
    method GetReady()
      requires Valid()
      modifies `pages, `cells, `unheldBits, `os, `planActive, `planStatus, `planDirty, `planList, `planDest,
               `epochBits, `statBits, `epochNdirty, `epochNstat, `epochActive, `epochNo
      ensures Valid() && Abs() == Readied(old(Abs())) && !planActive && |cells| == |old(cells)|
    {
      hide Tied, Counted, Count, BaseOk, Sorted, Watched, Tight, Enrolled, CellsOk, PlanShaped, Quiet, TakeIn, Listed,
           FinishPlan, EpochClear;
      ReadiedLength(Abs());
      if planActive {
        var e, st := PlanFinish();
      }
      ClearEpoch();
      ReadiedIdle(old(Abs()));
    }

    /** mb_block_load_state. `sameMachine` says the stream's magic, hash and
        range are this block's; `partial` is what a page holds when the stream
        ends inside it. */
    method Load(sameMachine: bool, st: State, partial: PageBytes) returns (e: Errno)
      requires Valid()
      modifies this
      ensures Tied() && base == old(base) && sealed == old(sealed)
      ensures var ready := Readied(old(Abs()));
              if !sealed then e == EINVAL && Valid() && Abs() == old(Abs())
              else if !sameMachine || |st.status| != |old(cells)| || |st.dirty| != |old(cells)|
              then e == EINVAL && Valid() && Abs() == ready
              else
                && Abs() == Loaded(ready, st, partial) && e == (if FailsFrom(ready.cells, st, 0) == |ready.cells| then Ok else EIO)
                && (e == Ok && Describes(ready.cells, st, base) ==> (Valid() <==> !LoadOpens(ready, st, |ready.cells|)))
                && (group == 1 && e == Ok ==> !LoadOpens(ready, st, |ready.cells|))
      ensures sealed ==> EpochOver(Abs()) && !planActive
    {
      hide Tied, Counted, Count, BaseOk, Sorted, Watched, Tight, Enrolled, CellsOk, PlanShaped, Quiet, Readied, Loaded,
           FailsFrom, Settling, Describes, LoadOpens, EpochOver;
      Lengths();
      if !sealed { return EINVAL; }
      ReadiedEnds(Abs());
      ReadiedLength(Abs());
      GetReady();
      Lengths();
      if !sameMachine || |st.status| != |pages| || |st.dirty| != |pages| { return EINVAL; }
      ghost var ready := Abs();
      LoadEnds(ready, st, partial);
      CoherentLoads(ready, base);
      LoadedValid(ready, base, st, partial);
      var whole := LoadWalk(st, partial);
      return if whole then Ok else EIO;
    }

    // ---- applying a delta ----

    /** A page's protection compared with what it was, and noted if it moved. */
    method NoteIfMoved(ghost w: Walk, ghost before: seq<Cell>, i: nat, was: Prot, run: ProtRun) returns (next: ProtRun)
      requires Tied() && w.g == group && At(w, i, run, before, os) && i < |w.goal| == |before| == |w.orig| == |w.noted|
      requires cells == before[i := w.goal[i]] && was == NativeProt(w.orig[i].p) && w.noted[i] == Moved(w.orig, w.goal, i)
      modifies `pages, `cells, `unheldBits, `os
      ensures Tied() && At(w, i + 1, next, cells, os) && |cells| == |before|
    {
      hide Tied, Counted, Count, At;
      var now := ProtAt(i);
      if now != was {
        next := RunNote(w, before, i, run);
        AtLength(w, i + 1, next, cells, os);
      } else {
        Advance(w, i, i + 1, run, before, cells, os);
        next := run;
      }
    }

    /** delta_apply's first loop. */
    method ApplyStatus(list: seq<Entry<Status>>, ghost w: Walk)
      requires Tied() && Entries(w, group, PagesOf(list)) && At(w, 0, NO_RUN, cells, os) && |cells| == |w.orig|
      requires forall k | 0 <= k < |list| ::
                 && list[k].page < |w.orig| == |w.goal| == |w.noted| && w.noted[list[k].page] == Moved(w.orig, w.goal, list[k].page)
                 && w.goal[list[k].page] == Pages.NoteStatus(w.orig[list[k].page], list[k].val)
      modifies `pages, `cells, `unheldBits, `hotBits, `nhot, `statusMap, `groupFree, `os
      ensures Tied() && |w.goal| == |w.noted| == |w.os0| && group > 0
      ensures cells == Settled(w.goal, w.noted) && os == SettledOs(w.goal, w.noted, group, w.os0)
    {
      hide *;
      var run := NO_RUN;
      var k := 0;
      ghost var pages := PagesOf(list);
      AfterNone(pages);
      EntryShape(w, group, pages);
      while k < |list|
        invariant Tied() && 0 <= k <= |list| && |cells| == |w.orig| && At(w, AfterListed(pages, k), run, cells, os)
      {
        var i, s := list[k].page, list[k].val;
        EntrySkip(w, group, pages, k, run, cells, os);
        AfterOne(pages, k);
        ghost var before := cells;
        var was := ProtAt(i);
        NoteStatus(i, s);
        run := NoteIfMoved(w, before, i, was, run);
        k := k + 1;
      }
      EntryEnd(w, group, pages, run, cells, os);
      RunClose(w, run);
    }

    /** A delta's bytes for one page, its baseline copied first. */
    method PatchPage(i: nat, clean: bool, bytes: PageBytes)
      requires Tied() && i < |cells|
      modifies `pages, `cells, `mirror, `unheldBits, `hotBits, `nhot, `dirtyMap
      ensures Tied() && cells == old(cells)[i := PatchedCell(old(cells[i]), clean, bytes)]
    {
      hide Tied, Counted, Count;
      MaybeSnapshot(i);
      PutBytes(i, bytes);
      var p := PageAt(i);
      if clean && !p.invisible {
        SetDirty(i, false);
      } else {
        SetDirty(i, true);
        p := PageAt(i);
        if p.hot {
          PutPage(i, p.(shadow := Some(bytes)));
        }
      }
    }

    /** delta_apply's second loop. */
    method ApplyData(list: seq<Entry<Change>>, ghost w: Walk)
      requires Tied() && Entries(w, group, PagesOf(list)) && At(w, 0, NO_RUN, cells, os) && |cells| == |w.orig|
      requires forall k | 0 <= k < |list| ::
                 && list[k].page < |w.orig| == |w.goal| == |w.noted| && w.noted[list[k].page] == Moved(w.orig, w.goal, list[k].page)
                 && w.goal[list[k].page] == PatchedCell(w.orig[list[k].page], list[k].val.clean, list[k].val.bytes)
      modifies `pages, `cells, `mirror, `unheldBits, `hotBits, `nhot, `dirtyMap, `os
      ensures Tied() && |w.goal| == |w.noted| == |w.os0| && group > 0
      ensures cells == Settled(w.goal, w.noted) && os == SettledOs(w.goal, w.noted, group, w.os0)
    {
      hide *;
      var run := NO_RUN;
      var k := 0;
      ghost var pages := PagesOf(list);
      AfterNone(pages);
      EntryShape(w, group, pages);
      while k < |list|
        invariant Tied() && 0 <= k <= |list| && |cells| == |w.orig| && At(w, AfterListed(pages, k), run, cells, os)
      {
        var i, ch := list[k].page, list[k].val;
        EntrySkip(w, group, pages, k, run, cells, os);
        AfterOne(pages, k);
        ghost var before := cells;
        var was := ProtAt(i);
        PatchPage(i, ch.clean, ch.bytes);
        run := NoteIfMoved(w, before, i, was, run);
        k := k + 1;
      }
      EntryEnd(w, group, pages, run, cells, os);
      RunClose(w, run);
    }

    method StatusPass(ghost d: Delta, status: seq<Entry<Status>>)
      requires Tied() && d.npages == |cells| && d.status == status && WellFormed(d)
      modifies `pages, `cells, `unheldBits, `hotBits, `nhot, `statusMap, `groupFree, `os
      ensures Tied() && Abs() == Swept(old(Abs()), Restatused(old(cells), d))
    {
      hide Tied, Counted, Count, At, Entries, Settled, SettledOs, MovedBelow, PagesOf, Find, Swept, Moved, Ascending;
      Lengths();
      ghost var m := Abs();
      StatusEntries(m, d);
      ApplyStatus(status, StatusWalk(m, d));
    }

    method DataPass(ghost d: Delta, data: seq<Entry<Change>>)
      requires Tied() && d.npages == |cells| && d.data == data && WellFormed(d)
      modifies `pages, `cells, `mirror, `unheldBits, `hotBits, `nhot, `dirtyMap, `os
      ensures Tied() && Abs() == Swept(old(Abs()), Patched(old(cells), d))
    {
      hide Tied, Counted, Count, At, Entries, Settled, SettledOs, MovedBelow, PagesOf, Find, Swept, Moved,
           Ascending, PatchedCell;
      Lengths();
      ghost var m := Abs();
      DataEntries(m, d);
      ApplyData(data, DataWalk(m, d));
    }

    /** Both loops on a delta that names pages of the block alone. */
    method ApplyLists(ghost d: Delta, status: seq<Entry<Status>>, data: seq<Entry<Change>>)
      requires Tied() && d == Delta(|cells|, status, data) && WellFormed(d)
      modifies `pages, `cells, `mirror, `unheldBits, `hotBits, `nhot, `dirtyMap, `statusMap, `groupFree, `os,
               `epochBits, `statBits, `epochNdirty, `epochNstat, `epochActive, `epochNo
      ensures Tied() && Abs() == ApplyDelta(old(Abs()), d)
    {
      hide Tied, Counted, Count, Find, PatchedCell, Forgotten, Refreshed, Moved, GroupMoved, GroupProt, WellFormed;
      StatusPass(d, status);
      DataPass(d, data);
      EpochForget();
      PutEpoch(false, epochNo);
    }

    /** mb_block_delta_apply on the entries its stream holds. A stream that ends
        early is `complete == false` and the entries that arrived, the page it
        ended in among them as one not clean. */
    method DeltaApply(npages: nat, status: seq<Entry<Status>>, data: seq<Entry<Change>>, complete: bool) returns (e: Errno)
      requires Valid() && Ascending(status) && Ascending(data)
      modifies `pages, `cells, `mirror, `unheldBits, `hotBits, `nhot, `dirtyMap, `statusMap, `groupFree, `os,
               `epochBits, `statBits, `epochNdirty, `epochNstat, `epochActive, `epochNo
      ensures Tied()
      ensures if !sealed || npages != |old(cells)| then e == EINVAL && Abs() == old(Abs())
              else
                && Abs() == ApplyDelta(old(Abs()), Applicable(status, data, npages))
                && e == (if !Within(status, npages) || !Within(data, npages) then EINVAL else if complete then Ok else EIO)
                && (e != EINVAL ==> Abs() == ApplyDelta(old(Abs()), Delta(npages, status, data)))
                && (LeadsToSound(old(Abs()), Applicable(status, data, npages), base) ==>
                      (Valid() <==> !ApplyOpens(old(Abs()), Applicable(status, data, npages))))
                && (group == 1 ==> !ApplyOpens(old(Abs()), Applicable(status, data, npages)))
                && EpochOver(Abs())
    {
      hide Tied, Counted, Count, BaseOk, Sorted, Watched, Tight, Enrolled, CellsOk, PlanShaped, Quiet, ApplyDelta, Ascending,
           ViewsOk, ApplyView, ViewOfMachine, ApplyOpens, EpochOver;
      Lengths();
      if !sealed || npages != |pages| { return EINVAL; }
      var ks, kd := LeadIn(status, npages), LeadIn(data, npages);
      LeadInAll(status, npages);
      LeadInAll(data, npages);
      ghost var d := Applicable(status, data, npages);
      AppliedValid(Abs(), base, d);
      ApplyEnds(Abs(), d);
      if Within(status, npages) && Within(data, npages) { ApplicableAll(status, data, npages); }
      ApplyLists(d, status[..ks], if ks < |status| then [] else data[..kd]);
      return if ks < |status| || kd < |data| then EINVAL else if complete then Ok else EIO;
    }

    // ---- boot and seal ----

    /** mb_block_new: every page free, reading zero, and nothing mapped. */
    constructor (start: nat, npages: nat, hostGroup: nat)
      requires start % PAGESIZE == 0 && hostGroup > 0
      ensures Valid() && !sealed && addr == start && group == hostGroup && Abs() == NewMachine(npages, hostGroup)
    {
      addr, group := start, hostGroup;
      sealed, epochActive, epochNo, planActive := false, false, 0, false;
      nhot, epochNdirty, epochNstat := 0, 0, 0;
      unveiled := false;
      planStatus, planDirty, planList, planDest := [], [], [], [];
      pages := seq(npages, _ => FRESH_PAGE);
      var zeros: PageBytes := Zeros();
      mirror := seq(npages, _ => zeros);
      os := seq(npages, _ => NoAccess);
      statusMap := seq(npages, _ => StFree);
      var none := seq(npages, _ => false);
      dirtyMap, epochBits, statBits, unheldBits, hotBits := none, none, none, none, none;
      var counts := FreshCounts(npages);
      groupFree := counts;
      cells, base := NewMachine(npages, hostGroup).cells, ZeroImage(npages);
      CountNothing(none);
      NewIsSound(npages, hostGroup);
      new;
      assert forall i | 0 <= i < npages :: PageTied(i);
      assert os == NewMachine(npages, hostGroup).os;
    }

    /** copy_from_external, the loader filling whole pages it has mapped. */
    method CopyIn(start: nat, content: seq<PageBytes>) returns (e: Errno)
      requires Valid() && !sealed && start % PAGESIZE == 0
      requires var r := PageRange(addr, |cells|, start, |content| * PAGESIZE);
               r.Some? ==> AllTaken(cells, r.value.0, r.value.0 + r.value.1)
      modifies `pages, `cells, `mirror, `planDest, `unheldBits, `hotBits, `nhot, `dirtyMap
      ensures Valid() && |cells| == |old(cells)|
      ensures var r := PageRange(addr, |old(cells)|, start, |content| * PAGESIZE);
              if r == None then e == EINVAL && Abs() == old(Abs())
              else
                && e == Ok && r.value.1 == |content|
                && forall k | 0 <= k < |cells| ::
                     cells[k] == if r.value.0 <= k < r.value.0 + |content| then Poked(old(cells[k]), content[k - r.value.0]) else old(cells[k])
      ensures e == Ok ==> var lo := PageRange(addr, |cells|, start, |content| * PAGESIZE).value.0;
                          lo + |content| <= |cells|
                          && forall k | 0 <= k < |content| :: cells[lo + k].mem == content[k] && cells[lo + k].p.dirty
    {
      var r := PageRange(addr, |pages|, start, |content| * PAGESIZE);
      if r == None { return EINVAL; }
      FillPages(r.value.0, content);
      return Ok;
    }

    method FillPages(first: nat, content: seq<PageBytes>)
      requires Valid() && !sealed && first + |content| <= |cells| && AllTaken(cells, first, first + |content|)
      modifies `pages, `cells, `mirror, `planDest, `unheldBits, `hotBits, `nhot, `dirtyMap
      ensures Valid() && |cells| == |old(cells)|
      ensures forall k | 0 <= k < |cells| ::
                cells[k] == if first <= k < first + |content| then Poked(old(cells[k]), content[k - first]) else old(cells[k])
    {
      hide Tied, Counted, Count, BaseOk, Sorted, Watched, Tight, Enrolled, CellsOk, PlanShaped, Quiet, Poked;
      ghost var m := Abs();
      var i := 0;
      while i < |content|
        invariant Valid() && 0 <= i <= |content| && |cells| == |m.cells|
        invariant forall k | 0 <= k < |cells| ::
                    cells[k] == if first <= k < first + i then Poked(m.cells[k], content[k - first]) else m.cells[k]
      {
        PokeOne(first + i, content[i]);
        i := i + 1;
      }
    }

    method FillPoked(i: nat, bytes: PageBytes)
      requires Tied() && i < |cells| && cells[i].p.planHold == Clear
      modifies `pages, `cells, `mirror, `planDest, `unheldBits, `hotBits, `nhot, `dirtyMap
      ensures Tied() && planDest == old(planDest) && cells == old(cells)[i := Poked(old(cells[i]), bytes)]
    {
      hide Tied, Counted, Count, Cool;
      ghost var c := cells[i];
      PlanTake(i);
      assert cells == old(cells)[i := c];
      SetDirty(i, true);
      PageCool(i);
      assert cells == old(cells)[i := Cool(Pages.SetDirty(c, true))];
      PutBytes(i, bytes);
    }

    method PokeOne(i: nat, bytes: PageBytes)
      requires Valid() && !sealed && i < |cells| && cells[i].p.status != StFree
      modifies `pages, `cells, `mirror, `planDest, `unheldBits, `hotBits, `nhot, `dirtyMap
      ensures Valid() && Abs() == Poke(old(Abs()), i, bytes) && cells == old(cells)[i := Poked(old(cells[i]), bytes)]
    {
      hide Tied, Counted, Count, BaseOk, Sorted, Watched, Tight, Enrolled, CellsOk, PlanShaped, Poked, Quiet;
      ghost var m := Abs();
      BaseLength(m, sealed, base);
      PokeKeeps(m, i, bytes);
      PokeHolds(m, i, bytes);
      FillPoked(i, bytes);
    }

    /** mark_invisible_impl. No page is hot before a first epoch. */
    method MarkInvisible(start: nat, size: nat) returns (e: Errno)
      requires Valid()
      modifies `pages, `cells, `unheldBits, `hotBits, `nhot, `dirtyMap, `os
      ensures var r := PageRange(addr, |old(cells)|, start, size);
              if sealed || r == None then e == EINVAL && Abs() == old(Abs()) && Valid()
              else
                && e == Ok && Abs() == Hide(old(Abs()), r.value.0, r.value.0 + r.value.1)
                && Hid(old(cells), cells, r.value.0, r.value.0 + r.value.1)
                && (Valid() <==> NoneHotIn(old(cells), r.value.0, r.value.0 + r.value.1))
    {
      hide Tied, Counted, Count, BaseOk, Sorted, Watched, Tight, Enrolled, CellsOk, PlanShaped, Quiet, Hide, NoneHotIn, Hid;
      Lengths();
      if sealed { return EINVAL; }
      var r := PageRange(addr, |pages|, start, size);
      if r == None { return EINVAL; }
      var lo, hi := r.value.0, r.value.0 + r.value.1;
      ghost var m := Abs();
      BaseLength(m, sealed, base);
      HideKeeps(m, lo, hi);
      HideQuiet(m, lo, hi);
      HideGives(m, lo, hi);
      HideRange(lo, hi);
      return Ok;
    }

    method HideRange(lo: nat, hi: nat)
      requires Tied() && lo < hi <= |cells|
      modifies `pages, `cells, `unheldBits, `hotBits, `nhot, `dirtyMap, `os
      ensures Tied() && Abs() == Hide(old(Abs()), lo, hi)
    {
      hide Tied, Counted, Count, RefreshOs;
      Lengths();
      ghost var m := Abs();
      var i := lo;
      while i < hi
        invariant Tied() && os == m.os && lo <= i <= hi <= |cells| == |m.cells|
        invariant forall k | 0 <= k < |cells| :: cells[k] == if lo <= k < i then MadeInvisible(m.cells[k]) else m.cells[k]
      {
        SetDirty(i, true);
        var p := PageAt(i);
        PutPage(i, p.(invisible := true));
        i := i + 1;
        Lengths();
      }
      ghost var mid := cells;
      RefreshRange(lo, hi);
      assert cells == Hide(m, lo, hi).cells;
    }

    /** page_reads_back_zero */
    method ReadsBackZero(i: nat) returns (zero: bool)
      requires Tied() && i < |cells|
      ensures zero <==> cells[i].mem == Zeros()
    {
      hide Tied;
      var bytes := BytesAt(i);
      var k := 0;
      while k < PAGESIZE
        invariant 0 <= k <= PAGESIZE && forall j | 0 <= j < k :: bytes[j] == 0
      {
        if bytes[k] != 0 {
          assert Zeros()[k] == 0;
          return false;
        }
        k := k + 1;
      }
      return true;
    }

    /** seal_impl on one page, but for the refresh. */
    method SealPage(i: nat)
      requires Tied() && i < |cells|
      modifies `pages, `cells, `unheldBits, `hotBits, `nhot, `dirtyMap
      ensures Tied() && cells == old(cells)[i := Sealing(old(cells[i]))]
    {
      hide Tied, Counted, Count, Cool;
      var p := PageAt(i);
      ghost var c := cells[i];
      assert cells == cells[i := c];
      if p.dirty && !p.invisible {
        PageCool(i);
        SetDirty(i, false);
        assert cells == old(cells)[i := Pages.SetDirty(Cool(c), false)];
        p := PageAt(i);
        var zero := ReadsBackZero(i);
        PutPage(i, p.(snap := if zero then ZeroSnap else NoSnap));
      }
    }

    /** Every page sealed and refreshed. */
    method SealPages()
      requires Tied()
      modifies `pages, `cells, `unheldBits, `hotBits, `nhot, `dirtyMap, `os
      ensures Tied() && |cells| == |old(cells)| && |old(os)| == |old(cells)|
      ensures forall k | 0 <= k < |cells| :: cells[k] == Refreshed(Sealing(old(cells[k])))
      ensures os == RefreshOs(cells, group, old(os), 0, |cells|)
    {
      hide Tied, Counted, Count, RefreshOs, Sealing, Refreshed;
      Lengths();
      ghost var was := cells;
      var i := 0;
      while i < |pages|
        invariant Tied() && os == old(os) && 0 <= i <= |pages| == |cells| == |was|
        invariant forall k | 0 <= k < |cells| :: cells[k] == if k < i then Sealing(was[k]) else was[k]
      {
        SealPage(i);
        i := i + 1;
        Lengths();
      }
      if |pages| > 0 {
        RefreshRange(0, |pages|);
      } else {
        RefreshNone(cells, group, os);
      }
    }

    /** seal_impl, but for the hash: what every visible page holds is from here
        its baseline. */
    method SealBlock() returns (e: Errno)
      requires Valid()
      modifies `pages, `cells, `unheldBits, `hotBits, `nhot, `dirtyMap, `os, `epochBits, `statBits, `epochNdirty, `epochNstat,
               `epochActive, `epochNo, `sealed, `base
      ensures Valid() && sealed && e == (if old(sealed) then EINVAL else Ok)
      ensures e == EINVAL ==> Abs() == old(Abs()) && base == old(base)
      ensures e == Ok ==> Abs() == Seal(old(Abs())) && base == Image(old(Abs()))
      ensures e == Ok ==> SealedOver(old(cells), cells) && EpochOver(Abs())
    {
      hide Tied, Counted, Count, BaseOk, Sorted, Watched, Tight, Enrolled, CellsOk, PlanShaped, Quiet, Sealing, Refreshed, RefreshOs, Image, Seal,
           SealedOver, EpochOver;
      if sealed { return EINVAL; }
      ghost var m := Abs();
      BaseLength(m, sealed, base);
      SealEstablishes(m);
      SealQuiet(m);
      SealGives(m);
      SealEnds(m);
      EpochForget();
      PutEpoch(false, epochNo);
      SealPages();
      SealedIs(m, cells, os);
      PutSealed(Image(m));
      return Ok;
    }

    method PutSealed(ghost image: seq<PageBytes>)
      requires Tied()
      modifies `sealed, `base
      ensures Tied() && sealed && base == image && BaseOk(sealed, base)
    {
      hide Count, Counted;
      sealed, base := true, image;

    }
  }
}
