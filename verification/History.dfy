/** The whole history: a run cut into frames, an anchor state, and one delta a
    frame - put back in any machine of the same seal, with any neighbouring
    deltas composed first. */
module History {
  import opened Pages
  import opened Machine
  import opened Deltas
  import opened Invariant
  import opened Restore
  import opened Runs
  import opened Epochs
  import opened Orphans

  type Frame = seq<Step>

  ghost function FrameEnd(m: Machine, f: Frame): (r: Machine)
    requires Shaped(m) && Frameable(EpochBegin(m), f)
    ensures Shaped(r)
  {
    SaveDelta(Run(EpochBegin(m), f)).0
  }

  ghost function FrameDelta(m: Machine, f: Frame): (d: Delta)
    requires Shaped(m) && Frameable(EpochBegin(m), f)
    ensures WellFormed(d)
  {
    SaveDelta(Run(EpochBegin(m), f)).1
  }

  /** Each frame opens an epoch on a machine without orphans, runs, and saves
      its delta. */
  ghost predicate Played(m: Machine, frames: seq<Frame>)
    requires Shaped(m)
    decreases |frames|
  {
    frames == [] ||
    (NoOrphans(m) && Frameable(EpochBegin(m), frames[0]) && Played(FrameEnd(m, frames[0]), frames[1..]))
  }

  ghost function End(m: Machine, frames: seq<Frame>): (r: Machine)
    requires Shaped(m) && Played(m, frames)
    ensures Shaped(r)
    decreases |frames|
  {
    if frames == [] then m else End(FrameEnd(m, frames[0]), frames[1..])
  }

  ghost function Taken(m: Machine, frames: seq<Frame>): (ds: seq<Delta>)
    requires Shaped(m) && Played(m, frames)
    ensures |ds| == |frames| && forall k | 0 <= k < |ds| :: WellFormed(ds[k])
    decreases |frames|
  {
    if frames == [] then [] else [FrameDelta(m, frames[0])] + Taken(FrameEnd(m, frames[0]), frames[1..])
  }

  ghost function ApplyAll(m: Machine, ds: seq<Delta>): (r: Machine)
    requires Shaped(m)
    ensures Shaped(r)
    decreases |ds|
  {
    if ds == [] then m else ApplyAll(ApplyDelta(m, ds[0]), ds[1..])
  }

  function ViewAfter(v: seq<PageView>, ds: seq<Delta>): (r: seq<PageView>)
    decreases |ds|
  {
    if ds == [] then v else ViewAfter(ApplyView(v, ds[0]), ds[1..])
  }

  lemma {:induction false} ApplyAllShows(m: Machine, ds: seq<Delta>)
    requires Shaped(m)
    ensures ViewOfMachine(ApplyAll(m, ds)) == ViewAfter(ViewOfMachine(m), ds)
    decreases |ds|
  {
    if ds != [] {
      ApplyShows(m, ds[0]);
      ApplyAllShows(ApplyDelta(m, ds[0]), ds[1..]);
    }
  }

  /** One frame: its delta takes the view it opens on to the one it ends with. */
  lemma FrameShows(m: Machine, base: seq<PageBytes>, f: Frame)
    requires Inv(m, base) && NoOrphans(m) && Frameable(EpochBegin(m), f)
    ensures ApplyView(ViewOfMachine(m), FrameDelta(m, f)) == ViewOfMachine(FrameEnd(m, f))
  {
    hide Run, CanRun, SaveDelta, CellsOk, Watched, Tight, PlanOk, ApplyView, NoOrphans;
    var start := EpochBegin(m);
    BeginKeeps(m, base);
    BeginTrue(m, base);
    RunKeeps(start, base, f);
    RunAccounts(start, base, ViewOfMachine(m), f);
    BeginSight(m);
    ViewSees(m, Run(start, f).cells);
    DeltaTrue(Run(start, f), base, ViewOfMachine(m));
  }

  /** The deltas of a run, in order, take its first view to its last. */
  lemma {:induction false} DeltasRebuild(m: Machine, base: seq<PageBytes>, frames: seq<Frame>)
    requires Inv(m, base) && Played(m, frames)
    ensures ViewAfter(ViewOfMachine(m), Taken(m, frames)) == ViewOfMachine(End(m, frames))
    ensures Inv(End(m, frames), base)
    decreases |frames|
  {
    hide FrameEnd, FrameDelta, EpochBegin, Frameable, NoOrphans, CellsOk, Watched, Tight, PlanOk, ApplyView, ViewOfMachine;
    if frames != [] {
      var f := frames[0];
      FrameShows(m, base, f);
      FrameKeeps(m, base, f);
      DeltasRebuild(FrameEnd(m, f), base, frames[1..]);
      var ds := Taken(FrameEnd(m, f), frames[1..]);
      assert ([FrameDelta(m, f)] + ds)[1..] == ds;
    }
  }

  // ---- composing neighbours first ----

  /** How a history thinned a stretch of neighbouring deltas: which it composed
      with which, and in what order. */
  datatype Thinned = Kept(d: Delta) | Joined(earlier: Thinned, later: Thinned)

  function Originals(t: Thinned): (ds: seq<Delta>) {
    match t
    case Kept(d) => [d]
    case Joined(a, b) => Originals(a) + Originals(b)
  }

  function ThinnedDelta(t: Thinned): Delta {
    match t
    case Kept(d) => d
    case Joined(a, b) => Compose(ThinnedDelta(a), ThinnedDelta(b))
  }

  function AllOriginals(ts: seq<Thinned>): (ds: seq<Delta>) {
    if ts == [] then [] else Originals(ts[0]) + AllOriginals(ts[1..])
  }

  function AllStored(ts: seq<Thinned>): (ds: seq<Delta>) {
    if ts == [] then [] else [ThinnedDelta(ts[0])] + AllStored(ts[1..])
  }

  /** Deltas of one machine. */
  predicate Alike(ds: seq<Delta>, n: nat) {
    forall k | 0 <= k < |ds| :: WellFormed(ds[k]) && ds[k].npages == n
  }

  lemma {:induction false} ViewAfterConcat(v: seq<PageView>, a: seq<Delta>, b: seq<Delta>)
    ensures ViewAfter(v, a + b) == ViewAfter(ViewAfter(v, a), b)
    decreases |a|
  {
    if a == [] {
      assert a + b == b;
    } else {
      ViewAfterConcat(ApplyView(v, a[0]), a[1..], b);
      assert (a + b)[1..] == a[1..] + b;
    }
  }

  lemma {:induction false} StoredSequences(v: seq<PageView>, t: Thinned, n: nat)
    requires Alike(Originals(t), n)
    ensures WellFormed(ThinnedDelta(t)) && ThinnedDelta(t).npages == n
    ensures ApplyView(v, ThinnedDelta(t)) == ViewAfter(v, Originals(t))
    decreases t
  {
    match t
    case Kept(d) =>
      assert d == Originals(t)[0];
      assert ViewAfter(v, [d]) == ViewAfter(ApplyView(v, d), []);
    case Joined(a, b) =>
      var oa, ob := Originals(a), Originals(b);
      assert forall k | 0 <= k < |oa| :: oa[k] == (oa + ob)[k];
      assert forall k | 0 <= k < |ob| :: ob[k] == (oa + ob)[|oa| + k];
      StoredSequences(v, a, n);
      StoredSequences(ApplyView(v, ThinnedDelta(a)), b, n);
      ComposeWellFormed(ThinnedDelta(a), ThinnedDelta(b));
      ComposeSequences(v, ThinnedDelta(a), ThinnedDelta(b));
      ViewAfterConcat(v, oa, ob);
  }

  lemma {:induction false} ThinningKeeps(v: seq<PageView>, ts: seq<Thinned>, n: nat)
    requires Alike(AllOriginals(ts), n)
    ensures ViewAfter(v, AllStored(ts)) == ViewAfter(v, AllOriginals(ts))
    decreases |ts|
  {
    if ts != [] {
      var o, rest := Originals(ts[0]), AllOriginals(ts[1..]);
      assert forall k | 0 <= k < |o| :: o[k] == (o + rest)[k];
      assert forall k | 0 <= k < |rest| :: rest[k] == (o + rest)[|o| + k];
      StoredSequences(v, ts[0], n);
      ThinningKeeps(ViewAfter(v, o), ts[1..], n);
      ViewAfterConcat(v, o, rest);
      assert ([ThinnedDelta(ts[0])] + AllStored(ts[1..]))[1..] == AllStored(ts[1..]);
    }
  }

  lemma FrameKeeps(m: Machine, base: seq<PageBytes>, f: Frame)
    requires Inv(m, base) && Frameable(EpochBegin(m), f)
    ensures Inv(FrameEnd(m, f), base) && FrameDelta(m, f).npages == |FrameEnd(m, f).cells| == |m.cells|
  {
    hide Run, CanRun, CellsOk, Watched, Tight, PlanOk;
    BeginKeeps(m, base);
    RunKeeps(EpochBegin(m), base, f);
    SaveDeltaKeeps(Run(EpochBegin(m), f), base);
  }

  lemma {:induction false} TakenAlike(m: Machine, base: seq<PageBytes>, frames: seq<Frame>)
    requires Inv(m, base) && Played(m, frames)
    ensures Alike(Taken(m, frames), |m.cells|)
    decreases |frames|
  {
    hide FrameEnd, FrameDelta, EpochBegin, Frameable, NoOrphans, CellsOk, Watched, Tight, PlanOk;
    if frames != [] {
      FrameKeeps(m, base, frames[0]);
      TakenAlike(FrameEnd(m, frames[0]), base, frames[1..]);
    }
  }

  /** The whole-history theorem. For any run from x cut into frames, and any
      machine of the same seal: loading x's state there and applying the deltas
      in order, however neighbouring ones were composed, shows every page as the
      straight run left it. */
  lemma WholeHistory(x: Machine, base: seq<PageBytes>, frames: seq<Frame>, m: Machine, ts: seq<Thinned>)
    requires Inv(x, base) && Played(x, frames)
    requires Sound(m, base) && m.plan.Idle? && SameVisibility(x.cells, m.cells)
    requires AllOriginals(ts) == Taken(x, frames)
    ensures Fits(m.cells, SaveState(x))
    ensures ViewOfMachine(ApplyAll(LoadState(m, SaveState(x)), AllStored(ts))) == ViewOfMachine(End(x, frames))
  {
    StateRoundTrip(x, m, base);
    var anchor := LoadState(m, SaveState(x));
    ApplyAllShows(anchor, AllStored(ts));
    TakenAlike(x, base, frames);
    ThinningKeeps(ViewOfMachine(x), ts, |x.cells|);
    DeltasRebuild(x, base, frames);
  }

  // ---- runs of careful steps ----

  /** Frame after frame of careful steps. */
  ghost predicate PlayedCarefully(m: Machine, frames: seq<Frame>)
    requires Shaped(m)
    decreases |frames|
  {
    frames == [] ||
    (Frameable(EpochBegin(m), frames[0]) && AllCareful(EpochBegin(m), frames[0]) && PlayedCarefully(FrameEnd(m, frames[0]), frames[1..]))
  }

  lemma FrameCareful(m: Machine, base: seq<PageBytes>, f: Frame)
    requires Inv(m, base) && NoOrphans(m) && Frameable(EpochBegin(m), f) && AllCareful(EpochBegin(m), f)
    ensures NoOrphans(FrameEnd(m, f))
  {
    hide EpochBegin, SaveDelta, Run, CanRun, CellsOk, Watched, Tight, PlanOk, NoOrphans, AllCareful;
    BeginKeeps(m, base);
    CarefulExactly(m, base, OpenEpoch);
    var r := Run(EpochBegin(m), f);
    RunKeeps(EpochBegin(m), base, f);
    RunOrphans(EpochBegin(m), base, f);
    BeginTrue(m, base);
    RunAccounts(EpochBegin(m), base, ViewOfMachine(m), f);
    CarefulExactly(r, base, EmitDelta);
  }

  /** A run that starts with no orphan and takes only careful steps never has
      one at the start of a frame. */
  lemma {:induction false} CarefullyPlayed(m: Machine, base: seq<PageBytes>, frames: seq<Frame>)
    requires Inv(m, base) && NoOrphans(m) && PlayedCarefully(m, frames)
    ensures Played(m, frames) && NoOrphans(End(m, frames))
    decreases |frames|
  {
    hide FrameEnd, EpochBegin, Frameable, NoOrphans, AllCareful, CellsOk, Watched, Tight, PlanOk;
    if frames != [] {
      FrameCareful(m, base, frames[0]);
      FrameKeeps(m, base, frames[0]);
      CarefullyPlayed(FrameEnd(m, frames[0]), base, frames[1..]);
    }
  }

  /** The whole-history theorem for a run that starts with no orphan, as after a
      seal, and takes only careful steps. */
  lemma CarefulHistory(x: Machine, base: seq<PageBytes>, frames: seq<Frame>, m: Machine, ts: seq<Thinned>)
    requires Inv(x, base) && NoOrphans(x) && PlayedCarefully(x, frames)
    requires Sound(m, base) && m.plan.Idle? && SameVisibility(x.cells, m.cells)
    requires Played(x, frames) ==> AllOriginals(ts) == Taken(x, frames)
    ensures Played(x, frames) && Fits(m.cells, SaveState(x))
    ensures ViewOfMachine(ApplyAll(LoadState(m, SaveState(x)), AllStored(ts))) == ViewOfMachine(End(x, frames))
  {
    hide Played, PlayedCarefully, Taken, End, LoadState, SaveState, CellsOk, PlanOk, Watched, Tight, Fits;
    CarefullyPlayed(x, base, frames);
    WholeHistory(x, base, frames, m, ts);
  }

  // ---- going on from a rebuilt frame ----

  /** A run cut in two. */
  lemma {:induction false} SplitPlayed(m: Machine, frames: seq<Frame>, n: nat)
    requires Shaped(m) && Played(m, frames) && n <= |frames|
    ensures Played(m, frames[..n]) && Played(End(m, frames[..n]), frames[n..])
    ensures Taken(m, frames) == Taken(m, frames[..n]) + Taken(End(m, frames[..n]), frames[n..])
    ensures End(m, frames) == End(End(m, frames[..n]), frames[n..])
    decreases n
  {
    hide FrameEnd, FrameDelta, NoOrphans, Frameable, EpochBegin;
    if n == 0 {
      assert frames[..0] == [] && frames[0..] == frames;
    } else {
      var next, rest := FrameEnd(m, frames[0]), frames[1..];
      SplitPlayed(next, rest, n - 1);
      assert frames[..n] == [frames[0]] + rest[..n - 1] && frames[n..] == rest[n - 1..];
      assert frames[..n][1..] == rest[..n - 1];
    }
  }

  /** No delta of the list opens a host page when its turn comes. */
  ghost predicate StaysShut(m: Machine, ds: seq<Delta>)
    requires Shaped(m)
    decreases |ds|
  {
    ds == [] || (!ApplyOpens(m, ds[0]) && StaysShut(ApplyDelta(m, ds[0]), ds[1..]))
  }

  ghost predicate AlwaysWatched(m: Machine, ds: seq<Delta>)
    requires Shaped(m)
    decreases |ds|
  {
    Watched(m) && (ds == [] || AlwaysWatched(ApplyDelta(m, ds[0]), ds[1..]))
  }

  /** What putting deltas back, one after the other, leaves. */
  ghost predicate PutBack(m: Machine, ds: seq<Delta>, base: seq<PageBytes>)
    requires Shaped(m)
  {
    var r := ApplyAll(m, ds);
    && Sound(r, base) && r.plan.Idle? && (NoOrphans(m) ==> NoOrphans(r))
    && (Inv(m, base) ==> (AlwaysWatched(m, ds) <==> StaysShut(m, ds)) && (AlwaysWatched(m, ds) ==> Inv(r, base)))
    && (Inv(m, base) && m.group == 1 ==> StaysShut(m, ds))
    && (Inv(m, base) && Enrolled(m) && AlwaysWatched(m, ds) ==> Enrolled(r))
  }

  lemma PutBackNone(m: Machine, base: seq<PageBytes>)
    requires Sound(m, base) && m.plan.Idle?
    ensures PutBack(m, [], base)
  {
  }

  lemma PutBackMore(m: Machine, d: Delta, ds: seq<Delta>, base: seq<PageBytes>)
    requires Sound(m, base) && m.plan.Idle? && ViewsOk(ApplyView(ViewOfMachine(m), d), base)
    requires Sound(ApplyDelta(m, d), base) && PutBack(ApplyDelta(m, d), ds, base)
    ensures PutBack(m, [d] + ds, base)
  {
    hide ApplyDelta, Watched, Tight, CellsOk, PlanOk, ApplyOpens, Enrolled, NoOrphans, ViewsOk, ApplyView;
    var n, all := ApplyDelta(m, d), [d] + ds;
    assert all[0] == d && all[1..] == ds;
    ApplyPlan(m, d);
    if NoOrphans(m) { ApplyNoOrphans(m, base, d); }
    AlwaysStarts(n, ds);
    if Inv(m, base) { ApplyWatched(m, base, d); }
    assert ApplyAll(m, all) == ApplyAll(n, ds);
    assert StaysShut(m, all) <==> !ApplyOpens(m, d) && StaysShut(n, ds);
    assert AlwaysWatched(m, all) <==> Watched(m) && AlwaysWatched(n, ds);
  }

  lemma ApplyPlan(m: Machine, d: Delta)
    requires Shaped(m)
    ensures ApplyDelta(m, d).plan == m.plan && ApplyDelta(m, d).group == m.group && |ApplyDelta(m, d).cells| == |m.cells|
  {
  }

  /** Deltas put back, however neighbouring ones were composed. */
  lemma {:induction false} PutBackAll(x: Machine, base: seq<PageBytes>, frames: seq<Frame>, m: Machine, ts: seq<Thinned>)
    requires Inv(x, base) && Played(x, frames) && AllOriginals(ts) == Taken(x, frames)
    requires Sound(m, base) && m.plan.Idle? && ViewOfMachine(m) == ViewOfMachine(x)
    ensures PutBack(m, AllStored(ts), base)
    decreases |ts|
  {
    hide ApplyDelta, Watched, Tight, CellOk, PlanOk, ApplyView, PutBack, Originals, ThinnedDelta, Taken, Played, End, SaveState;
    if ts == [] {
      PutBackNone(m, base);
    } else {
      var o, rest, d := Originals(ts[0]), AllOriginals(ts[1..]), ThinnedDelta(ts[0]);
      var n := |o|;
      assert |Taken(x, frames)| == |frames|;
      SplitPlayed(x, frames, n);
      var next := End(x, frames[..n]);
      assert Taken(x, frames[..n]) == o && Taken(next, frames[n..]) == rest by {
        assert (Taken(x, frames[..n]) + Taken(next, frames[n..]))[..n] == Taken(x, frames[..n]);
        assert (Taken(x, frames[..n]) + Taken(next, frames[n..]))[n..] == Taken(next, frames[n..]);
        assert (o + rest)[..n] == o && (o + rest)[n..] == rest;
      }
      TakenAlike(x, base, frames[..n]);
      StoredSequences(ViewOfMachine(x), ts[0], |x.cells|);
      DeltasRebuild(x, base, frames[..n]);
      assert ApplyView(ViewOfMachine(m), d) == ViewOfMachine(next);
      SavedFits(next, next, base);
      ApplySound(m, base, d);
      ApplyShows(m, d);
      ApplyPlan(m, d);
      PutBackAll(next, base, frames[n..], ApplyDelta(m, d), ts[1..]);
      PutBackMore(m, d, AllStored(ts[1..]), base);
    }
  }

  /** A machine rebuilt at a frame can go on: every page of it is anchored and
      coherent, it has no orphan if the machine it was rebuilt in had none, and
      its watch was whole all along exactly when neither the state nor any of
      the deltas opened a host page - which none can where a host page is one
      machine page. */
  lemma RebuiltGoesOn(x: Machine, base: seq<PageBytes>, frames: seq<Frame>, m: Machine, ts: seq<Thinned>)
    requires Inv(x, base) && Played(x, frames)
    requires Inv(m, base) && m.plan.Idle? && SameVisibility(x.cells, m.cells)
    requires AllOriginals(ts) == Taken(x, frames)
    ensures Fits(m.cells, SaveState(x))
    ensures var anchor := LoadState(m, SaveState(x));
            var r := ApplyAll(anchor, AllStored(ts));
            var whole := !LoadOpens(m, SaveState(x), |m.cells|) && StaysShut(anchor, AllStored(ts));
            && Sound(r, base) && r.plan.Idle? && (NoOrphans(m) ==> NoOrphans(r))
            && (AlwaysWatched(anchor, AllStored(ts)) <==> whole) && (whole ==> Inv(r, base))
            && (m.group == 1 ==> whole) && (whole && Enrolled(m) ==> Enrolled(r))
  {
    hide LoadState, Watched, Tight, CellsOk, PlanOk, SaveState, StaysShut, Enrolled, LoadOpens, Taken, Played, Fits, NoOrphans;
    StateRoundTrip(x, m, base);
    var anchor := LoadState(m, SaveState(x));
    LoadPlan(m, SaveState(x));
    LoadWatched(m, base, SaveState(x));
    if NoOrphans(m) { LoadNoOrphans(m, base, SaveState(x)); }
    PutBackAll(x, base, frames, anchor, ts);
    AlwaysStarts(anchor, AllStored(ts));
  }

  lemma AlwaysStarts(m: Machine, ds: seq<Delta>)
    requires Shaped(m)
    ensures AlwaysWatched(m, ds) ==> Watched(m)
  {
  }

  lemma LoadPlan(m: Machine, st: State)
    requires Shaped(m) && Fits(m.cells, st)
    ensures LoadState(m, st).plan == m.plan && LoadState(m, st).group == m.group && |LoadState(m, st).cells| == |m.cells|
    ensures Shaped(LoadState(m, st))
  {
  }
}
