/** Refreshing protections in runs. An operation that walks the pages in order
    notes the ones whose protection it must tell the OS, and tells it a run at a
    time, a run behind the walk; host pages may span several runs. What the OS
    has heard when the walk ends is what it would hear if every host page with a
    noted page were told once, at the end. */
module Sweeps {
  import opened Pages
  import opened Machine

  /** prot_run: the run noted and not yet told. */
  datatype ProtRun = ProtRun(open: bool, start: nat, last: nat)

  const NO_RUN: ProtRun := ProtRun(false, 0, 0)

  predicate InRun(run: ProtRun, j: nat) {
    run.open && run.start <= j <= run.last
  }

  /** Noted, in p's host page, and not yet told when the walk is at page k. */
  ghost predicate Pending(noted: seq<bool>, g: nat, p: nat, k: nat, run: ProtRun)
    requires g > 0
  {
    exists j | 0 <= j < |noted| :: noted[j] && SameGroup(g, p, j) && (j >= k || InRun(run, j))
  }

  ghost predicate GroupNoted(noted: seq<bool>, g: nat, p: nat)
    requires g > 0
  {
    exists j | 0 <= j < |noted| :: noted[j] && SameGroup(g, p, j)
  }

  /** What the walk is to leave: each page as `goal` has it, noted ones refreshed. */
  function Settled(goal: seq<Cell>, noted: seq<bool>): (r: seq<Cell>)
    requires |noted| == |goal|
  {
    seq(|goal|, i requires 0 <= i < |goal| => if noted[i] then Refreshed(goal[i]) else goal[i])
  }

  ghost function SettledOs(goal: seq<Cell>, noted: seq<bool>, g: nat, os0: seq<Prot>): (r: seq<Prot>)
    requires |noted| == |goal| == |os0| && g > 0
  {
    seq(|goal|, i requires 0 <= i < |goal| => if GroupNoted(noted, g, i) then GroupProt(goal, g, i) else os0[i])
  }

  datatype Walk = Walk(orig: seq<Cell>, goal: seq<Cell>, noted: seq<bool>, g: nat, os0: seq<Prot>)

  ghost predicate WalkOk(w: Walk) {
    && |w.orig| == |w.goal| == |w.noted| == |w.os0| && w.g > 0
  }

  ghost predicate RunOk(w: Walk, k: nat, run: ProtRun)
    requires WalkOk(w) && k <= |w.goal|
  {
    && (run.open ==> run.start <= run.last < k
                     && (forall j | run.start <= j <= run.last :: w.noted[j])
                     && (forall j | run.last < j < k :: !w.noted[j]))
    && (!run.open ==> forall j | 0 <= j < k :: !w.noted[j])
  }

  /** The pages as the walk has left them. */
  ghost predicate PagesAt(w: Walk, k: nat, run: ProtRun, cells: seq<Cell>)
    requires WalkOk(w) && k <= |w.goal|
  {
    && |cells| == |w.goal|
    && (forall j | 0 <= j < k :: cells[j] == if w.noted[j] && !InRun(run, j) then Refreshed(w.goal[j]) else w.goal[j])
    && (forall j | k <= j < |cells| :: cells[j] == w.orig[j])
  }

  ghost predicate OsAt(w: Walk, k: nat, run: ProtRun, os: seq<Prot>)
    requires WalkOk(w) && k <= |w.goal|
  {
    && |os| == |w.goal|
    && forall p | 0 <= p < |os| && !Pending(w.noted, w.g, p, k, run) ::
         os[p] == if GroupNoted(w.noted, w.g, p) then GroupProt(w.goal, w.g, p) else w.os0[p]
  }

  /** The walk at page k with a run pending. */
  ghost predicate At(w: Walk, k: nat, run: ProtRun, cells: seq<Cell>, os: seq<Prot>) {
    WalkOk(w) && k <= |w.goal| && RunOk(w, k, run) && PagesAt(w, k, run, cells) && OsAt(w, k, run, os)
  }

  lemma Start(w: Walk)
    requires WalkOk(w)
    ensures At(w, 0, NO_RUN, w.orig, w.os0)
  {
    forall p | 0 <= p < |w.os0| && !Pending(w.noted, w.g, p, 0, NO_RUN) ensures !GroupNoted(w.noted, w.g, p) {
    }
  }

  lemma StillPending(noted: seq<bool>, g: nat, p: nat, k: nat, run: ProtRun, k': nat, run': ProtRun)
    requires g > 0
    requires forall j | 0 <= j < |noted| && noted[j] && (j >= k || InRun(run, j)) :: j >= k' || InRun(run', j)
    ensures Pending(noted, g, p, k, run) ==> Pending(noted, g, p, k', run')
  {
  }

  /** Passing pages that are not noted. */
  lemma Advance(w: Walk, k: nat, k': nat, run: ProtRun, cells: seq<Cell>, cells': seq<Cell>, os: seq<Prot>)
    requires At(w, k, run, cells, os) && k <= k' <= |w.goal|
    requires forall j | k <= j < k' :: !w.noted[j]
    requires |cells'| == |cells| && forall j | 0 <= j < |cells| :: cells'[j] == if k <= j < k' then w.goal[j] else cells[j]
    ensures At(w, k', run, cells', os)
  {
    forall p | 0 <= p < |os| ensures Pending(w.noted, w.g, p, k, run) ==> Pending(w.noted, w.g, p, k', run) {
      StillPending(w.noted, w.g, p, k, run, k', run);
    }
  }

  // ---- host pages are stretches ----

  lemma GroupsAreStretches(g: nat, i: nat, j: nat, k: nat)
    requires g > 0 && i <= k <= j && SameGroup(g, i, j)
    ensures SameGroup(g, i, k)
  {
    DivMonotone(g, i, k);
    DivMonotone(g, k, j);
  }

  lemma DivMonotone(g: nat, a: nat, b: nat)
    requires g > 0 && a <= b
    ensures a / g <= b / g
  {
    var qa, qb := a / g, b / g;
    assert a == qa * g + a % g && b == qb * g + b % g;
    if qb < qa {
      assert (qb + 1) * g <= qa * g by { MulMonotone(g, qb + 1, qa); }
    }
  }

  lemma MulMonotone(g: nat, a: nat, b: nat)
    requires a <= b
    ensures a * g <= b * g
  {
    assert (b - a) * g >= 0;
  }

  lemma SameNative(c: Cell)
    ensures NativeProt(Refreshed(c).p) == NativeProt(c.p) && Refreshed(c).p.status == c.p.status
  {
  }

  /** A host page's protection is a matter of its own pages' protections. */
  lemma GroupProtDepends(a: seq<Cell>, b: seq<Cell>, g: nat, p: nat)
    requires g > 0 && |a| == |b| && p < |a|
    requires forall j | 0 <= j < |a| && SameGroup(g, p, j) ::
               NativeProt(a[j].p) == NativeProt(b[j].p) && a[j].p.status == b[j].p.status
    ensures GroupProt(a, g, p) == GroupProt(b, g, p)
  {
    assert SameGroup(g, p, p);
    assert GroupArmed(a, g, p) == GroupArmed(b, g, p) by {
      forall j | 0 <= j < |a| && SameGroup(g, p, j) ensures Armed(a[j].p) == Armed(b[j].p) {}
    }
    assert GroupWants(a, g, p) == GroupWants(b, g, p);
    assert GroupRuns(a, g, p) == GroupRuns(b, g, p);
    assert GroupReads(a, g, p) == GroupReads(b, g, p);
  }

  /** A host page the pending run belongs to, with nothing of it left pending
      once the run is told, lies wholly behind the walk. */
  lemma ToldFinal(w: Walk, k: nat, run: ProtRun, next: ProtRun, cells: seq<Cell>, p: nat)
    requires WalkOk(w) && k <= |w.goal| == |cells| && run.open && run.start <= run.last < k && p < |w.goal|
    requires forall j | 0 <= j < k :: cells[j] == w.goal[j] || cells[j] == Refreshed(w.goal[j])
    requires k == |w.goal| || (InRun(next, k - 1) && w.noted[k - 1] && run.last < k - 1)
    requires !Pending(w.noted, w.g, p, k, next) && Touches(w.g, p, run.start, run.last + 1)
    ensures GroupProt(cells, w.g, p) == GroupProt(w.goal, w.g, p)
  {
    var t: nat :| run.start <= t < run.last + 1 && SameGroup(w.g, p, t);
    if k < |w.goal| {
      assert !SameGroup(w.g, p, k - 1);
    }
    forall j | 0 <= j < |w.goal| && SameGroup(w.g, p, j)
      ensures NativeProt(cells[j].p) == NativeProt(w.goal[j].p) && cells[j].p.status == w.goal[j].p.status
    {
      if j >= k {
        GroupsAreStretches(w.g, t, j, k - 1);
      }
      SameNative(w.goal[j]);
    }
    GroupProtDepends(cells, w.goal, w.g, p);
  }

  /** Noting page k next to the pending run, or as the first of a run. */
  lemma Joined(w: Walk, k: nat, run: ProtRun, cells: seq<Cell>, os: seq<Prot>)
    requires At(w, k, run, cells, os) && k < |w.goal| && w.noted[k] && (run.open ==> run.last + 1 == k)
    ensures At(w, k + 1, ProtRun(true, if run.open then run.start else k, k), cells[k := w.goal[k]], os)
  {
    var next := ProtRun(true, if run.open then run.start else k, k);
    forall p | 0 <= p < |os| ensures Pending(w.noted, w.g, p, k, run) ==> Pending(w.noted, w.g, p, k + 1, next) {
      StillPending(w.noted, w.g, p, k, run, k + 1, next);
    }
  }

  /** The run's pages refreshed. */
  ghost predicate RunTold(run: ProtRun, cells: seq<Cell>, told: seq<Cell>) {
    |told| == |cells| && forall j | 0 <= j < |cells| :: told[j] == if InRun(run, j) then Refreshed(cells[j]) else cells[j]
  }

  /** Noting page k away from the pending run, which is told first. */
  lemma Parted(w: Walk, k: nat, run: ProtRun, cells: seq<Cell>, os: seq<Prot>, told: seq<Cell>)
    requires At(w, k, run, cells, os) && k < |w.goal| && w.noted[k] && run.open && run.last + 1 < k
    requires RunTold(run, cells[k := w.goal[k]], told)
    ensures At(w, k + 1, ProtRun(true, k, k), told, RefreshOs(told, w.g, os, run.start, run.last + 1))
  {
    var next := ProtRun(true, k, k);
    var os' := RefreshOs(told, w.g, os, run.start, run.last + 1);
    forall p | 0 <= p < |os| && !Pending(w.noted, w.g, p, k + 1, next)
      ensures os'[p] == if GroupNoted(w.noted, w.g, p) then GroupProt(w.goal, w.g, p) else w.os0[p]
    {
      if Touches(w.g, p, run.start, run.last + 1) {
        ToldFinal(w, k + 1, run, next, told, p);
        var t: nat :| run.start <= t < run.last + 1 && SameGroup(w.g, p, t);
        assert w.noted[t];
      } else {
        Unpended(w, k, run, next, p);
      }
    }
  }

  lemma Unpended(w: Walk, k: nat, run: ProtRun, next: ProtRun, p: nat)
    requires WalkOk(w) && k < |w.goal| && p < |w.goal| && next == ProtRun(true, k, k)
    requires !Pending(w.noted, w.g, p, k + 1, next) && !Touches(w.g, p, run.start, run.last + 1)
    ensures !Pending(w.noted, w.g, p, k, run)
  {
  }

  /** The walk over, the pending run told. */
  lemma Closed(w: Walk, run: ProtRun, cells: seq<Cell>, os: seq<Prot>, told: seq<Cell>)
    requires At(w, |w.goal|, run, cells, os) && run.open && RunTold(run, cells, told)
    ensures told == Settled(w.goal, w.noted)
    ensures RefreshOs(told, w.g, os, run.start, run.last + 1) == SettledOs(w.goal, w.noted, w.g, w.os0)
  {
    var n := |w.goal|;
    var os' := RefreshOs(told, w.g, os, run.start, run.last + 1);
    forall p | 0 <= p < n ensures os'[p] == SettledOs(w.goal, w.noted, w.g, w.os0)[p] {
      assert !Pending(w.noted, w.g, p, n, NO_RUN);
      if Touches(w.g, p, run.start, run.last + 1) {
        ToldFinal(w, n, run, NO_RUN, told, p);
        var t: nat :| run.start <= t < run.last + 1 && SameGroup(w.g, p, t);
        assert w.noted[t];
      } else {
        assert !Pending(w.noted, w.g, p, n, run);
      }
    }
  }

  /** The walk over with nothing noted. */
  lemma ClosedEmpty(w: Walk, run: ProtRun, cells: seq<Cell>, os: seq<Prot>)
    requires At(w, |w.goal|, run, cells, os) && !run.open
    ensures cells == Settled(w.goal, w.noted) && os == SettledOs(w.goal, w.noted, w.g, w.os0)
  {
    forall p | 0 <= p < |os| ensures os[p] == SettledOs(w.goal, w.noted, w.g, w.os0)[p] {
      assert !GroupNoted(w.noted, w.g, p);
      assert !Pending(w.noted, w.g, p, |w.goal|, run);
    }
  }
}
