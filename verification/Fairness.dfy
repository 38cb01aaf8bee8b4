/** Turns: yielding goes round the runnable threads in tid order, each exactly
    once a round. */
module Fairness {
  import opened Pages
  import opened Queues
  import opened Threads
  import opened ThreadLaws

  /** The runnable tids, ascending. */
  function Runnable(ts: seq<Thread>): (r: seq<nat>) {
    if ts == [] then [] else (if ts[0].waiting then [] else [ts[0].tid]) + Runnable(ts[1..])
  }

  lemma {:induction false} RunnableMember(ts: seq<Thread>, u: nat)
    ensures u in Runnable(ts) <==> exists i | 0 <= i < |ts| :: ts[i].tid == u && !ts[i].waiting
  {
    if ts != [] {
      RunnableMember(ts[1..], u);
      if u in Runnable(ts[1..]) {
        var i :| 0 <= i < |ts| - 1 && ts[1..][i].tid == u && !ts[1..][i].waiting;
        assert ts[i + 1] == ts[1..][i];
      }
      if exists i | 0 <= i < |ts| :: ts[i].tid == u && !ts[i].waiting {
        var i :| 0 <= i < |ts| && ts[i].tid == u && !ts[i].waiting;
        if i > 0 { assert ts[1..][i - 1] == ts[i]; }
      }
    }
  }

  lemma {:induction false} RunnableRises(ts: seq<Thread>)
    requires Ascending(ts)
    ensures Sorted(Runnable(ts))
  {
    if ts != [] {
      RunnableRises(ts[1..]);
      forall u | u in Runnable(ts[1..]) ensures u > ts[0].tid {
        RunnableMember(ts[1..], u);
        var i :| 0 <= i < |ts| - 1 && ts[1..][i].tid == u && !ts[1..][i].waiting;
        assert ts[i + 1] == ts[1..][i];
      }
      var rest := Runnable(ts[1..]);
      assert forall i | 0 <= i < |rest| :: rest[i] in rest;
    }
  }

  function FirstOver(r: seq<nat>, after: nat): Option<nat> {
    if r == [] then None else if r[0] > after then Some(r[0]) else FirstOver(r[1..], after)
  }

  lemma {:induction false} AboveIs(ts: seq<Thread>, after: nat)
    ensures FirstAbove(ts, after) == FirstOver(Runnable(ts), after)
  {
    if ts != [] {
      AboveIs(ts[1..], after);
      var rest := Runnable(ts[1..]);
      assert ([ts[0].tid] + rest)[1..] == rest && [] + rest == rest;
    }
  }

  lemma {:induction false} OverIs(r: seq<nat>, k: nat)
    requires Sorted(r) && k < |r|
    ensures FirstOver(r, r[k]) == if k + 1 < |r| then Some(r[k + 1]) else None
  {
    if k > 0 {
      OverIs(r[1..], k - 1);
    } else if |r| > 1 {
      assert r[1..][0] == r[1] && r[1] > r[0];
    }
  }

  /** The next place in a round of n. */
  function Following(k: nat, n: nat): nat {
    if k + 1 < n then k + 1 else 0
  }

  /** The next of the round. */
  lemma NextInTurn(ts: seq<Thread>, k: nat)
    requires Ascending(ts) && k < |Runnable(ts)| && forall i | 0 <= i < |ts| :: ts[i].tid > 0
    ensures var r := Runnable(ts); NextTid(ts, r[k]) == Some(r[Following(k, |r|)])
  {
    hide Runnable, FirstAbove;
    var r := Runnable(ts);
    RunnableRises(ts);
    AboveIs(ts, r[k]);
    AboveIs(ts, 0);
    OverIs(r, k);
    RunnableMember(ts, r[0]);
  }

  lemma {:induction false} RunnableSame(ts: seq<Thread>, us: seq<Thread>)
    requires |ts| == |us| && forall i | 0 <= i < |ts| :: ts[i].tid == us[i].tid && ts[i].waiting == us[i].waiting
    ensures Runnable(ts) == Runnable(us)
  {
    if ts != [] { RunnableSame(ts[1..], us[1..]); }
  }

  /** Giving way, the next in turn goes on, and nobody's standing changes. */
  lemma SwapTurns(g: Group, c: Ctx, k: nat)
    requires GroupOk(g) && k < |Runnable(g.threads)| && Runnable(g.threads)[k] == g.active
    ensures var r := Runnable(g.threads);
            var o := SwapNext(g, c, 0);
            o.Ran? && GroupOk(o.group) && Runnable(o.group.threads) == r && o.group.active == r[Following(k, |r|)]
  {
    hide Find, Runnable, Accounted, QueuesOk, Waits, FirstAbove;
    var s := Stored(g, c, 0);
    StoredKeeps(g, c, 0);
    RunnableSame(s.threads, g.threads);
    NextInTurn(s.threads, k);
    SwapNextOk(g, c, 0);
    ScheduleOk(s);
  }

  /** A yield that costs a tick: nobody else can run, and others are parked on a
      deadline. */
  predicate Ticks(g: Group) {
    g.v3 && g.kit2 && !OthersRunnable(g.threads, g.active) && OthersTimed(g.threads, g.active)
  }

  /** ... and the tick makes one of them due. */
  predicate TickWakes(g: Group) {
    Ticks(g) && DueTids(g.threads, NsAdd(g.kit2, g.clock, TICK)) != {}
  }

  /** With others to run no yield costs a tick. */
  lemma OthersThere(g: Group, k: nat)
    requires Seated(g) && k < |Runnable(g.threads)| && Runnable(g.threads)[k] == g.active && |Runnable(g.threads)| > 1
    ensures OthersRunnable(g.threads, g.active)
  {
    var r := Runnable(g.threads);
    RunnableRises(g.threads);
    var other := r[if k == 0 then 1 else 0];
    assert other in r && other != g.active;
    RunnableMember(g.threads, other);
  }

  lemma TickIdle(g: Group)
    requires GroupOk(g) && DueTids(g.threads, NsAdd(g.kit2, g.clock, TICK)) == {}
    ensures Advance(g, TICK) == g.(clock := NsAdd(g.kit2, g.clock, TICK))
  {
    hide Accounted;
    PurgeNone(g.queues);
    assert Expire(g.threads, {}) == g.threads;
  }

  /** sched_yield gives way to the next in turn, unless its tick wakes somebody. */
  lemma YieldTurns(g: Group, c: Ctx, k: nat)
    requires GroupOk(g) && k < |Runnable(g.threads)| && Runnable(g.threads)[k] == g.active && !TickWakes(g)
    ensures var r := Runnable(g.threads);
            var o := SchedYield(g, c);
            o.Ran? && GroupOk(o.group) && Runnable(o.group.threads) == r && o.group.active == r[Following(k, |r|)]
  {
    hide Runnable, Seated, Find, SwapNext, Advance, DueTids, OthersRunnable, OthersTimed;
    SchedYieldOk(g, c);
    if Ticks(g) {
      TickIdle(g);
      AdvanceKeeps(g, TICK);
      SwapTurns(Advance(g, TICK), c, k);
    } else {
      SwapTurns(g, c, k);
    }
  }

  /** ... and then it is somebody else who goes on. */
  lemma TickGivesWay(g: Group, c: Ctx)
    requires GroupOk(g) && TickWakes(g)
    ensures SchedYield(g, c).Ran? && SchedYield(g, c).group.active != g.active
  {
    hide Seated, Find, SwapNext, Expire, DueTids, OthersRunnable, OthersTimed, Purge;
    var t := NsAdd(g.kit2, g.clock, TICK);
    var u :| u in DueTids(g.threads, t);
    AdvanceKeeps(g, TICK);
    var a := Advance(g, TICK);
    Woken(g, t, u);
    ActiveListed(a);
    var k :| 0 <= k < |Runnable(a.threads)| && Runnable(a.threads)[k] == a.active;
    SwapTurns(a, c, k);
    SeatedParts(a);
    RunnableRises(a.threads);
  }

  /** The thread that runs stands among the runnable ones. */
  lemma ActiveListed(g: Group)
    requires GroupOk(g)
    ensures exists k | 0 <= k < |Runnable(g.threads)| :: Runnable(g.threads)[k] == g.active
  {
    RunnableMember(g.threads, g.active);
    assert g.threads[Find(g.threads, g.active)].tid == g.active;
  }

  /** A thread due when the tick is over is runnable then, and was not before. */
  lemma Woken(g: Group, t: nat, u: nat)
    requires GroupOk(g) && t == NsAdd(g.kit2, g.clock, TICK) && u in DueTids(g.threads, t)
    ensures u in Runnable(Advance(g, TICK).threads) && u != g.active && Advance(g, TICK).active == g.active
  {
    var i :| 0 <= i < |g.threads| && g.threads[i].tid == u && Due(g.threads[i], t);
    var a := Advance(g, TICK);
    assert a.threads[i] == Expired(g.threads[i]);
    RunnableMember(a.threads, u);
    FindUnique(g.threads, i);
  }

  /** The group after n calls of sched_yield in a row. */
  ghost function Yields(g: Group, c: Ctx, n: nat): (Group, Ctx)
    requires GroupOk(g)
    ensures GroupOk(Yields(g, c, n).0)
  {
    if n == 0 then (g, c)
    else
      var (h, d) := Yields(g, c, n - 1);
      SchedYieldOk(h, d);
      match SchedYield(h, d) case Ran(i, e, _) => (i, e) case Deadlock => (h, d)
  }

  /** Whose place it is after j of a round's n yields. */
  function PlaceAfter(k: nat, j: nat, n: nat): nat {
    if k + j < n then k + j else k + j - n
  }

  lemma {:induction false} TurnAfter(g: Group, c: Ctx, k: nat, j: nat)
    requires GroupOk(g) && k < |Runnable(g.threads)| && Runnable(g.threads)[k] == g.active && j <= |Runnable(g.threads)|
    requires !TickWakes(g)
    ensures var r := Runnable(g.threads);
            Runnable(Yields(g, c, j).0.threads) == r && Yields(g, c, j).0.active == r[PlaceAfter(k, j, |r|)]
  {
    hide Seated, Find, Runnable, SchedYield, OthersRunnable, OthersTimed, DueTids;
    if j > 0 {
      TurnAfter(g, c, k, j - 1);
      var h := Yields(g, c, j - 1);
      var place := PlaceAfter(k, j - 1, |Runnable(g.threads)|);
      if j > 1 { OthersThere(h.0, place); }
      YieldTurns(h.0, h.1, place);
    }
  }

  /** When, within a round, thread i's turn comes. */
  function TurnOf(k: nat, i: nat, n: nat): (j: nat)
    requires k < n && i < n
    ensures 1 <= j <= n && PlaceAfter(k, j, n) == i
  {
    if i > k then i - k else n - (k - i)
  }

  lemma PlaceIs(k: nat, i: nat, j: nat, n: nat)
    requires k < n && i < n && 1 <= j <= n
    ensures PlaceAfter(k, j, n) < n && (PlaceAfter(k, j, n) == i <==> j == TurnOf(k, i, n))
  {
  }

  lemma RunnableOnce(ts: seq<Thread>, a: nat, b: nat)
    requires Ascending(ts) && a < |Runnable(ts)| && b < |Runnable(ts)|
    ensures Runnable(ts)[a] == Runnable(ts)[b] <==> a == b
  {
    hide Runnable;
    RunnableRises(ts);
  }

  /** With nobody woken, each in its turn. */
  lemma EachInTurn(g: Group, c: Ctx, k: nat, i: nat, j: nat)
    requires GroupOk(g) && k < |Runnable(g.threads)| && Runnable(g.threads)[k] == g.active && !TickWakes(g)
    requires i < |Runnable(g.threads)| && 1 <= j <= |Runnable(g.threads)|
    ensures var r := Runnable(g.threads);
            Yields(g, c, j).0.active == r[i] <==> j == TurnOf(k, i, |r|)
  {
    hide Runnable, Yields, TickWakes, PlaceAfter, TurnOf, Accounted, QueuesOk, Find;
    var n := |Runnable(g.threads)|;
    TurnAfter(g, c, k, j);
    PlaceIs(k, i, j, n);
    RunnableOnce(g.threads, PlaceAfter(k, j, n), i);
  }

  /** Over n calls of sched_yield among n runnable threads each of them runs
      exactly once - unless the one that runs is alone and its first yield wakes
      another, which then goes on. */
  lemma EachRunsOnce(g: Group, c: Ctx, k: nat, i: nat, j: nat)
    requires GroupOk(g) && k < |Runnable(g.threads)| && Runnable(g.threads)[k] == g.active
    requires i < |Runnable(g.threads)| && 1 <= j <= |Runnable(g.threads)|
    ensures var r := Runnable(g.threads);
            (Yields(g, c, j).0.active == r[i] <==> j == TurnOf(k, i, |r|)) <==> !TickWakes(g)
  {
    hide Runnable, SchedYield, Accounted, QueuesOk, Find, OthersRunnable, OthersTimed, DueTids, TurnOf;
    if TickWakes(g) {
      WakesAlone(g, k);
      TickGivesWay(g, c);
      assert Yields(g, c, 0) == (g, c);
      assert Yields(g, c, 1).0 == SchedYield(g, c).group;
      TurnAlone(k, i);
    } else {
      EachInTurn(g, c, k, i, j);
    }
  }

  /** A yield that wakes another is made by the only one that can run. */
  lemma WakesAlone(g: Group, k: nat)
    requires GroupOk(g) && k < |Runnable(g.threads)| && Runnable(g.threads)[k] == g.active && TickWakes(g)
    ensures |Runnable(g.threads)| == 1
  {
    hide Runnable, Seated, Find, DueTids;
    if |Runnable(g.threads)| > 1 { OthersThere(g, k); }
  }

  lemma TurnAlone(k: nat, i: nat)
    requires k < 1 && i < 1
    ensures TurnOf(k, i, 1) == 1
  {
  }
}
