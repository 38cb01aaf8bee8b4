/** With what a thread goes on: the context it gave way in and the value its
    call came to, whatever the others have done since. */
module Contexts {
  import opened Pages
  import opened Queues
  import opened Threads
  import opened ThreadLaws
  import opened ThreadRuns
  import opened Timing

  // ---- what others do to a thread's record ----

  /** Its stack, its area and the word its end clears are its own. What it is
      owed changes only to the timeout, and only if it had a deadline; nobody
      else parks it or gives it a deadline. */
  predicate Carried(a: Thread, b: Thread) {
    && b.tid == a.tid && b.rsp == a.rsp && b.area == a.area && b.tidAddress == a.tidAddress
    && (b.rax == a.rax || (a.deadline != 0 && b.rax == TIMED_OUT && !b.waiting))
    && (b.waiting ==> a.waiting) && (b.deadline == a.deadline || b.deadline == 0)
  }

  /** The same threads in the same places, each carried but for those named. */
  predicate AllCarried(ts: seq<Thread>, us: seq<Thread>, but: set<nat>) {
    |us| == |ts| && forall i | 0 <= i < |ts| :: us[i].tid == ts[i].tid && (ts[i].tid !in but ==> Carried(ts[i], us[i]))
  }

  lemma CarriedOn(ts: seq<Thread>, us: seq<Thread>, vs: seq<Thread>, but: set<nat>)
    requires AllCarried(ts, us, but) && AllCarried(us, vs, but)
    ensures AllCarried(ts, vs, but)
  {
  }

  /** The same threads in the same places are found alike. */
  lemma CarriedFinds(ts: seq<Thread>, us: seq<Thread>, but: set<nat>, u: nat)
    requires AllCarried(ts, us, but)
    ensures Find(us, u) == Find(ts, u) && (Live(us, u) <==> Live(ts, u))
    ensures Live(ts, u) && u !in but ==> Carried(Get(ts, u), Get(us, u))
  {
  }

  lemma SetCarried(ts: seq<Thread>, th: Thread, but: set<nat>)
    requires Live(ts, th.tid) && (th.tid in but || Carried(Get(ts, th.tid), th))
    ensures AllCarried(ts, Set(ts, th), but)
  {
  }

  lemma UnparkCarried(g: Group, addr: nat)
    ensures AllCarried(g.threads, Unpark(g, addr).0.threads, {})
  {
    hide Put, At, Find;
    var q := At(g.queues, addr);
    var k := Stale(g.threads, q);
    if k < |q| { SetCarried(g.threads, Wake(Get(g.threads, q[k])), {}); }
  }

  /** A waiter moved from one word to another. */
  lemma MoveCarried(g: Group, from: nat, to: nat)
    requires Unpark(g, from).1.Some? && Live(Unpark(g, from).0.threads, Unpark(g, from).1.value)
    ensures AllCarried(g.threads, ParkOn(Unpark(g, from).0, to, Unpark(g, from).1.value).threads, {})
  {
    hide Put, At;
    var (h, tid, more) := Unpark(g, from);
    UnparkCarried(g, from);
    CarriedFinds(g.threads, h.threads, {}, tid.value);
    assert IsWaiting(g.threads, tid.value);
  }

  lemma {:induction false} RequeueCarried(g: Group, from: nat, to: nat, wake: nat, move: nat)
    ensures AllCarried(g.threads, Requeue(g, from, to, wake, move).0.threads, {})
    decreases wake + move
  {
    hide Unpark, ParkOn, Find;
    if wake + move > 0 {
      var (g1, tid, more) := Unpark(g, from);
      UnparkCarried(g, from);
      if tid.Some? {
        var g2 := if wake > 0 || !Live(g1.threads, tid.value) then g1 else ParkOn(g1, to, tid.value);
        if wake == 0 && Live(g1.threads, tid.value) { MoveCarried(g, from, to); }
        assert AllCarried(g.threads, g2.threads, {});
        if more {
          if wake > 0 {
            RequeueCarried(g2, from, to, wake - 1, move);
            CarriedOn(g.threads, g2.threads, Requeue(g2, from, to, wake - 1, move).0.threads, {});
          } else {
            RequeueCarried(g2, from, to, 0, move - 1);
            CarriedOn(g.threads, g2.threads, Requeue(g2, from, to, 0, move - 1).0.threads, {});
          }
        }
      }
    }
  }

  lemma ExpireCarried(g: Group)
    requires Ascending(g.threads)
    ensures AllCarried(g.threads, ExpireDue(g).threads, {}) && ExpireDue(g).active == g.active
  {
    hide Purge, DueTids;
    forall i | 0 <= i < |g.threads| ensures Carried(g.threads[i], ExpireDue(g).threads[i]) { ExpiredExactly(g, i); }
  }

  lemma AdvanceCarried(g: Group, ns: nat)
    requires Ascending(g.threads)
    ensures AllCarried(g.threads, Advance(g, ns).threads, {}) && Advance(g, ns).active == g.active
  {
    hide ExpireDue;
    ExpireCarried(g.(clock := NsAdd(g.kit2, g.clock, ns)));
  }

  lemma ScheduleCarried(g: Group)
    requires Ascending(g.threads) && Schedule(g).Some?
    ensures var f := Schedule(g).value.0; AllCarried(g.threads, f.threads, {}) && f.active == g.active
  {
    hide ExpireDue, NextTid, Earliest;
    ExpireCarried(g.(clock := Earliest(g.threads)));
  }

  // ---- what a thread goes on with ----

  /** A thread's record, and for the one that runs what it was just handed: the
      context and the value it has when it next runs. */
  function Record(r: Outcome, u: nat): (th: Thread)
    requires r.Ran? && Live(r.group.threads, u)
  {
    var th := Get(r.group.threads, u);
    if u == r.group.active then th.(rax := r.value, rsp := r.ctx.rsp, area := r.ctx.area) else th
  }

  predicate OwnKept(r: Outcome, a: Thread) {
    r.Ran? && Live(r.group.threads, a.tid) && Carried(a, Record(r, a.tid))
  }

  /** Everybody but the caller goes on as they were. */
  ghost predicate OthersKept(g: Group, r: Outcome) {
    forall u | Live(g.threads, u) && u != g.active :: OwnKept(r, Get(g.threads, u))
  }

  /** A thread goes on in this context with this value, or with the timeout if it
      parked until a moment that has come. */
  predicate GoesOn(r: Outcome, u: nat, c: Ctx, value: nat, timed: bool) {
    && r.Ran? && Live(r.group.threads, u)
    && var th := Record(r, u);
       && Ctx(th.rsp, th.area) == c && (th.rax == value || (timed && th.rax == TIMED_OUT && !th.waiting))
       && (!timed ==> th.deadline == 0)
  }

  predicate SameTids(ts: seq<Thread>, us: seq<Thread>) {
    |us| == |ts| && forall i | 0 <= i < |ts| :: us[i].tid == ts[i].tid
  }

  lemma SameFinds(ts: seq<Thread>, us: seq<Thread>, u: nat)
    requires SameTids(ts, us)
    ensures Find(us, u) == Find(ts, u) && (Live(us, u) <==> Live(ts, u))
  {
  }

  lemma ResumeKeeps(f: Group, c: Ctx, tid: nat, a: Thread)
    requires Live(f.threads, tid) && Live(f.threads, a.tid) && Carried(a, Get(f.threads, a.tid))
    requires a.tid == f.active ==> Ctx(a.rsp, a.area) == c
    ensures OwnKept(Resume(f, c, tid), a) && Resume(f, c, tid).group.threads == f.threads
  {
  }

  /** Whoever is chosen goes on in its own context: the caller's, if that is who,
      and else the stack and area that thread had. */
  predicate ChosenIn(g: Group, c: Ctx, tid: nat, d: Ctx) {
    Live(g.threads, tid) && d == if tid == g.active then c else Ctx(Get(g.threads, tid).rsp, Get(g.threads, tid).area)
  }

  lemma ScheduleChosen(g: Group, c: Ctx)
    requires Ascending(g.threads)
    ensures Schedule(g).Some? ==>
              var (f, tid) := Schedule(g).value;
              Live(f.threads, tid) ==> var r := Resume(f, c, tid); r.Ran? && r.group.active == tid && ChosenIn(g, c, tid, r.ctx)
  {
    hide Schedule, Find;
    if Schedule(g).Some? {
      var (f, tid) := Schedule(g).value;
      ScheduleCarried(g);
      CarriedFinds(g.threads, f.threads, {}, tid);
    }
  }

  /** The caller's record as a call leaves it that came to `ret`. */
  function Caller(g: Group, c: Ctx, ret: nat): Thread
    requires Live(g.threads, g.active)
  {
    Get(g.threads, g.active).(rax := ret, rsp := c.rsp, area := c.area)
  }

  lemma CallerGoesOn(r: Outcome, g: Group, c: Ctx, ret: nat)
    requires Live(g.threads, g.active) && OwnKept(r, Caller(g, c, ret))
    ensures GoesOn(r, g.active, c, ret, Get(g.threads, g.active).deadline != 0)
    ensures Record(r, g.active).tidAddress == Get(g.threads, g.active).tidAddress
  {
  }

  /** swap_to_next: the caller goes on in its own context with what the call came
      to, every other thread as it was. */
  lemma SwapKeepsAll(g: Group, c: Ctx, ret: nat)
    requires Ascending(g.threads) && Live(g.threads, g.active) && SwapNext(g, c, ret).Ran?
    ensures var r := SwapNext(g, c, ret);
            OthersKept(g, r) && OwnKept(r, Caller(g, c, ret)) && SameTids(g.threads, r.group.threads)
  {
    hide Schedule, Resume, OwnKept, Find, Carried;
    var r, s := SwapNext(g, c, ret), Stored(g, c, ret);
    var mine := Caller(g, c, ret);
    SetFinds(g.threads, mine, g.active);
    ScheduleCarried(s);
    var (f, tid) := Schedule(s).value;
    CarriedFinds(s.threads, f.threads, {}, g.active);
    ResumeKeeps(f, c, tid, mine);
    forall u | Live(g.threads, u) && u != g.active ensures OwnKept(r, Get(g.threads, u)) {
      SetFinds(g.threads, mine, u);
      CarriedFinds(s.threads, f.threads, {}, u);
      ResumeKeeps(f, c, tid, Get(s.threads, u));
    }
  }

  /** From a group whose other threads were carried there. */
  lemma KeptFrom(g: Group, p: Group, r: Outcome, but: set<nat>)
    requires AllCarried(g.threads, p.threads, but) && but <= {g.active} && p.active == g.active && OthersKept(p, r)
    ensures OthersKept(g, r)
  {
    hide Find;
    forall u | Live(g.threads, u) && u != g.active ensures OwnKept(r, Get(g.threads, u)) {
      CarriedFinds(g.threads, p.threads, but, u);
      assert OwnKept(r, Get(p.threads, u));
    }
  }

  /** Nobody else is chosen. */
  lemma StayKeeps(g: Group, c: Ctx, ret: nat)
    requires Live(g.threads, g.active)
    ensures OthersKept(g, Ran(g, c, ret)) && OwnKept(Ran(g, c, ret), Caller(g, c, ret))
  {
    hide Find;
  }

  // ---- each call ----

  /** What a call does to everybody's record but the caller's, what the caller
      goes on with, and the threads there are. */
  ghost predicate Conserved(g: Group, c: Ctx, ret: nat, timed: bool, r: Outcome)
    requires Live(g.threads, g.active)
  {
    && OthersKept(g, r) && GoesOn(r, g.active, c, ret, timed)
    && SameTids(g.threads, r.group.threads) && Record(r, g.active).tidAddress == Get(g.threads, g.active).tidAddress
  }

  /** A call that changes the group to p, the caller's own record aside, and then
      gives way. */
  lemma GivesWay(g: Group, p: Group, c: Ctx, ret: nat, timed: bool)
    requires Live(g.threads, g.active) && Live(p.threads, p.active) && p.active == g.active && Ascending(p.threads)
    requires AllCarried(g.threads, p.threads, {g.active}) && SwapNext(p, c, ret).Ran?
    requires Get(p.threads, g.active).tidAddress == Get(g.threads, g.active).tidAddress
    requires Get(p.threads, g.active).deadline != 0 ==> timed
    ensures Conserved(g, c, ret, timed, SwapNext(p, c, ret))
  {
    hide SwapNext, OwnKept, Find, Record;
    var r := SwapNext(p, c, ret);
    SwapKeepsAll(p, c, ret);
    KeptFrom(g, p, r, {g.active});
    CallerGoesOn(r, p, c, ret);
  }

  /** The caller goes on at once. */
  lemma GoesStraightOn(g: Group, p: Group, c: Ctx, ret: nat)
    requires Live(g.threads, g.active) && Live(p.threads, p.active) && p.active == g.active
    requires AllCarried(g.threads, p.threads, {g.active}) && Get(p.threads, g.active).deadline == 0
    requires Get(p.threads, g.active).tidAddress == Get(g.threads, g.active).tidAddress
    ensures Conserved(g, c, ret, false, Ran(p, c, ret))
  {
    hide Find;
    StayKeeps(p, c, ret);
    KeptFrom(g, p, Ran(p, c, ret), {g.active});
  }

  lemma CarriedMost(ts: seq<Thread>, us: seq<Thread>, u: nat)
    requires AllCarried(ts, us, {})
    ensures AllCarried(ts, us, {u})
  {
  }

  lemma RisesStill(ts: seq<Thread>, us: seq<Thread>, but: set<nat>)
    requires AllCarried(ts, us, but) && Ascending(ts)
    ensures Ascending(us)
  {
  }

  lemma ParkConserves(g: Group, c: Ctx, addr: nat, ret: nat)
    requires GroupOk(g) && ParkMe(g, c, addr, ret).Ran?
    ensures Conserved(g, c, ret, false, ParkMe(g, c, addr, ret))
  {
    hide Accounted, QueuesOk, SwapNext, Conserved, Put, At;
    ActiveRuns(g);
    var th := Park(Get(g.threads, g.active));
    SetCarried(g.threads, th, {g.active});
    SetFinds(g.threads, th, g.active);
    GivesWay(g, ParkOn(g, addr, g.active), c, ret, false);
  }

  lemma WaitConserves(g: Group, c: Ctx, addr: nat, word: nat, compare: nat)
    requires GroupOk(g) && Wait(g, c, addr, word, compare).Ran?
    ensures Conserved(g, c, if word != compare then TRY_AGAIN else 0, false, Wait(g, c, addr, word, compare))
  {
    hide Seated, Conserved, ParkMe;
    if word != compare { AnswersAtOnce(g, c, TRY_AGAIN); } else { ParkConserves(g, c, addr, 0); }
  }

  lemma CarriedSelf(ts: seq<Thread>, u: nat)
    ensures AllCarried(ts, ts, {u})
  {
  }

  /** Nothing changes. */
  lemma AnswersAtOnce(g: Group, c: Ctx, ret: nat)
    requires GroupOk(g)
    ensures Conserved(g, c, ret, false, Ran(g, c, ret))
  {
    hide Seated, Conserved;
    AscendsOk(g);
    CarriedSelf(g.threads, g.active);
    GoesStraightOn(g, g, c, ret);
  }

  /** Time passed for everybody. */
  lemma AdvancedCaller(g: Group, ns: nat)
    requires GroupOk(g)
    ensures var a := Advance(g, ns);
            && GroupOk(a) && a.active == g.active && AllCarried(g.threads, a.threads, {g.active})
            && Get(a.threads, g.active).tidAddress == Get(g.threads, g.active).tidAddress && Get(a.threads, g.active).deadline == 0
  {
    hide Accounted, QueuesOk, Advance, Find;
    AdvanceCarried(g, ns);
    AdvanceKeeps(g, ns);
    ActiveRuns(g);
    CarriedFinds(g.threads, Advance(g, ns).threads, {}, g.active);
    CarriedMost(g.threads, Advance(g, ns).threads, g.active);
  }

  lemma LaterConserves(g: Group, c: Ctx, ns: nat, ret: nat)
    requires GroupOk(g)
    ensures Live(Advance(g, ns).threads, Advance(g, ns).active) && Conserved(g, c, ret, false, SwapNext(Advance(g, ns), c, ret))
  {
    hide Seated, Advance, SwapNext, Conserved;
    AdvancedCaller(g, ns);
    SwapOk(Advance(g, ns), c, ret);
    AscendsOk(Advance(g, ns));
    GivesWay(g, Advance(g, ns), c, ret, false);
  }

  lemma AscendsOk(g: Group)
    requires GroupOk(g)
    ensures Ascending(g.threads) && Get(g.threads, g.active).deadline == 0
  {
    hide Accounted, QueuesOk;
    ActiveRuns(g);
  }

  lemma SwapConserves(g: Group, c: Ctx, ret: nat)
    requires GroupOk(g)
    ensures Conserved(g, c, ret, false, SwapNext(g, c, ret))
  {
    hide Seated, SwapNext, Conserved;
    SwapOk(g, c, ret);
    AscendsOk(g);
    CarriedSelf(g.threads, g.active);
    GivesWay(g, g, c, ret, false);
  }

  /** futex_wait_timeout on machine spec 3. */
  lemma WaitUntilConserves(g: Group, c: Ctx, addr: nat, word: nat, compare: nat, deadline: nat)
    requires GroupOk(g) && g.v3
    ensures var ret := if word != compare then TRY_AGAIN else if deadline <= g.clock then TIMED_OUT else 0;
            Conserved(g, c, ret, word == compare && deadline > g.clock, WaitUntil(g, c, addr, word, compare, deadline))
  {
    hide Seated, SwapNext, Conserved, Put, At, Advance, Find;
    if word != compare {
      AnswersAtOnce(g, c, TRY_AGAIN);
    } else if deadline <= g.clock {
      AdvancedCaller(g, TICK);
      LaterConserves(g, c, TICK, TIMED_OUT);
      GoesStraightOn(g, Advance(g, TICK), c, TIMED_OUT);
    } else {
      hide WaitUntil;
      WaitUntilParks(g, c, addr, word, compare, deadline);
      ParkUntilConserves(g, c, addr, deadline);
      WaitUntilIs(g, c, addr, compare, deadline);
    }
  }

  lemma WaitUntilIs(g: Group, c: Ctx, addr: nat, compare: nat, deadline: nat)
    requires Live(g.threads, g.active) && g.v3 && deadline > g.clock
    ensures var p := ParkUntil(g, addr, deadline);
            WaitUntil(g, c, addr, compare, compare, deadline) == if Live(p.threads, p.active) then SwapNext(p, c, 0) else Deadlock
  {
    hide SwapNext, Find, Put, At;
  }

  lemma ParkUntilConserves(g: Group, c: Ctx, addr: nat, deadline: nat)
    requires GroupOk(g)
    ensures var p := ParkUntil(g, addr, deadline);
            Live(p.threads, p.active) && (SwapNext(p, c, 0).Ran? ==> Conserved(g, c, 0, true, SwapNext(p, c, 0)))
  {
    hide Accounted, QueuesOk, SwapNext, Conserved, Put, At;
    ActiveRuns(g);
    var th := Park(Get(g.threads, g.active)).(deadline := deadline, order := g.parked + 1);
    SetCarried(g.threads, th, {g.active});
    SetFinds(g.threads, th, g.active);
    if SwapNext(ParkUntil(g, addr, deadline), c, 0).Ran? { GivesWay(g, ParkUntil(g, addr, deadline), c, 0, true); }
  }

  /** futex_requeue, and futex_wake without the switch. */
  lemma RequeuedCaller(g: Group, from: nat, to: nat, wake: nat, move: nat)
    requires GroupOk(g)
    ensures var p := Requeue(g, from, to, wake, move).0;
            && GroupOk(p) && p.active == g.active && AllCarried(g.threads, p.threads, {g.active}) && Ascending(p.threads)
            && Get(p.threads, g.active).tidAddress == Get(g.threads, g.active).tidAddress && Get(p.threads, g.active).deadline == 0
  {
    hide Accounted, QueuesOk, Requeue, Find;
    RequeueOk(g, from, to, wake, move);
    RequeueKeeps(g, from, to, wake, move);
    RequeueCarried(g, from, to, wake, move);
    var p := Requeue(g, from, to, wake, move).0;
    ActiveRuns(g);
    CarriedFinds(g.threads, p.threads, {}, g.active);
    CarriedMost(g.threads, p.threads, g.active);
  }

  lemma {:induction false} WakeCount(g: Group, addr: nat, count: nat)
    requires Seated(g)
    ensures Requeue(g, addr, 0, count, 0).1 == Min(|At(g.queues, addr)|, count)
    decreases count
  {
    hide Seated, Requeue, At, Unpark;
    var q := At(g.queues, addr);
    if count == 0 || q == [] {
      RequeueStop(g, addr, 0, count, 0);
    } else {
      RequeueWakes(g, addr, 0, count, 0);
      UnparkKeeps(g, addr);
      UnparkAt(g, addr, addr);
      WakeCount(Unpark(g, addr).0, addr, count - 1);
    }
  }

  /** futex_unlock_pi */
  lemma UnlockConserves(g: Group, c: Ctx, addr: nat)
    requires GroupOk(g)
    ensures Conserved(g, c, 0, false, UnlockPi(g, c, addr).1)
  {
    hide Seated, Unpark, Find, Conserved;
    UnlockPiOk(g, c, addr);
    UnparkCarried(g, addr);
    UnparkActive(g, addr);
    var (h, tid, more) := Unpark(g, addr);
    AscendsOk(g);
    AscendsOk(h);
    CarriedFinds(g.threads, h.threads, {}, g.active);
    CarriedMost(g.threads, h.threads, g.active);
    if tid == None {
      GoesStraightOn(g, h, c, 0);
    } else {
      HandsOver(g, h, c, tid.value);
    }
  }

  lemma HandsOver(g: Group, h: Group, c: Ctx, tid: nat)
    requires Live(g.threads, g.active) && Live(h.threads, h.active) && h.active == g.active && Ascending(h.threads)
    requires AllCarried(g.threads, h.threads, {g.active}) && Get(h.threads, g.active).deadline == 0
    requires Get(h.threads, g.active).tidAddress == Get(g.threads, g.active).tidAddress
    requires Live(Stored(h, c, 0).threads, tid)
    ensures Conserved(g, c, 0, false, Resume(Stored(h, c, 0), c, tid))
  {
    hide Resume, OwnKept, Find, Carried, Record;
    var s, mine := Stored(h, c, 0), Caller(h, c, 0);
    var r := Resume(s, c, tid);
    SetFinds(h.threads, mine, g.active);
    CarriedSame(mine);
    ResumeKeeps(s, c, tid, mine);
    forall u | Live(h.threads, u) && u != h.active ensures OwnKept(r, Get(h.threads, u)) {
      SetFinds(h.threads, mine, u);
      CarriedSame(Get(h.threads, u));
      ResumeKeeps(s, c, tid, Get(h.threads, u));
    }
    KeptFrom(g, h, r, {g.active});
    CallerGoesOn(r, h, c, 0);
  }

  lemma CarriedSame(a: Thread)
    ensures Carried(a, a)
  {
  }

  /** A thread's end: everybody else goes on as they were, and it is gone. */
  lemma ExitConserves(g: Group, c: Ctx)
    requires GroupOk(g) && Exit(g, c).Ran?
    ensures OthersKept(g, Exit(g, c))
    ensures forall u :: Live(Exit(g, c).group.threads, u) <==> Live(g.threads, u) && u != g.active
  {
    hide Seated, Unpark, Find, SwapNext, OwnKept, OthersKept, Remove;
    var me := Get(g.threads, g.active);
    var w := if me.tidAddress != 0 then Unpark(g, me.tidAddress).0 else g;
    AscendsOk(g);
    EndingCarried(g);
    var out := w.(threads := Set(w.threads, Park(Get(w.threads, w.active))));
    SwapKeepsAll(out, c, 0);
    var r := SwapNext(out, c, 0);
    KeptFrom(g, out, r, {g.active});
    RemoveKeeps(g, r);
    forall u ensures Live(Exit(g, c).group.threads, u) <==> Live(g.threads, u) && u != g.active {
      RemovedFinds(r.group.threads, g.active, u);
      SameFinds(out.threads, r.group.threads, u);
      CarriedFinds(g.threads, out.threads, {g.active}, u);
    }
  }

  lemma EndingCarried(g: Group)
    requires GroupOk(g)
    ensures var me := Get(g.threads, g.active);
            var w := if me.tidAddress != 0 then Unpark(g, me.tidAddress).0 else g;
            && Live(w.threads, w.active) && w.active == g.active
            && var out := w.threads[Find(w.threads, w.active) := Park(Get(w.threads, w.active))];
               AllCarried(g.threads, out, {g.active}) && Ascending(out) && Live(out, g.active)
  {
    hide Seated, Unpark, Find;
    var me := Get(g.threads, g.active);
    var w := if me.tidAddress != 0 then Unpark(g, me.tidAddress).0 else g;
    UnparkCarried(g, me.tidAddress);
    UnparkActive(g, me.tidAddress);
    AscendsOk(w);
    CarriedSelf(g.threads, g.active);
    if me.tidAddress != 0 { CarriedMost(g.threads, w.threads, g.active); }
    var th := Park(Get(w.threads, w.active));
    SetCarried(w.threads, th, {g.active});
    SetFinds(w.threads, th, g.active);
    CarriedOn(g.threads, w.threads, Set(w.threads, th), {g.active});
  }

  lemma RemovedFinds(ts: seq<Thread>, gone: nat, u: nat)
    requires Ascending(ts)
    ensures Live(Remove(ts, gone), u) <==> Live(ts, u) && u != gone
    ensures Live(ts, u) && u != gone ==> Get(Remove(ts, gone), u) == Get(ts, u)
  {
    var i := Find(ts, gone);
    if i < |ts| { FindLess(ts, i, u); }
  }

  lemma RemoveKeeps(g: Group, r: Outcome)
    requires r.Ran? && Ascending(r.group.threads) && OthersKept(g, r)
    ensures OthersKept(g, Ran(r.group.(threads := Remove(r.group.threads, g.active)), r.ctx, r.value))
  {
    hide Find, Remove;
    forall u | Live(g.threads, u) && u != g.active
      ensures OwnKept(Ran(r.group.(threads := Remove(r.group.threads, g.active)), r.ctx, r.value), Get(g.threads, u))
    {
      assert OwnKept(r, Get(g.threads, u));
      RemovedFinds(r.group.threads, g.active, u);
    }
  }

  /** clone: the new thread will start in its own context. */
  lemma SpawnConserves(g: Group, c: Ctx, rsp: nat, area: nat, tidAddress: nat)
    requires GroupOk(g)
    ensures var r := Ran(Spawn(g, rsp, area, tidAddress), c, g.nextTid);
            && OthersKept(g, r) && GoesOn(r, g.active, c, g.nextTid, false) && GoesOn(r, g.nextTid, Ctx(rsp, area), 0, false)
            && Record(r, g.active).tidAddress == Get(g.threads, g.active).tidAddress && Record(r, g.nextTid).tidAddress == tidAddress
            && forall u :: Live(r.group.threads, u) <==> Live(g.threads, u) || u == g.nextTid
  {
    hide Accounted, QueuesOk, Insert, Find;
    var th := Thread(g.nextTid, false, 0, rsp, area, tidAddress, 0, 0);
    var ts, us := g.threads, g.threads + [th];
    assert Insert(ts, th) == us by { InsertLast(ts, th); }
    assert Ascending(us);
    forall u: nat ensures Live(ts, u) ==> Live(us, u) && Get(us, u) == Get(ts, u) { FindAppended(ts, th, u); }
    FindUnique(us, |ts|);
    forall u: nat ensures Live(us, u) <==> Live(ts, u) || u == g.nextTid {
      if Live(us, u) && Find(us, u) < |ts| { assert ts[Find(us, u)].tid == u; }
    }
    assert Live(ts, g.active) && g.active != g.nextTid;
  }

  lemma SetTidConserves(g: Group, c: Ctx, addr: nat)
    requires GroupOk(g)
    ensures var p := g.(threads := Set(g.threads, Get(g.threads, g.active).(tidAddress := addr)));
            var r := Ran(p, c, g.active);
            && OthersKept(g, r) && GoesOn(r, g.active, c, g.active, false) && SameTids(g.threads, p.threads)
            && Live(p.threads, g.active) && Get(p.threads, g.active).tidAddress == addr
  {
    hide Seated, Find, OthersKept;
    var th := Get(g.threads, g.active).(tidAddress := addr);
    var p := g.(threads := Set(g.threads, th));
    AscendsOk(g);
    SetCarried(g.threads, th, {g.active});
    SetFinds(g.threads, th, g.active);
    StayKeeps(p, c, g.active);
    KeptFrom(g, p, Ran(p, c, g.active), {g.active});
  }

  // ---- every call ----

  /** What a call comes to for its caller; a timed wait to the timeout instead, if
      its moment comes before anybody wakes it. */
  function Result(g: Group, start: nat, call: Call): nat {
    match call
    case FutexWait(_, word, compare) => if word != compare then TRY_AGAIN else 0
    case FutexWaitFor(_, word, compare, sec, nsec) => TimedResult(g, start, call)
    case FutexWaitTill(_, word, compare, sec, nsec) => TimedResult(g, start, call)
    case FutexWake(addr, count) => Min(|At(g.queues, addr)|, count)
    case FutexRequeue(from, to, wake, move) =>
      if from != to then Min(|At(g.queues, from)|, wake + move) else Requeue(g, from, to, wake, move).1
    case Sleep(sec, nsec) => if g.v3 && !TimeOk(sec, nsec) then INVALID else 0
    case SleepTill(sec, nsec) => if g.v3 && !TimeOk(sec, nsec) then INVALID else 0
    case Clone(_, area, _) => if area == 0 then INVALID else g.nextTid
    case SetTidAddress(_) => g.active
    case _ => 0
  }

  function TimedResult(g: Group, start: nat, call: Call): nat
    requires Timed(call)
  {
    if g.v3 && !TimeOk(call.sec, call.nsec) then INVALID
    else if call.word != call.compare then TRY_AGAIN
    else if g.v3 && DueAt(g, start, call) <= g.clock then TIMED_OUT
    else 0
  }

  /** The caller may be handed the timeout later. */
  predicate MayTimeOut(g: Group, start: nat, call: Call) {
    Waited(g, call) && DueAt(g, start, call) > g.clock
  }

  lemma TimedConserves(g: Group, c: Ctx, start: nat, call: Call)
    requires GroupOk(g) && Timed(call) && Serve(g, c, start, call).Ran?
    ensures Conserved(g, c, Result(g, start, call), MayTimeOut(g, start, call), Serve(g, c, start, call))
  {
    hide Seated, Conserved, WaitUntil, Wait, NsAdd, NsOf, PastStart, Moment, Fit, Find;
    if !g.v3 {
      WaitConserves(g, c, call.addr, call.word, call.compare);
    } else if !TimeOk(call.sec, call.nsec) {
      AnswersAtOnce(g, c, INVALID);
    } else {
      TimesFit(g.kit2, g.clock, start, call.sec, call.nsec);
      WaitUntilConserves(g, c, call.addr, call.word, call.compare, DueAt(g, start, call));
    }
  }

  lemma SleepConserves(g: Group, c: Ctx, start: nat, call: Call)
    requires GroupOk(g) && (call.Sleep? || call.SleepTill?)
    ensures Conserved(g, c, Result(g, start, call), false, Serve(g, c, start, call))
  {
    hide Seated, Conserved, SwapNext, Advance, NsAdd, NsOf, PastStart, Find;
    SwapConserves(g, c, 0);
    AnswersAtOnce(g, c, INVALID);
    if TimeOk(call.sec, call.nsec) {
      LaterConserves(g, c, NsOf(g.kit2, call.sec, call.nsec), 0);
      var t := PastStart(g.kit2, start, call.sec, call.nsec);
      if t > g.clock { LaterConserves(g, c, t - g.clock, 0); }
    }
  }

  lemma YieldConserves(g: Group, c: Ctx)
    requires GroupOk(g)
    ensures Conserved(g, c, 0, false, SchedYield(g, c))
  {
    hide Seated, Conserved, SwapNext, Advance, Find;
    SwapConserves(g, c, 0);
    LaterConserves(g, c, TICK, 0);
  }

  lemma WakeConserves(g: Group, c: Ctx, start: nat, addr: nat, count: nat)
    requires GroupOk(g)
    ensures Conserved(g, c, Min(|At(g.queues, addr)|, count), false, Serve(g, c, start, FutexWake(addr, count)))
  {
    hide Seated, Conserved, SwapNext, Requeue, Find, At;
    RequeuedCaller(g, addr, 0, count, 0);
    WakeCount(g, addr, count);
    var (p, n) := Requeue(g, addr, 0, count, 0);
    SwapOk(p, c, n);
    GivesWay(g, p, c, n, false);
    GoesStraightOn(g, p, c, n);
  }

  lemma MoveConserves(g: Group, c: Ctx, start: nat, call: Call)
    requires GroupOk(g) && call.FutexRequeue?
    ensures Conserved(g, c, Result(g, start, call), false, Serve(g, c, start, call))
  {
    hide Seated, Conserved, Requeue, Find, At, Requeued;
    RequeuedCaller(g, call.from, call.to, call.wake, call.move);
    if call.from != call.to { RequeueSpec(g, call.from, call.to, call.wake, call.move); }
    var (p, n) := Requeue(g, call.from, call.to, call.wake, call.move);
    GoesStraightOn(g, p, c, n);
  }

  lemma ReadConserves(g: Group, c: Ctx, start: nat)
    requires GroupOk(g)
    ensures Conserved(g, c, 0, false, Serve(g, c, start, ReadClock))
  {
    hide Seated, Conserved, SwapNext, Advance, Find;
    AnswersAtOnce(g, c, 0);
    LaterConserves(g, c, TICK, 0);
  }

  lemma LockConserves(g: Group, c: Ctx, addr: nat, word: nat)
    requires GroupOk(g) && LockPi(g, c, addr, word).1.Ran?
    ensures Conserved(g, c, 0, false, LockPi(g, c, addr, word).1)
  {
    hide Seated, Conserved, ParkMe, Find;
    AnswersAtOnce(g, c, 0);
    if word != 0 { ParkConserves(g, c, addr, 0); }
  }

  /** Every call but those that make or end a thread, or name the word its end
      clears. */
  lemma MostConserve(g: Group, c: Ctx, start: nat, call: Call)
    requires GroupOk(g) && Serve(g, c, start, call).Ran? && !call.EndThread? && !call.SetTidAddress? && !(call.Clone? && call.area != 0)
    ensures Conserved(g, c, Result(g, start, call), MayTimeOut(g, start, call), Serve(g, c, start, call))
  {
    hide Seated, Conserved, SwapNext, ParkMe, WaitUntil, Requeue, UnlockPi, SchedYield, Later, At, Find, TimedResult, DueAt, LockPi;
    match call {
      case FutexWait(addr, word, compare) => WaitConserves(g, c, addr, word, compare);
      case FutexWaitFor(_, _, _, _, _) => TimedConserves(g, c, start, call);
      case FutexWaitTill(_, _, _, _, _) => TimedConserves(g, c, start, call);
      case FutexWake(addr, count) => WakeConserves(g, c, start, addr, count);
      case FutexRequeue(_, _, _, _) => MoveConserves(g, c, start, call);
      case FutexLock(addr, word) => LockConserves(g, c, addr, word);
      case FutexUnlock(addr) => UnlockConserves(g, c, addr);
      case ReadClock => ReadConserves(g, c, start);
      case Sleep(_, _) => SleepConserves(g, c, start, call);
      case SleepTill(_, _) => SleepConserves(g, c, start, call);
      case YieldCpu => YieldConserves(g, c);
      case Clone(_, _, _) =>
        AnswersAtOnce(g, c, INVALID);
    }
  }

  /** The word a thread's end clears is the one it named last. */
  predicate OwnWord(g: Group, call: Call, r: Outcome) {
    && Live(g.threads, g.active) && r.Ran? && Live(r.group.threads, g.active)
    && Get(r.group.threads, g.active).tidAddress == if call.SetTidAddress? then call.addr else Get(g.threads, g.active).tidAddress
  }

  /** What any call does to what the threads will go on with: every other thread
      as it was; the caller in the context it called from, with what the call came
      to; and a new thread in the context it was made with. Threads come only by a
      clone and go only by their own end. */
  lemma ServeConserves(g: Group, c: Ctx, start: nat, call: Call)
    requires GroupOk(g) && Serve(g, c, start, call).Ran?
    ensures var r := Serve(g, c, start, call);
            && OthersKept(g, r)
            && (forall u :: Live(r.group.threads, u) <==>
                  (Live(g.threads, u) && !(call.EndThread? && u == g.active)) || (u == g.nextTid && call.Clone? && call.area != 0))
            && (call.EndThread? || (GoesOn(r, g.active, c, Result(g, start, call), MayTimeOut(g, start, call)) && OwnWord(g, call, r)))
            && (call.Clone? && call.area != 0 ==>
                  GoesOn(r, g.nextTid, Ctx(call.rsp, call.area), 0, false) && Get(r.group.threads, g.nextTid).tidAddress == call.tidAddress)
  {
    hide Seated, SwapNext, ParkMe, WaitUntil, Requeue, UnlockPi, SchedYield, Later, At, Find, LockPi, OwnKept, GoesOn, OthersKept, Exit, Spawn;
    var r := Serve(g, c, start, call);
    if call.EndThread? {
      ExitConserves(g, c);
    } else if call.SetTidAddress? {
      SetTidConserves(g, c, call.addr);
      forall u ensures Live(r.group.threads, u) <==> Live(g.threads, u) { SameFinds(g.threads, r.group.threads, u); }
    } else if call.Clone? && call.area != 0 {
      SpawnConserves(g, c, call.rsp, call.area, call.tidAddress);
    } else {
      MostConserve(g, c, start, call);
      hide Serve;
      forall u ensures Live(r.group.threads, u) <==> Live(g.threads, u) { SameFinds(g.threads, r.group.threads, u); }
    }
  }

  /** After every call. */
  lemma GoesOnIn(g: Group, c: Ctx, start: nat, call: Call)
    requires GroupOk(g) && Serve(g, c, start, call).Ran?
    ensures var r := Serve(g, c, start, call);
            ChosenIn(g, c, r.group.active, r.ctx)
  {
    hide Seated, Serve, Find;
    ServeConserves(g, c, start, call);
    ServeOk(g, c, start, call);
    ServeActive(g, c, start, call);
    var r := Serve(g, c, start, call);
    if r.group.active != g.active { assert OwnKept(r, Get(g.threads, r.group.active)); }
  }

  /** Nobody is chosen in the call that makes them. */
  lemma ServeActive(g: Group, c: Ctx, start: nat, call: Call)
    requires GroupOk(g) && Serve(g, c, start, call).Ran?
    ensures Live(g.threads, Serve(g, c, start, call).group.active)
    ensures call.EndThread? ==> Serve(g, c, start, call).group.active != g.active
  {
    hide Seated, SwapNext, ParkMe, WaitUntil, Requeue, UnlockPi, SchedYield, Later, At, Find, LockPi, Exit, Insert, OthersKept, GoesOn;
    ServeConserves(g, c, start, call);
    ServeOk(g, c, start, call);
    if call.EndThread? { ExitOk(g, c); }
  }

  // ---- over runs ----

  /** A call, and the context its caller makes it in. */
  datatype Turn = Turn(ctx: Ctx, call: Call)

  /** Where turn after turn leads. */
  ghost function After(o: Outcome, start: nat, turns: seq<Turn>): Outcome
    decreases |turns|
  {
    if turns == [] || o.Deadlock? || !Live(o.group.threads, o.group.active) then o
    else After(Serve(o.group, turns[0].ctx, start, turns[0].call), start, turns[1..])
  }

  /** Every one of the turns is somebody else's. */
  ghost predicate Away(o: Outcome, start: nat, turns: seq<Turn>, u: nat)
    decreases |turns|
  {
    turns == [] || o.Deadlock? || !Live(o.group.threads, o.group.active)
    || (o.group.active != u && Away(Serve(o.group, turns[0].ctx, start, turns[0].call), start, turns[1..], u))
  }

  /** Whatever the others do, as long as they like, a thread stays, and next goes
      on where it was, with what it was owed or the timeout. */
  lemma {:induction false} AwayKeeps(o: Outcome, start: nat, turns: seq<Turn>, u: nat)
    requires o.Ran? && GroupOk(o.group) && Live(o.group.threads, u) && Away(o, start, turns, u)
    ensures var k := After(o, start, turns); k.Ran? ==> GroupOk(k.group) && OwnKept(k, Record(o, u))
    decreases |turns|
  {
    hide Seated, Serve, Find, Carried;
    CarriedSame(Record(o, u));
    if turns != [] {
      var t := turns[0];
      var r := Serve(o.group, t.ctx, start, t.call);
      if r.Ran? {
        ServeOk(o.group, t.ctx, start, t.call);
        ServeConserves(o.group, t.ctx, start, t.call);
        assert OwnKept(r, Get(o.group.threads, u));
        AwayKeeps(r, start, turns[1..], u);
        var k := After(r, start, turns[1..]);
        if k.Ran? { CarriedTwice(Record(o, u), Record(r, u), Record(k, u)); }
      }
    }
  }

  lemma CarriedTwice(a: Thread, b: Thread, d: Thread)
    requires Carried(a, b) && Carried(b, d)
    ensures Carried(a, d)
  {
  }

  /** A thread that gave way in a call made in context c next goes on in exactly
      c, whoever runs between and however long. */
  lemma GaveWay(g: Group, c: Ctx, start: nat, call: Call, turns: seq<Turn>)
    requires GroupOk(g) && !call.EndThread? && Serve(g, c, start, call).Ran? && Away(Serve(g, c, start, call), start, turns, g.active)
    ensures var k := After(Serve(g, c, start, call), start, turns);
            k.Ran? ==> && GroupOk(k.group) && GoesOn(k, g.active, c, Result(g, start, call), MayTimeOut(g, start, call))
                       && (k.group.active == g.active ==> k.ctx == c)
  {
    hide Seated, Serve, Find, Result, MayTimeOut, After, Away;
    var r := Serve(g, c, start, call);
    ServeOk(g, c, start, call);
    ServeConserves(g, c, start, call);
    AwayKeeps(r, start, turns, g.active);
  }
}
