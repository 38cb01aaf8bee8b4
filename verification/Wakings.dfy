/** Who stops waiting, and who does not: over every call, exactly the threads it
    wakes and those whose moment has come. */
module Wakings {
  import opened Pages
  import opened Queues
  import opened Threads
  import opened ThreadLaws
  import opened ThreadRuns
  import opened Timing
  import opened Contexts

  /** Whom a call wakes: the first of those waiting on its word, as many as it
      asks for, in the order they came. */
  function Called(g: Group, call: Call): seq<nat>
    requires Live(g.threads, g.active)
  {
    match call
    case FutexWake(addr, count) => First(At(g.queues, addr), count)
    case FutexRequeue(from, _, wake, _) => First(At(g.queues, from), wake)
    case FutexUnlock(addr) => First(At(g.queues, addr), 1)
    case EndThread =>
      var addr := Get(g.threads, g.active).tidAddress;
      if addr != 0 then First(At(g.queues, addr), 1) else []
    case _ => []
  }

  function First(q: seq<nat>, n: nat): seq<nat> {
    q[..Min(|q|, n)]
  }

  predicate ComeBy(th: Thread, clock: nat) {
    th.deadline != 0 && th.deadline <= clock
  }

  /** The same threads, but for `me` waiting exactly if they were, are not among
      those woken, and have no deadline that has come. */
  predicate WaitOn(ts: seq<Thread>, us: seq<Thread>, woken: seq<nat>, clock: nat, me: nat) {
    && SameTids(ts, us)
    && forall i | 0 <= i < |ts| && ts[i].tid != me ::
         us[i].waiting <==> ts[i].waiting && ts[i].tid !in woken && !ComeBy(ts[i], clock)
  }

  /** The same threads, those woken apart waiting and due as they were. */
  predicate Roused(ts: seq<Thread>, us: seq<Thread>, woken: seq<nat>, me: nat) {
    && SameTids(ts, us)
    && forall i | 0 <= i < |ts| && ts[i].tid != me ::
         && (us[i].waiting <==> ts[i].waiting && ts[i].tid !in woken)
         && (us[i].waiting ==> us[i].deadline == ts[i].deadline)
  }

  lemma RousedThen(ts: seq<Thread>, us: seq<Thread>, vs: seq<Thread>, woken: seq<nat>, clock: nat, me: nat)
    requires Roused(ts, us, woken, me) && WaitOn(us, vs, [], clock, me)
    ensures WaitOn(ts, vs, woken, clock, me)
  {
  }

  lemma SetRouses(ts: seq<Thread>, th: Thread)
    requires Live(ts, th.tid)
    ensures Roused(ts, Set(ts, th), [], th.tid)
  {
  }

  lemma UnparkRouses(g: Group, addr: nat, me: nat)
    requires Seated(g)
    ensures Roused(g.threads, Unpark(g, addr).0.threads, First(At(g.queues, addr), 1), me)
  {
    hide QueuesOk, Accounted, At, Put;
    UnparkIs(g, addr);
    var ts, q := g.threads, At(g.queues, addr);
    if q != [] {
      var k := Find(ts, q[0]);
      assert First(q, 1) == [q[0]];
      forall i | 0 <= i < |ts| ensures ts[i].tid == q[0] <==> i == k { FindUnique(ts, i); }
    }
  }

  lemma SelfRouses(ts: seq<Thread>, me: nat)
    ensures Roused(ts, ts, [], me)
  {
  }

  // ---- the clock ----

  /** Every deadline is still to come. */
  predicate Ahead(g: Group) {
    forall i | 0 <= i < |g.threads| && g.threads[i].deadline != 0 :: g.clock < g.threads[i].deadline
  }

  lemma UnparkAhead(g: Group, addr: nat)
    requires Ahead(g)
    ensures Ahead(Unpark(g, addr).0)
  {
    hide Put, At, Find;
  }

  lemma ExpireWaits(g: Group, me: nat)
    requires Ascending(g.threads)
    ensures WaitOn(g.threads, ExpireDue(g).threads, [], g.clock, me)
  {
    hide Purge, DueTids;
    forall i | 0 <= i < |g.threads| ensures ExpireDue(g).threads[i].tid == g.threads[i].tid { ExpiredExactly(g, i); }
    forall i | 0 <= i < |g.threads|
      ensures ExpireDue(g).threads[i].waiting <==> g.threads[i].waiting && !ComeBy(g.threads[i], g.clock)
    {
      ExpiredExactly(g, i);
    }
  }

  /** The switch wakes only those whose moment the clock has gone forward to. */
  lemma SwapWaits(p: Group, c: Ctx, ret: nat, me: nat)
    requires Ascending(p.threads) && Live(p.threads, p.active) && Ahead(p) && SwapNext(p, c, ret).Ran?
    ensures var r := SwapNext(p, c, ret); WaitOn(p.threads, r.group.threads, [], r.group.clock, me)
  {
    hide Earliest, ExpireDue, NextTid, Find;
    var s := Stored(p, c, ret);
    var h := s.(clock := Earliest(s.threads));
    assert SameTids(p.threads, s.threads);
    assert forall i | 0 <= i < |p.threads| :: s.threads[i].waiting == p.threads[i].waiting && s.threads[i].deadline == p.threads[i].deadline;
    SameRises(p.threads, s.threads);
    ExpireWaits(h, me);
    ExpireSame(h);
  }

  lemma SameRises(ts: seq<Thread>, us: seq<Thread>)
    requires SameTids(ts, us) && Ascending(ts)
    ensures Ascending(us)
  {
  }

  /** While the caller can run no moment comes. */
  lemma RunningWaits(p: Group, c: Ctx, ret: nat, me: nat)
    requires GroupOk(p)
    ensures var r := SwapNext(p, c, ret); r.Ran? && Roused(p.threads, r.group.threads, [], me) && r.group.clock == p.clock
  {
    hide Accounted, QueuesOk, NextTid, Find;
    SwapRunning(p, c, ret);
    var s := Stored(p, c, ret);
    StoredKeeps(p, c, ret);
    NextExists(s);
    assert !s.threads[Find(p.threads, p.active)].waiting by { SetFinds(p.threads, Caller(p, c, ret), p.active); }
  }

  lemma RousedOnly(ts: seq<Thread>, us: seq<Thread>, vs: seq<Thread>, woken: seq<nat>, clock: nat, me: nat)
    requires WaitOn(ts, us, woken, clock, me) && Roused(us, vs, [], me)
    ensures WaitOn(ts, vs, woken, clock, me)
  {
  }

  /** Time passes for everybody, then somebody goes on. */
  lemma LaterWaits(g: Group, c: Ctx, ns: nat, ret: nat)
    requires GroupOk(g)
    ensures var a := Advance(g, ns);
            && Live(a.threads, a.active) && WaitOn(g.threads, a.threads, [], a.clock, g.active)
            && var r := SwapNext(a, c, ret);
               r.Ran? && WaitOn(g.threads, r.group.threads, [], r.group.clock, g.active)
  {
    hide Seated, SwapNext, ExpireDue, Find, WaitOn, Roused;
    var a := Advance(g, ns);
    AscendsOk(g);
    ExpireWaits(g.(clock := NsAdd(g.kit2, g.clock, ns)), g.active);
    ExpireSame(g.(clock := NsAdd(g.kit2, g.clock, ns)));
    AdvanceKeeps(g, ns);
    RunningWaits(a, c, ret, g.active);
    RousedOnly(g.threads, a.threads, SwapNext(a, c, ret).group.threads, [], a.clock, g.active);
  }

  // ---- each call ----

  /** No time passed: nobody's moment came. */
  lemma SameTimeWaits(g: Group, us: seq<Thread>, woken: seq<nat>)
    requires Ahead(g) && Roused(g.threads, us, woken, g.active)
    ensures WaitOn(g.threads, us, woken, g.clock, g.active)
  {
  }

  lemma StayWaits(g: Group)
    requires Ahead(g)
    ensures WaitOn(g.threads, g.threads, [], g.clock, g.active)
  {
  }

  /** The caller parks, with a deadline or without. */
  lemma ParkWaits(g: Group, p: Group, th: Thread, c: Ctx, ret: nat)
    requires GroupOk(g) && Ahead(g) && th.tid == g.active && (th.deadline != 0 ==> g.clock < th.deadline)
    requires p.threads == Set(g.threads, th) && p.active == g.active && p.clock == g.clock && Live(p.threads, p.active)
    ensures var r := SwapNext(p, c, ret); r.Ran? ==> WaitOn(g.threads, r.group.threads, [], r.group.clock, g.active)
  {
    hide Seated, SwapNext, Find;
    AscendsOk(g);
    assert Ahead(p);
    SetRouses(g.threads, th);
    SameRises(g.threads, p.threads);
    if SwapNext(p, c, ret).Ran? {
      var r := SwapNext(p, c, ret);
      SwapWaits(p, c, ret, g.active);
      RousedThen(g.threads, p.threads, r.group.threads, [], r.group.clock, g.active);
    }
  }

  lemma {:induction false} RequeueRouses(g: Group, from: nat, to: nat, wake: nat, move: nat)
    requires Seated(g)
    ensures forall u: nat :: IsWaiting(Requeue(g, from, to, wake, move).0.threads, u) <==>
                               IsWaiting(g.threads, u) && u !in First(At(g.queues, from), wake)
    decreases wake + move
  {
    hide Seated, Requeue, At, Unpark, ParkOn, Find;
    var q := At(g.queues, from);
    if wake + move == 0 || q == [] {
      RequeueStop(g, from, to, wake, move);
    } else {
      var g1 := Unpark(g, from).0;
      UnparkKeeps(g, from);
      UnparkFresh(g, from);
      UnparkAt(g, from, from);
      forall u: nat ensures IsWaiting(g1.threads, u) == (IsWaiting(g.threads, u) && u != q[0]) { UnparkWaits(g, from, u); }
      UnparkWaits(g, from, q[0]);
      QueuedWaits(g, from, 0);
      if wake > 0 {
        RequeueWakes(g, from, to, wake, move);
        RequeueRouses(g1, from, to, wake - 1, move);
        assert First(q, wake) == [q[0]] + First(q[1..], wake - 1);
        if |q| == 1 { assert First(q, wake) == [q[0]]; }
      } else {
        RequeueMoves(g, from, to, move);
        MoveOn(g1, to, q[0]);
        RequeueRouses(ParkOn(g1, to, q[0]), from, to, 0, move - 1);
        assert First(q, 0) == [];
      }
    }
  }

  /** What each thread's waiting comes to, by tid. */
  ghost predicate Settles(g: Group, r: Outcome, woken: seq<nat>) {
    r.Ran? && forall u: nat | u != g.active ::
      (IsWaiting(r.group.threads, u) <==>
         IsWaiting(g.threads, u) && u !in woken && !ComeBy(Get(g.threads, u), r.group.clock))
  }

  lemma SettlesBy(g: Group, r: Outcome, woken: seq<nat>)
    requires r.Ran? && WaitOn(g.threads, r.group.threads, woken, r.group.clock, g.active)
    ensures Settles(g, r, woken)
  {
    hide Find;
    forall u: nat | u != g.active
      ensures IsWaiting(r.group.threads, u) <==> IsWaiting(g.threads, u) && u !in woken && !ComeBy(Get(g.threads, u), r.group.clock)
    {
      SameFinds(g.threads, r.group.threads, u);
    }
  }

  /** Waits, timed or not, and locks. */
  lemma ParkSettles(g: Group, c: Ctx, start: nat, call: Call)
    requires GroupOk(g) && Ahead(g) && ParksCaller(g, start, call) && Serve(g, c, start, call).Ran?
    ensures Settles(g, Serve(g, c, start, call), [])
  {
    hide Seated, SwapNext, DueAt, Find, Put, At, WaitOn, Settles, Ahead;
    ActiveRuns(g);
    var th := Park(Get(g.threads, g.active));
    SetLive(g.threads, th, g.active);
    if Waited(g, call) {
      hide Serve;
      TimedIs(g, c, start, call);
      var due := DueAt(g, start, call);
      SetLive(g.threads, th.(deadline := due, order := g.parked + 1), g.active);
      ParkWaits(g, ParkUntil(g, call.addr, due), th.(deadline := due, order := g.parked + 1), c, 0);
    } else {
      ParkWaits(g, ParkOn(g, call.addr, g.active), th, c, 0);
    }
    SettlesBy(g, Serve(g, c, start, call), []);
  }

  lemma ExitSettles(g: Group, c: Ctx)
    requires GroupOk(g) && Ahead(g) && Exit(g, c).Ran?
    ensures Settles(g, Exit(g, c), Called(g, EndThread))
  {
    hide Seated, SwapNext, Find, Unpark, At, Remove, WaitOn, Roused, Ahead, Set, First;
    var addr := Get(g.threads, g.active).tidAddress;
    var w := if addr != 0 then Unpark(g, addr).0 else g;
    UnparkActive(g, addr);
    UnparkAhead(g, addr);
    UnparkRouses(g, addr, g.active);
    SelfRouses(g.threads, g.active);
    ActiveRuns(w);
    var th := Park(Get(w.threads, w.active));
    SetLive(w.threads, th, w.active);
    var out := w.(threads := Set(w.threads, th));
    ParkWaits(w, out, th, c, 0);
    var r := SwapNext(out, c, 0);
    RousedThen(g.threads, w.threads, r.group.threads, Called(g, EndThread), r.group.clock, g.active);
    SettlesBy(g, r, Called(g, EndThread));
    AscendsOk(g);
    WaitOnRises(g.threads, r.group.threads, Called(g, EndThread), r.group.clock, g.active);
    forall u: nat | u != g.active ensures IsWaiting(Exit(g, c).group.threads, u) == IsWaiting(r.group.threads, u) {
      RemovedFinds(r.group.threads, g.active, u);
    }
  }

  lemma WaitOnRises(ts: seq<Thread>, us: seq<Thread>, woken: seq<nat>, clock: nat, me: nat)
    requires WaitOn(ts, us, woken, clock, me) && Ascending(ts)
    ensures Ascending(us)
  {
  }

  lemma UnlockSettles(g: Group, c: Ctx, addr: nat)
    requires GroupOk(g) && Ahead(g)
    ensures Settles(g, UnlockPi(g, c, addr).1, First(At(g.queues, addr), 1))
  {
    hide Seated, Find, Unpark, At, First;
    UnlockPiOk(g, c, addr);
    UnparkActive(g, addr);
    UnparkRouses(g, addr, g.active);
    var (h, tid, more) := Unpark(g, addr);
    AscendsOk(h);
    UnparkSame(g, addr);
    var r := UnlockPi(g, c, addr).1;
    if tid.Some? {
      var mine := Caller(h, c, 0);
      SetRouses(h.threads, mine);
      assert Roused(g.threads, r.group.threads, First(At(g.queues, addr), 1), g.active);
    }
    SameTimeWaits(g, r.group.threads, First(At(g.queues, addr), 1));
    SettlesBy(g, r, First(At(g.queues, addr), 1));
  }

  lemma UnparkSame(g: Group, addr: nat)
    ensures Unpark(g, addr).0.clock == g.clock && Unpark(g, addr).0.active == g.active
  {
  }

  lemma RequeueSettles(g: Group, c: Ctx, from: nat, to: nat, wake: nat, move: nat)
    requires GroupOk(g) && Ahead(g)
    ensures var (p, n) := Requeue(g, from, to, wake, move);
            Settles(g, Ran(p, c, n), First(At(g.queues, from), wake)) && p.clock == g.clock
  {
    hide QueuesOk, Accounted, Requeue, At, First;
    RequeueRouses(g, from, to, wake, move);
    RequeueKeeps(g, from, to, wake, move);
  }

  lemma WakeSettles(g: Group, c: Ctx, start: nat, addr: nat, count: nat)
    requires GroupOk(g) && Ahead(g)
    ensures Settles(g, Serve(g, c, start, FutexWake(addr, count)), First(At(g.queues, addr), count))
  {
    hide Seated, Requeue, At, First, SwapNext, Find, Ahead;
    RequeueSettles(g, c, addr, 0, count, 0);
    RequeuedCaller(g, addr, 0, count, 0);
    var (p, n) := Requeue(g, addr, 0, count, 0);
    RunningWaits(p, c, n, g.active);
    var r := SwapNext(p, c, n);
    forall u: nat | u != g.active ensures IsWaiting(r.group.threads, u) == IsWaiting(p.threads, u) {
      SameFinds(p.threads, r.group.threads, u);
    }
  }

  /** Sleeps, clock reads, yields and waits already due. */
  lemma TimeSettles(g: Group, c: Ctx, ns: nat, ret: nat)
    requires GroupOk(g) && Ahead(g)
    ensures var a := Advance(g, ns);
            Live(a.threads, a.active) && Settles(g, Ran(a, c, ret), []) && Settles(g, SwapNext(a, c, ret), [])
    ensures Settles(g, Ran(g, c, ret), []) && Settles(g, SwapNext(g, c, ret), [])
  {
    hide Seated, Advance, SwapNext, WaitOn, Roused, Ahead, Settles, Find;
    LaterWaits(g, c, ns, ret);
    var a := Advance(g, ns);
    SettlesBy(g, Ran(a, c, ret), []);
    SettlesBy(g, SwapNext(a, c, ret), []);
    StayWaits(g);
    SettlesBy(g, Ran(g, c, ret), []);
    RunningWaits(g, c, ret, g.active);
    RousedOnly(g.threads, g.threads, SwapNext(g, c, ret).group.threads, [], g.clock, g.active);
    SettlesBy(g, SwapNext(g, c, ret), []);
  }

  lemma TimedSettles(g: Group, c: Ctx, start: nat, call: Call)
    requires GroupOk(g) && Ahead(g) && Timed(call) && !ParksCaller(g, start, call)
    ensures Settles(g, Serve(g, c, start, call), [])
  {
    hide Seated, Advance, SwapNext, Ahead, Settles, Find, NsAdd, NsOf, PastStart, Moment, Fit, ParkMe;
    TimeSettles(g, c, TICK, TIMED_OUT);
    TimeSettles(g, c, 0, INVALID);
    TimeSettles(g, c, 0, TRY_AGAIN);
    if Waited(g, call) { TimedIs(g, c, start, call); }
  }

  lemma OtherSettles(g: Group, c: Ctx, start: nat, call: Call)
    requires GroupOk(g) && Ahead(g) && (call.Sleep? || call.SleepTill? || call.ReadClock? || call.YieldCpu?)
    ensures Settles(g, Serve(g, c, start, call), [])
  {
    hide Seated, Advance, SwapNext, Ahead, Settles, Find, NsAdd, NsOf, PastStart;
    TimeSettles(g, c, TICK, 0);
    TimeSettles(g, c, 0, INVALID);
    if call.Sleep? && TimeOk(call.sec, call.nsec) { TimeSettles(g, c, NsOf(g.kit2, call.sec, call.nsec), 0); }
    if call.SleepTill? && TimeOk(call.sec, call.nsec) {
      var t := PastStart(g.kit2, start, call.sec, call.nsec);
      if t > g.clock { TimeSettles(g, c, t - g.clock, 0); }
    }
  }

  /** Threads made and named wake nobody. */
  lemma MadeSettles(g: Group, c: Ctx, start: nat, call: Call)
    requires GroupOk(g) && Ahead(g) && (call.Clone? || call.SetTidAddress?)
    ensures Settles(g, Serve(g, c, start, call), [])
  {
    hide QueuesOk, Accounted, Insert, Find;
    if call.SetTidAddress? {
      var th := Get(g.threads, g.active).(tidAddress := call.addr);
      SetRouses(g.threads, th);
      SameTimeWaits(g, Set(g.threads, th), []);
      SettlesBy(g, Serve(g, c, start, call), []);
    } else if call.area != 0 {
      var th := Thread(g.nextTid, false, 0, call.rsp, call.area, call.tidAddress, 0, 0);
      InsertLast(g.threads, th);
      forall u: nat ensures IsWaiting(g.threads + [th], u) == IsWaiting(g.threads, u) { FindAppended(g.threads, th, u); }
    }
  }

  /** Over every call, for every thread but its caller: it waits afterwards if and
      only if it waited, the call did not wake it, and it has no deadline that
      the clock has come to. */
  lemma ServeWakes(g: Group, c: Ctx, start: nat, call: Call)
    requires GroupOk(g) && Ahead(g) && Serve(g, c, start, call).Ran?
    ensures Settles(g, Serve(g, c, start, call), Called(g, call))
  {
    hide Seated, Settles, SwapNext, ParkMe, WaitUntil, Requeue, UnlockPi, SchedYield, Later, At, Find, DueAt, LockPi, Exit, Ahead, First;
    if ParksCaller(g, start, call) {
      ParkSettles(g, c, start, call);
    } else if Timed(call) {
      TimedSettles(g, c, start, call);
    } else {
      match call {
        case FutexWait(_, _, _) => TimeSettles(g, c, 0, TRY_AGAIN);
        case FutexWake(addr, count) => WakeSettles(g, c, start, addr, count);
        case FutexRequeue(from, to, wake, move) => RequeueSettles(g, c, from, to, wake, move);
        case FutexLock(addr, word) => LockFree(g, c, addr);
        case FutexUnlock(addr) => UnlockSettles(g, c, addr);
        case Clone(_, _, _) => MadeSettles(g, c, start, call);
        case SetTidAddress(_) => MadeSettles(g, c, start, call);
        case EndThread => ExitSettles(g, c);
        case _ => OtherSettles(g, c, start, call);
      }
    }
  }

  lemma LockFree(g: Group, c: Ctx, addr: nat)
    requires GroupOk(g) && Ahead(g)
    ensures LockPi(g, c, addr, 0).1 == Ran(g, c, 0) && Settles(g, Ran(g, c, 0), [])
  {
    hide Seated, Settles, Ahead, Find;
    TimeSettles(g, c, 0, 0);
  }
}
