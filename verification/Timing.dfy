/** Virtual time call by call: where the clock stands after each, and the moment
    a timed wait waits for, in nanoseconds of the guest's own numbers. */
module Timing {
  import opened Pages
  import opened Queues
  import opened Threads
  import opened ThreadLaws
  import opened ThreadRuns

  // ---- the guest's times ----

  function Span(sec: nat, nsec: nat): nat {
    sec * 1_000_000_000 + nsec
  }

  /** A kit of revision 2 stops at the ceiling; an earlier one wraps at
      sixty-four bits. */
  function Fit(kit2: bool, t: nat): nat {
    if kit2 then Min(CLOCK_MAX, t) else t % U64
  }

  /** A time of day, on the clock that starts at `start`: 0 for one before it. */
  function Moment(kit2: bool, start: nat, sec: nat, nsec: nat): nat {
    if Fit(kit2, Span(sec, nsec)) > start then Fit(kit2, Span(sec, nsec)) - start else 0
  }

  lemma AddFits(kit2: bool, a: nat, b: nat)
    ensures NsAdd(kit2, a, b) == Fit(kit2, a + b)
  {
  }

  lemma NsFits(kit2: bool, sec: nat, nsec: nat)
    requires nsec < 1_000_000_000
    ensures NsOf(kit2, sec, nsec) == Fit(kit2, Span(sec, nsec))
  {
  }

  /** A length of time from now, and a time of day. */
  lemma TimesFit(kit2: bool, clock: nat, start: nat, sec: nat, nsec: nat)
    requires nsec < 1_000_000_000
    ensures NsAdd(kit2, clock, NsOf(kit2, sec, nsec)) == Fit(kit2, clock + Span(sec, nsec))
    ensures PastStart(kit2, start, sec, nsec) == Moment(kit2, start, sec, nsec)
    ensures PastStart(kit2, start, sec, nsec) > clock ==>
              NsAdd(kit2, clock, PastStart(kit2, start, sec, nsec) - clock) == Moment(kit2, start, sec, nsec)
  {
    hide NsOf, NsAdd;
    NsFits(kit2, sec, nsec);
    var ns := NsOf(kit2, sec, nsec);
    AddFits(kit2, clock, ns);
    FitTwice(kit2, clock, Span(sec, nsec));
    var t := PastStart(kit2, start, sec, nsec);
    if t > clock { AddFits(kit2, clock, t - clock); }
  }

  lemma FitTwice(kit2: bool, a: nat, b: nat)
    ensures Fit(kit2, a + Fit(kit2, b)) == Fit(kit2, a + b)
  {
  }

  // ---- what a timed wait waits for ----

  predicate Timed(call: Call) {
    call.FutexWaitFor? || call.FutexWaitTill?
  }

  /** The moment it is due: so long from now, or a time of day. */
  function DueAt(g: Group, start: nat, call: Call): nat
    requires Timed(call) && TimeOk(call.sec, call.nsec)
  {
    if call.FutexWaitFor? then Fit(g.kit2, g.clock + Span(call.sec, call.nsec)) else Moment(g.kit2, start, call.sec, call.nsec)
  }

  /** A timed wait the machine takes for what it is. */
  predicate Waited(g: Group, call: Call) {
    Timed(call) && g.v3 && TimeOk(call.sec, call.nsec) && call.word == call.compare
  }

  lemma TimedIs(g: Group, c: Ctx, start: nat, call: Call)
    requires Live(g.threads, g.active) && Waited(g, call)
    ensures Serve(g, c, start, call) == WaitUntil(g, c, call.addr, call.compare, call.compare, DueAt(g, start, call))
  {
    hide WaitUntil, NsAdd, NsOf, PastStart, Moment, Fit;
    TimesFit(g.kit2, g.clock, start, call.sec, call.nsec);
  }

  /** A timed wait on machine spec 3: due already, it costs a tick and is handed
      the timeout; due later, the caller is parked until exactly then. */
  lemma TimedWaits(g: Group, c: Ctx, start: nat, call: Call)
    requires GroupOk(g) && Waited(g, call)
    ensures var r, due := Serve(g, c, start, call), DueAt(g, start, call);
            && r.Ran?
            && (if due > g.clock then ParkedOrDue(r.group, g.active, call.addr, due)
                else r.group.clock == Fit(g.kit2, g.clock + TICK)
                     && (if g.kit2 then WillSee(r.group, g.active, TIMED_OUT) else r.group.active == g.active && r.value == TIMED_OUT))
  {
    hide Seated, WaitUntil, DueAt, ParkedOrDue, WillSee, ExpireDue, NsAdd, Fit;
    TimedIs(g, c, start, call);
    WaitUntilParks(g, c, call.addr, call.compare, call.compare, DueAt(g, start, call));
    AddFits(g.kit2, g.clock, TICK);
    AdvanceClock(g, TICK);
  }

  lemma AdvanceClock(g: Group, ns: nat)
    ensures Advance(g, ns).clock == Fit(g.kit2, g.clock + ns) && Advance(g, ns).active == g.active
  {
    AddFits(g.kit2, g.clock, ns);
  }

  // ---- where the clock stands ----

  /** The clock after a call that leaves its caller able to run. */
  function ClockAfter(g: Group, start: nat, call: Call): nat {
    match call
    case ReadClock => if g.v3 then Fit(g.kit2, g.clock + TICK) else g.clock
    case Sleep(sec, nsec) => if g.v3 && TimeOk(sec, nsec) then Fit(g.kit2, g.clock + Span(sec, nsec)) else g.clock
    case SleepTill(sec, nsec) =>
      if g.v3 && TimeOk(sec, nsec) && Moment(g.kit2, start, sec, nsec) > g.clock then Moment(g.kit2, start, sec, nsec) else g.clock
    case YieldCpu =>
      if g.v3 && g.kit2 && !OthersRunnable(g.threads, g.active) && OthersTimed(g.threads, g.active) then Fit(true, g.clock + TICK)
      else g.clock
    case _ => if Waited(g, call) then Fit(g.kit2, g.clock + TICK) else g.clock
  }

  /** A call that parks its caller: until its moment, or for good. */
  predicate ParksCaller(g: Group, start: nat, call: Call) {
    match call
    case FutexWait(_, word, compare) => word == compare
    case FutexWaitFor(_, word, compare, _, _) => word == compare && (!g.v3 || (Waited(g, call) && DueAt(g, start, call) > g.clock))
    case FutexWaitTill(_, word, compare, _, _) => word == compare && (!g.v3 || (Waited(g, call) && DueAt(g, start, call) > g.clock))
    case FutexLock(_, word) => word != 0
    case _ => false
  }

  lemma SwapClock(g: Group, c: Ctx, ret: nat)
    requires GroupOk(g)
    ensures SwapNext(g, c, ret).Ran? && SwapNext(g, c, ret).group.clock == g.clock
  {
    hide Seated, SwapNext, WillSee;
    SwapRunning(g, c, ret);
  }

  lemma LaterClock(g: Group, c: Ctx, ns: nat)
    requires GroupOk(g)
    ensures Later(g, c, ns).Ran? && Later(g, c, ns).group.clock == Fit(g.kit2, g.clock + ns)
  {
    hide Seated, SwapNext, Advance, Fit;
    AdvanceKeeps(g, ns);
    AdvanceClock(g, ns);
    SwapClock(Advance(g, ns), c, 0);
  }

  lemma UnlockClock(g: Group, c: Ctx, addr: nat)
    requires GroupOk(g)
    ensures UnlockPi(g, c, addr).1.Ran? && UnlockPi(g, c, addr).1.group.clock == g.clock
  {
    hide Seated, Find, Get, Set, At, Put;
    UnlockPiOk(g, c, addr);
  }

  lemma WaitRefused(g: Group, c: Ctx, addr: nat, word: nat, compare: nat, deadline: nat)
    requires Live(g.threads, g.active) && word != compare
    ensures WaitUntil(g, c, addr, word, compare, deadline) == Ran(g, c, TRY_AGAIN)
  {
  }

  /** Time passes as the call says, and no other way, while its caller can run. */
  lemma ServeClock(g: Group, c: Ctx, start: nat, call: Call)
    requires GroupOk(g) && !ParksCaller(g, start, call) && !call.EndThread?
    ensures var r := Serve(g, c, start, call); r.Ran? && r.group.clock == ClockAfter(g, start, call)
  {
    hide Seated, SwapNext, ParkMe, WaitUntil, Requeue, Exit, UnlockPi, Insert, Advance, Find, Get, Set, NsAdd, NsOf, PastStart,
         Later, DueAt, Fit, Moment, ParkedOrDue, WillSee;
    if Waited(g, call) { TimedWaits(g, c, start, call); }
    match call {
      case FutexWaitFor(addr, word, compare, sec, nsec) =>
        if word != compare && TimeOk(sec, nsec) {
          WaitRefused(g, c, addr, word, compare, NsAdd(g.kit2, g.clock, NsOf(g.kit2, sec, nsec)));
        }
      case FutexWaitTill(addr, word, compare, sec, nsec) =>
        if word != compare && TimeOk(sec, nsec) { WaitRefused(g, c, addr, word, compare, PastStart(g.kit2, start, sec, nsec)); }
      case FutexWake(addr, count) =>
        RequeueOk(g, addr, 0, count, 0);
        RequeueKeeps(g, addr, 0, count, 0);
        SwapClock(Requeue(g, addr, 0, count, 0).0, c, Requeue(g, addr, 0, count, 0).1);
      case FutexRequeue(from, to, wake, move) => RequeueKeeps(g, from, to, wake, move);
      case FutexUnlock(addr) => UnlockClock(g, c, addr);
      case ReadClock => LaterClock(g, c, TICK);
      case Sleep(sec, nsec) =>
        SwapClock(g, c, 0);
        if TimeOk(sec, nsec) {
          LaterClock(g, c, NsOf(g.kit2, sec, nsec));
          TimesFit(g.kit2, g.clock, start, sec, nsec);
          AddFits(g.kit2, g.clock, NsOf(g.kit2, sec, nsec));
        }
      case SleepTill(sec, nsec) =>
        SwapClock(g, c, 0);
        if TimeOk(sec, nsec) && PastStart(g.kit2, start, sec, nsec) > g.clock {
          LaterClock(g, c, PastStart(g.kit2, start, sec, nsec) - g.clock);
          AddFits(g.kit2, g.clock, PastStart(g.kit2, start, sec, nsec) - g.clock);
        }
        if TimeOk(sec, nsec) { TimesFit(g.kit2, g.clock, start, sec, nsec); }
      case YieldCpu =>
        SwapClock(g, c, 0);
        AdvanceKeeps(g, TICK);
        AdvanceClock(g, TICK);
        SwapClock(Advance(g, TICK), c, 0);
      case _ =>
    }
  }

  /** A clock read tells the guest the time the clock then stands at. */
  lemma ClockTold(g: Group, c: Ctx, start: nat)
    requires GroupOk(g)
    ensures var r := Serve(g, c, start, ReadClock);
            r.Ran? && GuestWord(g, c, start, ReadClock) == Some(start + if g.v3 then r.group.clock else 0)
  {
    hide Seated, Advance, SwapNext;
    LaterClock(g, c, TICK);
    AdvanceClock(g, TICK);
  }

  // ---- and when nobody can run ----

  /** The first moment anybody but the caller is parked until, or the caller's
      own, 0 for none. */
  ghost predicate ForwardTo(g: Group, own: nat, t: nat) {
    && t != 0 && (own != 0 ==> t <= own)
    && (forall i | 0 <= i < |g.threads| && g.threads[i].tid != g.active && g.threads[i].deadline != 0 :: t <= g.threads[i].deadline)
    && (t == own || exists i | 0 <= i < |g.threads| :: g.threads[i].tid != g.active && g.threads[i].deadline == t)
  }

  /** While another thread can run the clock stands; else it goes forward to the
      first moment somebody is due, and no further. */
  ghost predicate WaitsForward(g: Group, own: nat, t: nat) {
    if OthersParked(g.threads, g.active) then g.v3 && ForwardTo(g, own, t) else t == g.clock
  }

  lemma ScheduleForward(s: Group)
    requires TidsBelow(s.threads, s.nextTid) && Schedule(s).Some?
    ensures var f := Schedule(s).value.0;
            if AllParked(s.threads) then s.v3 && f.clock == Earliest(s.threads) != 0 else f.clock == s.clock
  {
    hide Earliest, ExpireDue;
    ExpireSame(s.(clock := Earliest(s.threads)));
    if !AllParked(s.threads) {
      var i :| 0 <= i < |s.threads| && !s.threads[i].waiting;
      assert s.threads[i].tid > 0;
    }
  }

  lemma SwapForward(p: Group, c: Ctx, ret: nat)
    requires TidsBelow(p.threads, p.nextTid) && Live(p.threads, p.active)
    ensures var r := SwapNext(p, c, ret);
            r.Ran? ==> if AllParked(p.threads) then p.v3 && r.group.clock == Earliest(p.threads) != 0 else r.group.clock == p.clock
  {
    hide Find, Schedule, Earliest, Get, Set;
    var s := Stored(p, c, ret);
    StoredEarliest(p, c, ret);
    if Schedule(s).Some? { ScheduleForward(s); }
  }

  lemma StoredEarliest(p: Group, c: Ctx, ret: nat)
    requires Live(p.threads, p.active)
    ensures var us := Stored(p, c, ret).threads;
            && |us| == |p.threads| && Earliest(us) == Earliest(p.threads)
            && forall i | 0 <= i < |us| :: us[i].tid == p.threads[i].tid && us[i].waiting == p.threads[i].waiting
  {
    hide Find;
    EarliestAlike(p.threads, Stored(p, c, ret).threads);
  }

  lemma EarliestAlike(ts: seq<Thread>, us: seq<Thread>)
    requires |ts| == |us| && forall i | 0 <= i < |ts| :: us[i].waiting == ts[i].waiting && us[i].deadline == ts[i].deadline
    ensures Earliest(us) == Earliest(ts)
  {
  }

  /** The caller parked, with a deadline or without. */
  lemma ParkForward(g: Group, p: Group, th: Thread, c: Ctx, ret: nat)
    requires GroupOk(g) && th.tid == g.active && th.waiting && p.threads == Set(g.threads, th)
    requires p.active == g.active && p.nextTid == g.nextTid && p.clock == g.clock && p.v3 == g.v3 && Live(p.threads, p.active)
    ensures SwapNext(p, c, ret).Ran? ==> WaitsForward(g, th.deadline, SwapNext(p, c, ret).group.clock)
  {
    hide Accounted, QueuesOk, SwapNext, Find;
    ParkedAll(g, th);
    SwapForward(p, c, ret);
    ActiveAt(g);
    var a := Find(g.threads, g.active);
    forall i | 0 <= i < |p.threads| ensures p.threads[i] == (if i == a then th else g.threads[i]) && (i != a ==> g.threads[i].tid != g.active) {
    }
  }

  /** A call that parks its caller lets time pass only when nobody else can run,
      and then to the first moment somebody is due. */
  lemma ParkClock(g: Group, c: Ctx, start: nat, call: Call)
    requires GroupOk(g) && ParksCaller(g, start, call)
    ensures var r := Serve(g, c, start, call);
            r.Ran? ==> WaitsForward(g, if Waited(g, call) then DueAt(g, start, call) else 0, r.group.clock)
  {
    hide Seated, SwapNext, WaitsForward, DueAt, Find, Put, At;
    ActiveRuns(g);
    var me := Get(g.threads, g.active);
    var th := Park(me);
    SetLive(g.threads, th, g.active);
    if Waited(g, call) {
      hide Serve;
      TimedIs(g, c, start, call);
      var due := DueAt(g, start, call);
      SetLive(g.threads, th.(deadline := due, order := g.parked + 1), g.active);
      ParkForward(g, ParkUntil(g, call.addr, due), th.(deadline := due, order := g.parked + 1), c, 0);
    } else {
      ParkForward(g, ParkOn(g, call.addr, g.active), th, c, 0);
    }
  }

  /** So does a thread's end, unless it wakes its joiner. */
  lemma EndClock(g: Group, c: Ctx)
    requires GroupOk(g) && Exit(g, c).Ran?
    ensures if HasJoiner(g) then Exit(g, c).group.clock == g.clock else WaitsForward(g, 0, Exit(g, c).group.clock)
  {
    hide Seated, SwapNext, WaitsForward, Find, Unpark, At, Remove;
    var addr := Get(g.threads, g.active).tidAddress;
    UnparkActive(g, addr);
    UnparkIs(g, addr);
    var w := if addr != 0 then Unpark(g, addr).0 else g;
    ActiveRuns(w);
    var th := Park(Get(w.threads, w.active));
    SetLive(w.threads, th, w.active);
    ParkForward(w, w.(threads := Set(w.threads, th)), th, c, 0);
    if HasJoiner(g) { JoinerUp(g); }
  }

  lemma JoinerUp(g: Group)
    requires GroupOk(g) && HasJoiner(g)
    ensures var w := Unpark(g, Get(g.threads, g.active).tidAddress).0; !OthersParked(w.threads, w.active) && w.clock == g.clock
    ensures var w := Unpark(g, Get(g.threads, g.active).tidAddress).0; forall own, t :: WaitsForward(w, own, t) ==> t == g.clock
  {
    hide Seated, At, Put;
    var addr := Get(g.threads, g.active).tidAddress;
    UnparkActive(g, addr);
    WokenIs(g, addr);
    var w, u := Unpark(g, addr).0, At(g.queues, addr)[0];
    assert w.threads[Find(w.threads, u)].tid == u && !w.threads[Find(w.threads, u)].waiting;
  }
}
