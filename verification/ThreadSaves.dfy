/** A set of threads saved and loaded: the park orders are lost, and nothing a
    guest can see is lost with them. */
module ThreadSaves {
  import opened Pages
  import opened Queues
  import opened Threads
  import opened ThreadLaws
  import opened ThreadRuns

  // ---- alike but for the order they parked in ----

  predicate Same(a: Thread, b: Thread) {
    a.(order := 0) == b.(order := 0)
  }

  predicate AlikeThreads(ts: seq<Thread>, us: seq<Thread>) {
    |ts| == |us| && forall i | 0 <= i < |ts| :: Same(ts[i], us[i])
  }

  /** ... and, before machine spec 3, for a clock that nothing reads. */
  predicate Alike(g: Group, h: Group) {
    && AlikeThreads(g.threads, h.threads) && (g.v3 ==> g.clock == h.clock)
    && g == h.(threads := g.threads, parked := g.parked, clock := g.clock)
  }

  predicate AlikeOutcome(a: Outcome, b: Outcome) {
    match a
    case Deadlock => b == Deadlock
    case Ran(g, c, v) => b.Ran? && Alike(g, b.group) && c == b.ctx && v == b.value
  }

  lemma {:induction false} FindAlike(ts: seq<Thread>, us: seq<Thread>, u: nat)
    requires AlikeThreads(ts, us)
    ensures Find(ts, u) == Find(us, u) && (Live(ts, u) ==> Same(Get(ts, u), Get(us, u)))
  {
    if ts != [] {
      assert Same(ts[0], us[0]);
      assert AlikeThreads(ts[1..], us[1..]);
      FindAlike(ts[1..], us[1..], u);
    }
  }

  lemma SetAlike(ts: seq<Thread>, us: seq<Thread>, a: Thread, b: Thread)
    requires AlikeThreads(ts, us) && Same(a, b) && Live(ts, a.tid)
    ensures Live(us, b.tid) && AlikeThreads(Set(ts, a), Set(us, b))
  {
    FindAlike(ts, us, a.tid);
  }

  lemma {:induction false} StaleAlike(ts: seq<Thread>, us: seq<Thread>, tids: seq<nat>)
    requires AlikeThreads(ts, us)
    ensures Stale(ts, tids) == Stale(us, tids)
  {
    if tids != [] {
      FindAlike(ts, us, tids[0]);
      StaleAlike(ts, us, tids[1..]);
    }
  }

  lemma UnparkAlike(g: Group, h: Group, addr: nat)
    requires Alike(g, h)
    ensures var a, b := Unpark(g, addr), Unpark(h, addr); Alike(a.0, b.0) && a.1 == b.1 && a.2 == b.2
  {
    var q := At(g.queues, addr);
    StaleAlike(g.threads, h.threads, q);
    var k := Stale(g.threads, q);
    if k < |q| {
      FindAlike(g.threads, h.threads, q[k]);
      SetAlike(g.threads, h.threads, Wake(Get(g.threads, q[k])), Wake(Get(h.threads, q[k])));
    }
  }

  lemma ParkAlike(g: Group, h: Group, addr: nat, tid: nat)
    requires Alike(g, h) && Live(g.threads, tid)
    ensures Live(h.threads, tid) && Alike(ParkOn(g, addr, tid), ParkOn(h, addr, tid))
  {
    FindAlike(g.threads, h.threads, tid);
    SetAlike(g.threads, h.threads, Park(Get(g.threads, tid)), Park(Get(h.threads, tid)));
  }

  lemma {:induction false} RequeueAlike(g: Group, h: Group, from: nat, to: nat, wake: nat, move: nat)
    requires Alike(g, h)
    ensures var a, b := Requeue(g, from, to, wake, move), Requeue(h, from, to, wake, move); Alike(a.0, b.0) && a.1 == b.1
    decreases wake + move
  {
    hide Unpark, ParkOn, Alike, Find;
    if wake + move > 0 {
      UnparkAlike(g, h, from);
      var (g1, tid, more) := Unpark(g, from);
      var h1 := Unpark(h, from).0;
      if tid.Some? {
        LiveAlike(g1, h1, tid.value);
        if wake > 0 {
          RequeueAlike(g1, h1, from, to, wake - 1, move);
        } else {
          if Live(g1.threads, tid.value) { ParkAlike(g1, h1, to, tid.value); }
          var g2 := if !Live(g1.threads, tid.value) then g1 else ParkOn(g1, to, tid.value);
          var h2 := if !Live(h1.threads, tid.value) then h1 else ParkOn(h1, to, tid.value);
          RequeueAlike(g2, h2, from, to, 0, move - 1);
        }
      }
    }
  }

  lemma LiveAlike(g: Group, h: Group, u: nat)
    requires Alike(g, h)
    ensures Live(g.threads, u) == Live(h.threads, u) && g.active == h.active && (g.v3 ==> g.clock == h.clock)
    ensures g.v3 == h.v3 && g.kit2 == h.kit2 && g.nextTid == h.nextTid
    ensures Live(g.threads, u) ==> Same(Get(g.threads, u), Get(h.threads, u))
  {
    FindAlike(g.threads, h.threads, u);
  }

  // ---- expiry and scheduling ----

  lemma {:induction false} DueAlike(ts: seq<Thread>, us: seq<Thread>, clock: nat)
    requires AlikeThreads(ts, us)
    ensures DueTids(ts, clock) == DueTids(us, clock)
  {
    if ts != [] {
      assert Same(ts[0], us[0]);
      assert AlikeThreads(ts[1..], us[1..]);
      DueAlike(ts[1..], us[1..], clock);
    }
  }

  /** Expiry does not look at the order they parked in. */
  lemma ExpireAlike(g: Group, h: Group)
    requires Alike(g, h) && g.v3
    ensures Alike(ExpireDue(g), ExpireDue(h)) && ExpireDue(g).clock == ExpireDue(h).clock
  {
    hide DueTids, Purge;
    DueAlike(g.threads, h.threads, g.clock);
  }

  lemma {:induction false} AboveAlike(ts: seq<Thread>, us: seq<Thread>, after: nat)
    requires AlikeThreads(ts, us)
    ensures FirstAbove(ts, after) == FirstAbove(us, after)
  {
    if ts != [] {
      assert Same(ts[0], us[0]);
      assert AlikeThreads(ts[1..], us[1..]);
      AboveAlike(ts[1..], us[1..], after);
    }
  }

  lemma {:induction false} EarliestAlike(ts: seq<Thread>, us: seq<Thread>)
    requires AlikeThreads(ts, us)
    ensures Earliest(ts) == Earliest(us)
  {
    if ts != [] {
      assert Same(ts[0], us[0]);
      assert AlikeThreads(ts[1..], us[1..]);
      EarliestAlike(ts[1..], us[1..]);
    }
  }

  lemma ScheduleAlike(g: Group, h: Group)
    requires Alike(g, h)
    ensures match Schedule(g)
            case None => Schedule(h) == None
            case Some((f, tid)) => Schedule(h).Some? && Schedule(h).value.1 == tid && Alike(f, Schedule(h).value.0)
  {
    hide FirstAbove, Earliest, ExpireDue, AlikeThreads;
    AboveAlike(g.threads, h.threads, g.active);
    AboveAlike(g.threads, h.threads, 0);
    EarliestAlike(g.threads, h.threads);
    if g.v3 {
      var dl := Earliest(g.threads);
      ExpireAlike(g.(clock := dl), h.(clock := dl));
      var f, e := ExpireDue(g.(clock := dl)), ExpireDue(h.(clock := dl));
      AboveAlike(f.threads, e.threads, f.active);
      AboveAlike(f.threads, e.threads, 0);
    }
  }

  lemma StoredAlike(g: Group, h: Group, c: Ctx, ret: nat)
    requires Alike(g, h) && Live(g.threads, g.active)
    ensures Live(h.threads, h.active) && Alike(Stored(g, c, ret), Stored(h, c, ret))
  {
    hide Find;
    FindAlike(g.threads, h.threads, g.active);
    SetAlike(g.threads, h.threads, Get(g.threads, g.active).(rax := ret, rsp := c.rsp, area := c.area),
             Get(h.threads, h.active).(rax := ret, rsp := c.rsp, area := c.area));
  }

  lemma ResumeAlike(g: Group, h: Group, c: Ctx, tid: nat)
    requires Alike(g, h) && Live(g.threads, tid)
    ensures Live(h.threads, tid) && AlikeOutcome(Resume(g, c, tid), Resume(h, c, tid))
  {
    hide Find, AlikeThreads;
    FindAlike(g.threads, h.threads, tid);
  }

  lemma SwapAlike(g: Group, h: Group, c: Ctx, ret: nat)
    requires Alike(g, h) && Live(g.threads, g.active)
    ensures Live(h.threads, h.active) && AlikeOutcome(SwapNext(g, c, ret), SwapNext(h, c, ret))
  {
    hide Find, Schedule, Stored, Resume, Alike;
    StoredAlike(g, h, c, ret);
    var s, t := Stored(g, c, ret), Stored(h, c, ret);
    ScheduleAlike(s, t);
    if Schedule(s).Some? {
      LiveAlike(Schedule(s).value.0, Schedule(t).value.0, Schedule(s).value.1);
      if Live(Schedule(s).value.0.threads, Schedule(s).value.1) {
        ResumeAlike(Schedule(s).value.0, Schedule(t).value.0, c, Schedule(s).value.1);
      }
    }
  }

  lemma AdvanceAlike(g: Group, h: Group, ns: nat)
    requires Alike(g, h) && g.v3
    ensures Alike(Advance(g, ns), Advance(h, ns)) && Advance(g, ns).clock == Advance(h, ns).clock
  {
    hide ExpireDue;
    var clock := NsAdd(g.kit2, g.clock, ns);
    ExpireAlike(g.(clock := clock), h.(clock := clock));
  }

  // ---- the calls ----

  lemma ParkMeAlike(g: Group, h: Group, c: Ctx, addr: nat, ret: nat)
    requires Alike(g, h) && Live(g.threads, g.active)
    ensures Live(h.threads, h.active) && AlikeOutcome(ParkMe(g, c, addr, ret), ParkMe(h, c, addr, ret))
  {
    hide Find, SwapNext, ParkOn, AlikeThreads;
    LiveAlike(g, h, g.active);
    ParkAlike(g, h, addr, g.active);
    var p, q := ParkOn(g, addr, g.active), ParkOn(h, addr, g.active);
    LiveAlike(p, q, p.active);
    if Live(p.threads, p.active) { SwapAlike(p, q, c, ret); }
  }

  lemma ParkUntilAlike(g: Group, h: Group, addr: nat, deadline: nat)
    requires Alike(g, h) && Live(g.threads, g.active)
    ensures Live(h.threads, h.active) && Alike(ParkUntil(g, addr, deadline), ParkUntil(h, addr, deadline))
  {
    hide Find;
    FindAlike(g.threads, h.threads, g.active);
    SetAlike(g.threads, h.threads, Park(Get(g.threads, g.active)).(deadline := deadline, order := g.parked + 1),
             Park(Get(h.threads, h.active)).(deadline := deadline, order := h.parked + 1));
  }

  lemma WaitUntilAlike(g: Group, h: Group, c: Ctx, addr: nat, word: nat, compare: nat, deadline: nat)
    requires Alike(g, h) && Live(g.threads, g.active)
    ensures Live(h.threads, h.active)
    ensures AlikeOutcome(WaitUntil(g, c, addr, word, compare, deadline), WaitUntil(h, c, addr, word, compare, deadline))
  {
    hide Find, SwapNext, ParkMe, ParkUntil, Advance, AlikeThreads;
    LiveAlike(g, h, g.active);
    ParkMeAlike(g, h, c, addr, 0);
    if g.v3 {
      AdvanceAlike(g, h, TICK);
      var a, b := Advance(g, TICK), Advance(h, TICK);
      LiveAlike(a, b, a.active);
      if Live(a.threads, a.active) { SwapAlike(a, b, c, TIMED_OUT); }
    }
    ParkUntilAlike(g, h, addr, deadline);
    var p, q := ParkUntil(g, addr, deadline), ParkUntil(h, addr, deadline);
    LiveAlike(p, q, p.active);
    if Live(p.threads, p.active) { SwapAlike(p, q, c, 0); }
  }

  lemma LaterAlike(g: Group, h: Group, c: Ctx, ns: nat)
    requires Alike(g, h) && Live(g.threads, g.active) && g.v3
    ensures Live(h.threads, h.active) && AlikeOutcome(Later(g, c, ns), Later(h, c, ns))
    ensures Advance(g, ns).clock == Advance(h, ns).clock
  {
    hide Find, SwapNext, Advance, Alike;
    LiveAlike(g, h, g.active);
    AdvanceAlike(g, h, ns);
    var a, b := Advance(g, ns), Advance(h, ns);
    LiveAlike(a, b, a.active);
    if Live(a.threads, a.active) { SwapAlike(a, b, c, 0); }
  }

  lemma YieldAlike(g: Group, h: Group, c: Ctx)
    requires Alike(g, h) && Live(g.threads, g.active)
    ensures Live(h.threads, h.active) && AlikeOutcome(SchedYield(g, c), SchedYield(h, c))
  {
    hide Find, SwapNext, Advance;
    LiveAlike(g, h, g.active);
    OthersAlike(g.threads, h.threads, g.active);
    if g.v3 { AdvanceAlike(g, h, TICK); }
    var ticks := g.v3 && g.kit2 && !OthersRunnable(g.threads, g.active) && OthersTimed(g.threads, g.active);
    var a, b := if ticks then Advance(g, TICK) else g, if ticks then Advance(h, TICK) else h;
    LiveAlike(a, b, a.active);
    if Live(a.threads, a.active) { SwapAlike(a, b, c, 0); }
  }

  lemma OthersAlike(ts: seq<Thread>, us: seq<Thread>, active: nat)
    requires AlikeThreads(ts, us)
    ensures OthersRunnable(ts, active) == OthersRunnable(us, active) && OthersTimed(ts, active) == OthersTimed(us, active)
  {
    assert forall i | 0 <= i < |ts| :: ts[i].tid == us[i].tid && ts[i].waiting == us[i].waiting && ts[i].deadline == us[i].deadline by {
      forall i | 0 <= i < |ts| ensures ts[i].tid == us[i].tid && ts[i].waiting == us[i].waiting && ts[i].deadline == us[i].deadline {
        assert Same(ts[i], us[i]);
      }
    }
  }

  lemma {:induction false} InsertAlike(ts: seq<Thread>, us: seq<Thread>, th: Thread)
    requires AlikeThreads(ts, us)
    ensures AlikeThreads(Insert(ts, th), Insert(us, th))
  {
    if ts != [] {
      var n := |ts| - 1;
      assert Same(ts[n], us[n]);
      if ts[n].tid > th.tid {
        assert AlikeThreads(ts[..n], us[..n]);
        InsertAlike(ts[..n], us[..n], th);
      }
    }
  }

  lemma RemoveAlike(ts: seq<Thread>, us: seq<Thread>, tid: nat)
    requires AlikeThreads(ts, us)
    ensures AlikeThreads(Remove(ts, tid), Remove(us, tid))
  {
    FindAlike(ts, us, tid);
  }

  lemma TouchAlike(g: Group, h: Group, a: Thread, b: Thread)
    requires Alike(g, h) && Same(a, b) && Live(g.threads, a.tid)
    ensures Live(h.threads, b.tid) && Alike(g.(threads := Set(g.threads, a)), h.(threads := Set(h.threads, b)))
  {
    SetAlike(g.threads, h.threads, a, b);
  }

  lemma ExitAlike(g: Group, h: Group, c: Ctx)
    requires Alike(g, h) && Live(g.threads, g.active)
    ensures Live(h.threads, h.active) && AlikeOutcome(Exit(g, c), Exit(h, c))
  {
    hide Find, SwapNext, Unpark, AlikeThreads, Get, Set, Remove;
    LiveAlike(g, h, g.active);
    var me := Get(g.threads, g.active);
    UnparkAlike(g, h, me.tidAddress);
    var w, x := if me.tidAddress != 0 then Unpark(g, me.tidAddress).0 else g, if me.tidAddress != 0 then Unpark(h, me.tidAddress).0 else h;
    LiveAlike(w, x, w.active);
    if Live(w.threads, w.active) {
      TouchAlike(w, x, Park(Get(w.threads, w.active)), Park(Get(x.threads, x.active)));
      var o, p := w.(threads := Set(w.threads, Park(Get(w.threads, w.active)))), x.(threads := Set(x.threads, Park(Get(x.threads, x.active))));
      LiveAlike(o, p, o.active);
      if Live(o.threads, o.active) {
        SwapAlike(o, p, c, 0);
        if SwapNext(o, c, 0).Ran? {
          RemoveAlike(SwapNext(o, c, 0).group.threads, SwapNext(p, c, 0).group.threads, g.active);
        }
      }
    }
  }

  lemma UnlockAlike(g: Group, h: Group, c: Ctx, addr: nat)
    requires Alike(g, h) && Live(g.threads, g.active)
    ensures Live(h.threads, h.active) && UnlockPi(g, c, addr).0 == UnlockPi(h, c, addr).0
    ensures AlikeOutcome(UnlockPi(g, c, addr).1, UnlockPi(h, c, addr).1)
  {
    hide Find, Unpark, Alike, Stored, Resume;
    LiveAlike(g, h, g.active);
    UnparkAlike(g, h, addr);
    var (a, tid, more) := Unpark(g, addr);
    var b := Unpark(h, addr).0;
    LiveAlike(a, b, a.active);
    if tid.Some? && Live(a.threads, a.active) {
      StoredAlike(a, b, c, 0);
      var s, t := Stored(a, c, 0), Stored(b, c, 0);
      LiveAlike(s, t, tid.value);
      if Live(s.threads, tid.value) { ResumeAlike(s, t, c, tid.value); }
    }
  }

  predicate Timed(call: Call) {
    call.FutexWaitFor? || call.FutexWaitTill? || call.ReadClock? || call.Sleep? || call.SleepTill?
  }

  /** The calls time has a part in. */
  lemma TimedAlike(g: Group, h: Group, c: Ctx, start: nat, call: Call)
    requires Alike(g, h) && Live(g.threads, g.active) && Timed(call)
    ensures Live(h.threads, h.active) && AlikeOutcome(Serve(g, c, start, call), Serve(h, c, start, call))
  {
    hide SwapNext, ParkMe, WaitUntil, Requeue, Exit, UnlockPi, LockPi, SchedYield, Later, Spawn, Find, Get, Set, NsAdd, NsOf, PastStart, AlikeThreads;
    LiveAlike(g, h, g.active);
    match call {
      case FutexWaitFor(addr, word, compare, sec, nsec) =>
        ParkMeAlike(g, h, c, addr, 0);
        if TimeOk(sec, nsec) { WaitUntilAlike(g, h, c, addr, word, compare, NsAdd(g.kit2, g.clock, NsOf(g.kit2, sec, nsec))); }
      case FutexWaitTill(addr, word, compare, sec, nsec) =>
        ParkMeAlike(g, h, c, addr, 0);
        if TimeOk(sec, nsec) { WaitUntilAlike(g, h, c, addr, word, compare, PastStart(g.kit2, start, sec, nsec)); }
      case ReadClock => if g.v3 { LaterAlike(g, h, c, TICK); }
      case Sleep(sec, nsec) =>
        if g.v3 && TimeOk(sec, nsec) { LaterAlike(g, h, c, NsOf(g.kit2, sec, nsec)); }
        SwapAlike(g, h, c, 0);
      case SleepTill(sec, nsec) =>
        SwapAlike(g, h, c, 0);
        if g.v3 && TimeOk(sec, nsec) && PastStart(g.kit2, start, sec, nsec) > g.clock {
          LaterAlike(g, h, c, PastStart(g.kit2, start, sec, nsec) - g.clock);
        }
      case _ =>
    }
  }

  /** Threads alike answer every call alike. */
  lemma ServeAlike(g: Group, h: Group, c: Ctx, start: nat, call: Call)
    requires Alike(g, h) && Live(g.threads, g.active)
    ensures Live(h.threads, h.active) && AlikeOutcome(Serve(g, c, start, call), Serve(h, c, start, call))
  {
    hide SwapNext, ParkMe, WaitUntil, Requeue, Exit, UnlockPi, SchedYield, Later, Insert, Find, Get, Set, NsAdd, NsOf, PastStart, AlikeThreads;
    LiveAlike(g, h, g.active);
    match call {
      case FutexWait(addr, word, compare) => ParkMeAlike(g, h, c, addr, 0);
      case FutexWaitFor(_, _, _, _, _) => TimedAlike(g, h, c, start, call);
      case FutexWaitTill(_, _, _, _, _) => TimedAlike(g, h, c, start, call);
      case FutexWake(addr, count) =>
        RequeueAlike(g, h, addr, 0, count, 0);
        var a, b := Requeue(g, addr, 0, count, 0).0, Requeue(h, addr, 0, count, 0).0;
        LiveAlike(a, b, a.active);
        if Live(a.threads, a.active) { SwapAlike(a, b, c, Requeue(g, addr, 0, count, 0).1); }
      case FutexRequeue(from, to, wake, move) => RequeueAlike(g, h, from, to, wake, move);
      case FutexLock(addr, word) => ParkMeAlike(g, h, c, addr, 0);
      case FutexUnlock(addr) => UnlockAlike(g, h, c, addr);
      case ReadClock => TimedAlike(g, h, c, start, call);
      case Sleep(_, _) => TimedAlike(g, h, c, start, call);
      case SleepTill(_, _) => TimedAlike(g, h, c, start, call);
      case YieldCpu => YieldAlike(g, h, c);
      case Clone(rsp, area, tidAddress) => InsertAlike(g.threads, h.threads, Thread(g.nextTid, false, 0, rsp, area, tidAddress, 0, 0));
      case SetTidAddress(addr) =>
        TouchAlike(g, h, Get(g.threads, g.active).(tidAddress := addr), Get(h.threads, h.active).(tidAddress := addr));
      case EndThread => ExitAlike(g, h, c);
    }
  }

  /** ... and write the same to the guest's memory. */
  lemma GuestWordAlike(g: Group, h: Group, c: Ctx, start: nat, call: Call)
    requires Alike(g, h) && Live(g.threads, g.active)
    ensures Live(h.threads, h.active) && GuestWord(g, c, start, call) == GuestWord(h, c, start, call)
  {
    hide UnlockPi, ParkMe, Advance, Find, Get, AlikeThreads, SwapNext;
    LiveAlike(g, h, g.active);
    match call
    case FutexUnlock(addr) => UnlockAlike(g, h, c, addr);
    case ReadClock => if g.v3 { LaterAlike(g, h, c, TICK); }
    case _ =>
  }

  /** Threads alike answer every run of calls with the same answers. */
  lemma {:induction false} RunAlike(g: Group, h: Group, c: Ctx, start: nat, calls: seq<Call>)
    requires Alike(g, h) && Live(g.threads, g.active)
    ensures Live(h.threads, h.active)
    ensures Run(g, c, start, calls).answers == Run(h, c, start, calls).answers
    ensures AlikeOutcome(Run(g, c, start, calls).last, Run(h, c, start, calls).last)
    decreases |calls|
  {
    hide Serve, GuestWord, Alike, Find;
    LiveAlike(g, h, g.active);
    if calls != [] {
      GuestWordAlike(g, h, c, start, calls[0]);
      ServeAlike(g, h, c, start, calls[0]);
      match Serve(g, c, start, calls[0])
      case Deadlock =>
      case Ran(a, d, v) =>
        var b := Serve(h, c, start, calls[0]).group;
        LiveAlike(a, b, a.active);
        if Live(a.threads, a.active) { RunAlike(a, b, d, start, calls[1..]); }
    }
  }

  // ---- saving and loading ----

  /** What a state holds of the threads: the deadlines apart from the records,
      and no park orders. */
  datatype Written = Written(clock: nat, nextTid: nat, active: nat, records: seq<Thread>, queues: seq<Queue>, deadlines: seq<nat>)

  function Bare(th: Thread): Thread {
    th.(deadline := 0, order := 0)
  }

  /** The running thread's place, kept in its record. */
  function Kept(g: Group, c: Ctx): Group
    requires Live(g.threads, g.active)
  {
    g.(threads := Set(g.threads, Get(g.threads, g.active).(rsp := c.rsp, area := c.area)))
  }

  /** mb_threads_save: refused unless the first thread runs. */
  function Write(g: Group, c: Ctx): Option<Written>
    requires Live(g.threads, g.active)
  {
    if g.active != 1 then None
    else
      var k := Kept(g, c);
      Some(Written(k.clock, k.nextTid, k.active,
                   seq(|k.threads|, i requires 0 <= i < |k.threads| => Bare(k.threads[i])), k.queues,
                   seq(|k.threads|, i requires 0 <= i < |k.threads| => k.threads[i].deadline)))
  }

  /** The records inserted one by one. */
  function InsertAll(records: seq<Thread>, n: nat): (r: seq<Thread>)
    requires n <= |records|
  {
    if n == 0 then [] else Insert(InsertAll(records, n - 1), Bare(records[n - 1]))
  }

  /** The queues rebuilt tid by tid. */
  function PushAll(qs: seq<Queue>, addr: nat, tids: seq<nat>): seq<Queue>
    decreases |tids|
  {
    if tids == [] then qs else PushAll(Put(qs, addr, At(qs, addr) + [tids[0]]), addr, tids[1..])
  }

  function Rebuilt(saved: seq<Queue>, n: nat): seq<Queue>
    requires n <= |saved|
  {
    if n == 0 then [] else PushAll(Rebuilt(saved, n - 1), saved[n - 1].addr, saved[n - 1].tids)
  }

  function WithDeadlines(ts: seq<Thread>, deadlines: seq<nat>): (r: seq<Thread>)
    requires |deadlines| == |ts|
  {
    seq(|ts|, i requires 0 <= i < |ts| => ts[i].(deadline := deadlines[i]))
  }

  /** mb_threads_load into a set whose first thread runs. */
  function Loaded(g: Group, w: Written): (r: Option<(Group, Ctx)>) {
    var ts := InsertAll(w.records, |w.records|);
    if g.active != 1 || !Live(ts, 1) || (g.v3 && |w.deadlines| != |ts|) then None
    else
      var main := Get(ts, 1);
      var h := g.(threads := if g.v3 then WithDeadlines(ts, w.deadlines) else ts, queues := Rebuilt(w.queues, |w.queues|),
                  nextTid := w.nextTid, active := w.active, clock := if g.v3 then w.clock else g.clock);
      Some((h, Ctx(main.rsp, main.area)))
  }

  lemma {:induction false} InsertAllIs(records: seq<Thread>, n: nat)
    requires n <= |records| && Ascending(records)
    ensures |InsertAll(records, n)| == n && forall i | 0 <= i < n :: InsertAll(records, n)[i] == Bare(records[i])
  {
    if n > 0 {
      InsertAllIs(records, n - 1);
      InsertLast(InsertAll(records, n - 1), Bare(records[n - 1]));
    }
  }

  lemma {:induction false} PutNew(qs: seq<Queue>, addr: nat, tids: seq<nat>)
    requires tids != [] && forall k | 0 <= k < |qs| :: qs[k].addr != addr
    ensures Put(qs, addr, tids) == qs + [Queue(addr, tids)] && At(qs, addr) == []
  {
    if qs != [] { PutNew(qs[1..], addr, tids); }
  }

  lemma {:induction false} PutLast(qs: seq<Queue>, addr: nat, old_: seq<nat>, tids: seq<nat>)
    requires tids != [] && forall k | 0 <= k < |qs| :: qs[k].addr != addr
    ensures Put(qs + [Queue(addr, old_)], addr, tids) == qs + [Queue(addr, tids)] && At(qs + [Queue(addr, old_)], addr) == old_
  {
    var all := qs + [Queue(addr, old_)];
    if qs != [] {
      assert all[1..] == qs[1..] + [Queue(addr, old_)];
      PutLast(qs[1..], addr, old_, tids);
    }
  }

  lemma {:induction false} PushAllLast(qs: seq<Queue>, addr: nat, have: seq<nat>, tids: seq<nat>)
    requires have != [] && forall k | 0 <= k < |qs| :: qs[k].addr != addr
    ensures PushAll(qs + [Queue(addr, have)], addr, tids) == qs + [Queue(addr, have + tids)]
    decreases |tids|
  {
    if tids == [] {
      assert have + tids == have;
    } else {
      PutLast(qs, addr, have, have + [tids[0]]);
      PushAllLast(qs, addr, have + [tids[0]], tids[1..]);
      assert have + [tids[0]] + tids[1..] == have + tids;
    }
  }

  lemma {:induction false} RebuiltIs(saved: seq<Queue>, n: nat)
    requires n <= |saved| && QueuesOk(saved)
    ensures Rebuilt(saved, n) == saved[..n]
  {
    if n > 0 {
      RebuiltIs(saved, n - 1);
      var qs, q := saved[..n - 1], saved[n - 1];
      PutNew(qs, q.addr, [q.tids[0]]);
      PushAllLast(qs, q.addr, [q.tids[0]], q.tids[1..]);
      assert At(qs, q.addr) + [q.tids[0]] == [q.tids[0]];
      assert [q.tids[0]] + q.tids[1..] == q.tids;
      assert saved[..n] == qs + [q];
    }
  }

  /** A set of threads loaded from what another wrote is that one, but for the
      order its threads parked in. */
  lemma LoadedAlike(g: Group, c: Ctx, into: Group)
    requires GroupOk(g) && g.active == 1 && into.active == 1 && into.v3 == g.v3 && into.kit2 == g.kit2
    ensures Write(g, c).Some? && Loaded(into, Write(g, c).value).Some?
    ensures var r := Loaded(into, Write(g, c).value).value; Alike(Kept(g, c), r.0) && r.1 == c
  {
    hide Accounted, Put, At, Rebuilt, InsertAll;
    var k, w := Kept(g, c), Write(g, c).value;
    var th := Get(g.threads, 1).(rsp := c.rsp, area := c.area);
    SetFinds(g.threads, th, 1);
    assert Ascending(w.records);
    InsertAllIs(w.records, |w.records|);
    RebuiltIs(w.queues, |w.queues|);
    var ts := InsertAll(w.records, |w.records|);
    assert w.queues[..|w.queues|] == w.queues;
    FindUnique(ts, Find(k.threads, 1));
    var r := Loaded(into, w).value;
    forall i | 0 <= i < |k.threads| ensures Same(k.threads[i], r.0.threads[i]) {
      SetMember(g.threads, th, i);
    }
  }

  /** Saving and loading loses nothing a guest can see: the loaded threads answer
      every later run of calls as those that were saved. */
  lemma LoadedRunsOn(g: Group, c: Ctx, into: Group, start: nat, calls: seq<Call>)
    requires GroupOk(g) && g.active == 1 && into.active == 1 && into.v3 == g.v3 && into.kit2 == g.kit2
    ensures Write(g, c).Some? && Loaded(into, Write(g, c).value).Some?
    ensures var (h, d) := Loaded(into, Write(g, c).value).value;
            && Live(Kept(g, c).threads, 1) && Live(h.threads, h.active)
            && Run(h, d, start, calls).answers == Run(Kept(g, c), c, start, calls).answers
  {
    hide GroupOk, Run, Loaded, Write, Find;
    LoadedAlike(g, c, into);
    KeptLive(g, c);
    RunAlike(Kept(g, c), Loaded(into, Write(g, c).value).value.0, c, start, calls);
  }

  lemma KeptLive(g: Group, c: Ctx)
    requires GroupOk(g)
    ensures Live(Kept(g, c).threads, g.active) && Kept(g, c).active == g.active
  {
    SetFinds(g.threads, Get(g.threads, g.active).(rsp := c.rsp, area := c.area), g.active);
  }
}
