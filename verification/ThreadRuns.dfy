/** Whole runs of system calls: the queues stay in step on every run, virtual
    time never runs backwards, and a saved and loaded set of threads answers
    every later run as the original would. */
module ThreadRuns {
  import opened Pages
  import opened Queues
  import opened Threads
  import opened ThreadLaws

  /** The guest's calls that reach the scheduler. A futex word's value comes
      with the call; times are seconds and nanoseconds as the guest gave them. */
  datatype Call =
    | FutexWait(addr: nat, word: nat, compare: nat)
    | FutexWaitFor(addr: nat, word: nat, compare: nat, sec: int, nsec: int)
    | FutexWaitTill(addr: nat, word: nat, compare: nat, sec: int, nsec: int)
    | FutexWake(addr: nat, count: nat)
    | FutexRequeue(from: nat, to: nat, wake: nat, move: nat)
    | FutexLock(addr: nat, word: nat)
    | FutexUnlock(addr: nat)
    | ReadClock
    | Sleep(sec: int, nsec: int)
    | SleepTill(sec: int, nsec: int)
    | YieldCpu
    | Clone(rsp: nat, area: nat, tidAddress: nat)
    | SetTidAddress(addr: nat)
    | EndThread

  /** A time of day or a length of time the host takes. */
  predicate TimeOk(sec: int, nsec: int) {
    0 <= sec && 0 <= nsec < 1_000_000_000
  }

  /** What is left of an absolute time on the guest's clock past its start. */
  function PastStart(kit2: bool, start: nat, sec: nat, nsec: nat): nat {
    var t := NsOf(kit2, sec, nsec);
    if t > start then t - start else 0
  }

  /** What the host does with a call; `start` is where the guest's clock starts. */
  function Serve(g: Group, c: Ctx, start: nat, call: Call): Outcome
    requires Live(g.threads, g.active)
  {
    match call
    case FutexWait(addr, word, compare) => Wait(g, c, addr, word, compare)
    case FutexWaitFor(addr, word, compare, sec, nsec) =>
      if !g.v3 then Wait(g, c, addr, word, compare)
      else if !TimeOk(sec, nsec) then Ran(g, c, INVALID)
      else WaitUntil(g, c, addr, word, compare, NsAdd(g.kit2, g.clock, NsOf(g.kit2, sec, nsec)))
    case FutexWaitTill(addr, word, compare, sec, nsec) =>
      if !g.v3 then Wait(g, c, addr, word, compare)
      else if !TimeOk(sec, nsec) then Ran(g, c, INVALID)
      else WaitUntil(g, c, addr, word, compare, PastStart(g.kit2, start, sec, nsec))
    case FutexWake(addr, count) =>
      var r := Requeue(g, addr, 0, count, 0);
      if g.v3 && Live(r.0.threads, r.0.active) then SwapNext(r.0, c, r.1) else Ran(r.0, c, r.1)
    case FutexRequeue(from, to, wake, move) =>
      var r := Requeue(g, from, to, wake, move);
      Ran(r.0, c, r.1)
    case FutexLock(addr, word) => LockPi(g, c, addr, word).1
    case FutexUnlock(addr) => UnlockPi(g, c, addr).1
    case ReadClock => if g.v3 then Later(g, c, TICK) else Ran(g, c, 0)
    case Sleep(sec, nsec) =>
      if !g.v3 then SwapNext(g, c, 0)
      else if !TimeOk(sec, nsec) then Ran(g, c, INVALID)
      else Later(g, c, NsOf(g.kit2, sec, nsec))
    case SleepTill(sec, nsec) =>
      if !g.v3 then SwapNext(g, c, 0)
      else if !TimeOk(sec, nsec) then Ran(g, c, INVALID)
      else
        var rel := PastStart(g.kit2, start, sec, nsec);
        if rel > g.clock then Later(g, c, rel - g.clock) else SwapNext(g, c, 0)
    case YieldCpu => SchedYield(g, c)
    case Clone(rsp, area, tidAddress) => if area == 0 then Ran(g, c, INVALID) else Ran(Spawn(g, rsp, area, tidAddress), c, g.nextTid)
    case SetTidAddress(addr) => Ran(g.(threads := Set(g.threads, Get(g.threads, g.active).(tidAddress := addr))), c, g.active)
    case EndThread => if g.active == 1 then Deadlock else Exit(g, c)
  }

  /** Time passes, then somebody goes on. */
  function Later(g: Group, c: Ctx, ns: nat): Outcome
    requires Live(g.threads, g.active)
  {
    var a := Advance(g, ns);
    if Live(a.threads, a.active) then SwapNext(a, c, 0) else Deadlock
  }

  lemma ServeOk(g: Group, c: Ctx, start: nat, call: Call)
    requires GroupOk(g)
    ensures Serve(g, c, start, call).Ran? ==> GroupOk(Serve(g, c, start, call).group)
  {
    hide GroupOk, SwapNext, ParkMe, WaitUntil, Requeue, Exit, LockPi, UnlockPi, SchedYield, Spawn, Advance, Find, Get, Set;
    match call {
      case FutexWait(addr, word, compare) => ParkMeOk(g, c, addr, 0);
      case FutexWaitFor(addr, word, compare, sec, nsec) =>
        ParkMeOk(g, c, addr, 0);
        if TimeOk(sec, nsec) { WaitUntilOk(g, c, addr, word, compare, NsAdd(g.kit2, g.clock, NsOf(g.kit2, sec, nsec))); }
      case FutexWaitTill(addr, word, compare, sec, nsec) =>
        ParkMeOk(g, c, addr, 0);
        if TimeOk(sec, nsec) { WaitUntilOk(g, c, addr, word, compare, PastStart(g.kit2, start, sec, nsec)); }
      case FutexWake(addr, count) =>
        RequeueOk(g, addr, 0, count, 0);
        SwapOk(Requeue(g, addr, 0, count, 0).0, c, Requeue(g, addr, 0, count, 0).1);
      case FutexRequeue(from, to, wake, move) => RequeueOk(g, from, to, wake, move);
      case FutexLock(addr, word) => LockPiOk(g, c, addr, word);
      case FutexUnlock(addr) => UnlockPiOk(g, c, addr);
      case ReadClock => LaterOk(g, c, TICK);
      case Sleep(sec, nsec) =>
        if TimeOk(sec, nsec) { LaterOk(g, c, NsOf(g.kit2, sec, nsec)); }
        SwapOk(g, c, 0);
      case SleepTill(sec, nsec) =>
        SwapOk(g, c, 0);
        if TimeOk(sec, nsec) && PastStart(g.kit2, start, sec, nsec) > g.clock {
          LaterOk(g, c, PastStart(g.kit2, start, sec, nsec) - g.clock);
        }
      case YieldCpu => SchedYieldOk(g, c);
      case Clone(rsp, area, tidAddress) => SpawnOk(g, rsp, area, tidAddress);
      case SetTidAddress(addr) => SetTidOk(g, addr);
      case EndThread => ExitOk(g, c);
    }
  }

  lemma SwapOk(g: Group, c: Ctx, ret: nat)
    requires GroupOk(g)
    ensures SwapNext(g, c, ret).Ran? && GroupOk(SwapNext(g, c, ret).group)
  {
    hide Seated, SwapNext;
    SwapNextOk(g, c, ret);
    var i := Find(g.threads, g.active);
    assert !g.threads[i].waiting;
  }

  lemma LaterOk(g: Group, c: Ctx, ns: nat)
    requires GroupOk(g)
    ensures Later(g, c, ns).Ran? && GroupOk(Later(g, c, ns).group)
  {
    hide Seated, SwapNext, Advance;
    AdvanceKeeps(g, ns);
    SwapOk(Advance(g, ns), c, 0);
  }

  lemma SetTidOk(g: Group, addr: nat)
    requires GroupOk(g)
    ensures GroupOk(g.(threads := Set(g.threads, Get(g.threads, g.active).(tidAddress := addr))))
  {
    hide Accounted, QueuesOk;
    ActiveRuns(g);
    var th := Get(g.threads, g.active).(tidAddress := addr);
    TouchKeeps(g, th);
    SetFinds(g.threads, th, g.active);
  }

  // ---- runs ----

  /** What the guest gets of a call: the value handed to the thread that goes
      on, and what the host wrote to the guest's memory. */
  datatype Answer = Answer(value: nat, written: Option<nat>)

  /** The futex word a lock call leaves, the time a clock read tells, the word a
      thread's end clears. */
  function GuestWord(g: Group, c: Ctx, start: nat, call: Call): Option<nat>
    requires Live(g.threads, g.active)
  {
    match call
    case FutexLock(addr, word) => Some(LockPi(g, c, addr, word).0)
    case FutexUnlock(addr) => Some(UnlockPi(g, c, addr).0)
    case ReadClock => Some(if g.v3 then start + Advance(g, TICK).clock else start)
    case EndThread => if Get(g.threads, g.active).tidAddress != 0 then Some(0) else None
    case _ => None
  }

  /** What a run leaves, if anybody is left to run, and every call's answer. */
  datatype Ended = Ended(last: Outcome, answers: seq<Answer>)

  ghost function Run(g: Group, c: Ctx, start: nat, calls: seq<Call>): Ended
    requires Live(g.threads, g.active)
    decreases |calls|
  {
    if calls == [] then Ended(Ran(g, c, 0), [])
    else
      match Serve(g, c, start, calls[0])
      case Deadlock => Ended(Deadlock, [])
      case Ran(h, d, v) =>
        var told := Answer(v, GuestWord(g, c, start, calls[0]));
        if !Live(h.threads, h.active) then Ended(Deadlock, [told])
        else
          var rest := Run(h, d, start, calls[1..]);
          Ended(rest.last, [told] + rest.answers)
  }

  /** Over every run of calls, on every machine spec and kit: a live thread is
      waiting exactly when its tid stands once, in one queue; no queue is
      empty; and the thread that runs is live and not waiting. */
  lemma {:induction false} RunKeeps(g: Group, c: Ctx, start: nat, calls: seq<Call>)
    requires GroupOk(g)
    ensures Run(g, c, start, calls).last.Ran? ==> GroupOk(Run(g, c, start, calls).last.group)
    decreases |calls|
  {
    hide Seated, Serve;
    if calls != [] {
      ServeOk(g, c, start, calls[0]);
      match Serve(g, c, start, calls[0])
      case Deadlock =>
      case Ran(h, d, v) => RunKeeps(h, d, start, calls[1..]);
    }
  }

  // ---- virtual time ----

  /** Machine spec 3 on a kit of revision 2, time in order. */
  ghost predicate InTime(g: Group) {
    GroupOk(g) && g.v3 && g.kit2 && OnTime(g)
  }

  /** Time has not run backwards. */
  predicate Forward(g: Group, h: Group) {
    h.v3 == g.v3 && h.kit2 == g.kit2 && OnTime(h) && g.clock <= h.clock
  }

  lemma NsInRange(a: nat, b: nat, sec: nat, nsec: nat)
    requires a <= CLOCK_MAX && nsec < 1_000_000_000
    ensures a <= NsAdd(true, a, b) <= CLOCK_MAX && (b <= CLOCK_MAX - a ==> NsAdd(true, a, b) == a + b)
    ensures NsOf(true, sec, nsec) <= CLOCK_MAX
    ensures sec * 1_000_000_000 + nsec <= CLOCK_MAX ==> NsOf(true, sec, nsec) == sec * 1_000_000_000 + nsec
    ensures sec * 1_000_000_000 + nsec > CLOCK_MAX ==> NsOf(true, sec, nsec) == CLOCK_MAX
  {
  }

  /** Setting one thread's record without a deadline, or with one ahead. */
  lemma SetOnTime(g: Group, th: Thread)
    requires OnTime(g) && Live(g.threads, th.tid) && (th.deadline != 0 ==> g.clock < th.deadline <= CLOCK_MAX)
    ensures OnTime(g.(threads := Set(g.threads, th)))
  {
  }

  lemma StoredOnTime(g: Group, c: Ctx, ret: nat)
    requires OnTime(g) && Live(g.threads, g.active)
    ensures OnTime(Stored(g, c, ret)) && Stored(g, c, ret).clock == g.clock
    ensures Stored(g, c, ret).v3 == g.v3 && Stored(g, c, ret).kit2 == g.kit2
  {
    hide Find;
    var th := Get(g.threads, g.active);
    assert th in g.threads;
    SetOnTime(g, th.(rax := ret, rsp := c.rsp, area := c.area));
  }

  lemma ScheduleOnTime(g: Group)
    requires Seated(g) && OnTime(g) && Schedule(g).Some?
    ensures Forward(g, Schedule(g).value.0)
  {
    hide Seated, Purge, DueTids, NextTid;
    if NextTid(g.threads, g.active) == None {
      var dl := Earliest(g.threads);
      var h := g.(clock := dl);
      SeatedClock(g, dl);
      var i :| 0 <= i < |g.threads| && g.threads[i].waiting && g.threads[i].deadline == dl;
      ExpireTimes(h);
    }
  }

  lemma SeatedClock(g: Group, clock: nat)
    requires Seated(g)
    ensures Seated(g.(clock := clock))
  {
  }

  lemma SwapOnTime(g: Group, c: Ctx, ret: nat)
    requires Seated(g) && OnTime(g) && Live(g.threads, g.active)
    ensures SwapNext(g, c, ret).Ran? ==> Forward(g, SwapNext(g, c, ret).group)
  {
    hide Seated, Find, Schedule, Stored;
    StoredKeeps(g, c, ret);
    StoredOnTime(g, c, ret);
    var s := Stored(g, c, ret);
    if Schedule(s).Some? { ScheduleOnTime(s); }
  }

  lemma AdvanceOnTime(g: Group, ns: nat)
    requires Seated(g) && OnTime(g) && g.kit2
    ensures Forward(g, Advance(g, ns))
  {
    hide Seated, Purge, DueTids;
    NsInRange(g.clock, ns, 0, 0);
    var h := g.(clock := NsAdd(g.kit2, g.clock, ns));
    SeatedClock(g, h.clock);
    ExpireTimes(h);
  }

  lemma ParkMeOnTime(g: Group, c: Ctx, addr: nat, ret: nat)
    requires InTime(g)
    ensures ParkMe(g, c, addr, ret).Ran? ==> Forward(g, ParkMe(g, c, addr, ret).group)
  {
    hide Seated, SwapNext, Put, At;
    ActiveRuns(g);
    var th := Park(Get(g.threads, g.active));
    ParkKeeps(g, addr, th);
    SetOnTime(g, th);
    var p := ParkOn(g, addr, g.active);
    assert OnTime(p);
    SetLive(g.threads, th, g.active);
    SwapOnTime(p, c, ret);
  }

  lemma WaitUntilOnTime(g: Group, c: Ctx, addr: nat, word: nat, compare: nat, deadline: nat)
    requires InTime(g) && deadline <= CLOCK_MAX
    ensures var r := WaitUntil(g, c, addr, word, compare, deadline); r.Ran? ==> Forward(g, r.group)
  {
    hide Seated, SwapNext, Put, At, Advance, ParkMe;
    if word == compare {
      if deadline <= g.clock {
        AdvanceKeeps(g, TICK);
        AdvanceOnTime(g, TICK);
        SwapOnTime(Advance(g, TICK), c, TIMED_OUT);
      } else {
        ActiveRuns(g);
        var th := Park(Get(g.threads, g.active)).(deadline := deadline, order := g.parked + 1);
        ParkKeeps(g, addr, th);
        SetLive(g.threads, th, g.active);
        SetOnTime(g, th);
        var p := ParkUntil(g, addr, deadline);
        SeatedParked(g.(threads := Set(g.threads, th), queues := p.queues), p.parked);
        assert OnTime(p);
        SwapOnTime(p, c, 0);
      }
    }
  }

  lemma UnparkOnTime(g: Group, addr: nat)
    requires Seated(g) && OnTime(g)
    ensures Forward(g, Unpark(g, addr).0)
  {
    hide Seated, Put, At;
    UnparkIs(g, addr);
    var q := At(g.queues, addr);
    if q != [] {
      SetOnTime(g, Wake(Get(g.threads, q[0])));
    }
  }

  lemma {:induction false} RequeueOnTime(g: Group, from: nat, to: nat, wake: nat, move: nat)
    requires Seated(g) && OnTime(g)
    ensures Forward(g, Requeue(g, from, to, wake, move).0)
    decreases wake + move
  {
    hide Seated, Find, Put, At, Requeue, Unpark;
    var q := At(g.queues, from);
    if wake + move == 0 || q == [] {
      RequeueStop(g, from, to, wake, move);
    } else {
      var g1 := Unpark(g, from).0;
      UnparkKeeps(g, from);
      UnparkFresh(g, from);
      UnparkOnTime(g, from);
      if wake > 0 {
        RequeueWakes(g, from, to, wake, move);
        RequeueOnTime(g1, from, to, wake - 1, move);
      } else {
        RequeueMoves(g, from, to, move);
        MoveOn(g1, to, q[0]);
        SetOnTime(g1, Park(Get(g1.threads, q[0])));
        var g2 := ParkOn(g1, to, q[0]);
        assert OnTime(g2);
        RequeueOnTime(g2, from, to, 0, move - 1);
      }
    }
  }

  lemma LaterOnTime(g: Group, c: Ctx, ns: nat)
    requires InTime(g)
    ensures Later(g, c, ns).Ran? ==> Forward(g, Later(g, c, ns).group)
  {
    hide Seated, SwapNext, Advance;
    AdvanceKeeps(g, ns);
    AdvanceOnTime(g, ns);
    SwapOnTime(Advance(g, ns), c, 0);
  }

  lemma ExitOnTime(g: Group, c: Ctx)
    requires InTime(g)
    ensures Exit(g, c).Ran? ==> Forward(g, Exit(g, c).group)
  {
    hide Seated, Find, Schedule, Unpark, Less, Stored, Get, Set, OnTime;
    var me := Get(g.threads, g.active);
    var w := if me.tidAddress != 0 then Unpark(g, me.tidAddress).0 else g;
    UnparkActive(g, me.tidAddress);
    UnparkOnTime(g, me.tidAddress);
    EndingRest(w, c);
    var i := Find(w.threads, w.active);
    var out := w.(threads := Set(w.threads, Park(Get(w.threads, w.active))));
    var s := Stored(out, c, 0);
    ScheduleWithout(s, i);
    if Schedule(s).Some? {
      var f, tid := Schedule(s).value.0, Schedule(s).value.1;
      var rest := w.(threads := Less(w.threads, i));
      assert rest == s.(threads := Less(s.threads, i));
      LessOnTime(w, i);
      ScheduleOk(rest);
      ScheduleOnTime(rest);
      EndedIs(f, i, tid, c);
      EndedOnTime(f, i, tid, c);
    }
  }

  lemma LessOnTime(g: Group, i: nat)
    requires OnTime(g) && i < |g.threads|
    ensures Forward(g, g.(threads := Less(g.threads, i)))
  {
    assert forall k | 0 <= k < |Less(g.threads, i)| :: Less(g.threads, i)[k] == g.threads[if k < i then k else k + 1];
  }

  lemma EndedOnTime(f: Group, i: nat, tid: nat, c: Ctx)
    requires Ascending(f.threads) && i < |f.threads| && f.threads[i].tid == f.active && Live(f.threads, tid)
    requires OnTime(f.(threads := Less(f.threads, i)))
    ensures Resume(f, c, tid).Ran?
    ensures var h := Resume(f, c, tid).group;
            OnTime(h.(threads := Remove(h.threads, f.active))) && h.clock == f.clock && h.v3 == f.v3 && h.kit2 == f.kit2
  {
    FindUnique(f.threads, i);
    assert Remove(f.threads, f.active) == Less(f.threads, i);
  }

  lemma SpawnOnTime(g: Group, rsp: nat, area: nat, tidAddress: nat)
    requires Seated(g) && OnTime(g)
    ensures Forward(g, Spawn(g, rsp, area, tidAddress))
  {
    hide Accounted, QueuesOk;
    InsertLast(g.threads, Thread(g.nextTid, false, 0, rsp, area, tidAddress, 0, 0));
  }

  lemma UnlockOnTime(g: Group, c: Ctx, addr: nat)
    requires InTime(g)
    ensures UnlockPi(g, c, addr).1.Ran? ==> Forward(g, UnlockPi(g, c, addr).1.group)
  {
    hide Seated, Find, Unpark, Get, Set, Stored, OnTime;
    UnparkActive(g, addr);
    UnparkOnTime(g, addr);
    var h := Unpark(g, addr).0;
    StoredOnTime(h, c, 0);
    SameTime(Stored(h, c, 0));
  }

  lemma SameTime(g: Group)
    ensures forall a :: OnTime(g.(active := a)) == OnTime(g)
  {
  }

  /** No call makes time run backwards or leaves a parked deadline behind it. */
  lemma ServeOnTime(g: Group, c: Ctx, start: nat, call: Call)
    requires InTime(g)
    ensures Serve(g, c, start, call).Ran? ==> Forward(g, Serve(g, c, start, call).group)
  {
    hide Seated, SwapNext, ParkMe, WaitUntil, Requeue, Exit, UnlockPi, Spawn, Advance, Find, Get, Set, NsAdd, NsOf, PastStart, OnTime;
    match call {
      case FutexWait(addr, word, compare) => ParkMeOnTime(g, c, addr, 0);
      case FutexWaitFor(addr, word, compare, sec, nsec) =>
        if TimeOk(sec, nsec) {
          CeilingHolds(g, start, sec, nsec);
          WaitUntilOnTime(g, c, addr, word, compare, NsAdd(g.kit2, g.clock, NsOf(g.kit2, sec, nsec)));
        }
      case FutexWaitTill(addr, word, compare, sec, nsec) =>
        if TimeOk(sec, nsec) {
          CeilingHolds(g, start, sec, nsec);
          WaitUntilOnTime(g, c, addr, word, compare, PastStart(g.kit2, start, sec, nsec));
        }
      case FutexWake(addr, count) =>
        RequeueOk(g, addr, 0, count, 0);
        RequeueOnTime(g, addr, 0, count, 0);
        SwapOnTime(Requeue(g, addr, 0, count, 0).0, c, Requeue(g, addr, 0, count, 0).1);
      case FutexRequeue(from, to, wake, move) => RequeueOnTime(g, from, to, wake, move);
      case FutexLock(addr, word) => ParkMeOnTime(g, c, addr, 0);
      case FutexUnlock(addr) => UnlockOnTime(g, c, addr);
      case ReadClock => LaterOnTime(g, c, TICK);
      case Sleep(sec, nsec) => if TimeOk(sec, nsec) { LaterOnTime(g, c, NsOf(g.kit2, sec, nsec)); }
      case SleepTill(sec, nsec) =>
        SwapOnTime(g, c, 0);
        if TimeOk(sec, nsec) && PastStart(g.kit2, start, sec, nsec) > g.clock {
          LaterOnTime(g, c, PastStart(g.kit2, start, sec, nsec) - g.clock);
        }
      case YieldCpu =>
        AdvanceKeeps(g, TICK);
        AdvanceOnTime(g, TICK);
        SwapOnTime(g, c, 0);
        SwapOnTime(Advance(g, TICK), c, 0);
      case Clone(rsp, area, tidAddress) => SpawnOnTime(g, rsp, area, tidAddress);
      case SetTidAddress(addr) => SetTidOnTime(g, addr);
      case EndThread => ExitOnTime(g, c);
    }
  }

  lemma CeilingHolds(g: Group, start: nat, sec: nat, nsec: nat)
    requires OnTime(g) && g.kit2 && nsec < 1_000_000_000
    ensures PastStart(g.kit2, start, sec, nsec) <= NsOf(g.kit2, sec, nsec) <= CLOCK_MAX
    ensures NsAdd(g.kit2, g.clock, NsOf(g.kit2, sec, nsec)) <= CLOCK_MAX
  {
    NsInRange(g.clock, NsOf(g.kit2, sec, nsec), sec, nsec);
  }

  lemma SetTidOnTime(g: Group, addr: nat)
    requires GroupOk(g) && OnTime(g)
    ensures Forward(g, g.(threads := Set(g.threads, Get(g.threads, g.active).(tidAddress := addr))))
  {
    ActiveRuns(g);
    SetOnTime(g, Get(g.threads, g.active).(tidAddress := addr));
  }

  /** Virtual time over every run: the clock never runs backwards and never
      passes its ceiling, so that start plus clock fits sixty-four bits, and
      every parked deadline is ahead of it. */
  lemma {:induction false} TimeRuns(g: Group, c: Ctx, start: nat, calls: seq<Call>)
    requires InTime(g)
    ensures var r := Run(g, c, start, calls).last; r.Ran? ==> InTime(r.group) && g.clock <= r.group.clock
    ensures var r := Run(g, c, start, calls).last; r.Ran? && start <= CLOCK_START_MAX ==> start + r.group.clock < U64
    decreases |calls|
  {
    hide Seated, Serve;
    if calls != [] {
      ServeOk(g, c, start, calls[0]);
      ServeOnTime(g, c, start, calls[0]);
      match Serve(g, c, start, calls[0])
      case Deadlock =>
      case Ran(h, d, v) => TimeRuns(h, d, start, calls[1..]);
    }
  }

  /** Only a waiting thread whose deadline has come is handed the timeout, and
      every such thread is. */
  lemma ExpiredExactly(g: Group, i: nat)
    requires Ascending(g.threads) && i < |g.threads|
    ensures ExpireDue(g).threads[i] == if Due(g.threads[i], g.clock) then Expired(g.threads[i]) else g.threads[i]
  {
    if !Due(g.threads[i], g.clock) { DueNot(g.threads, i, g.clock); }
  }

  /** A thread that has just parked, once somebody else goes on: still parked,
      last in the queue of its word and its deadline ahead - or the clock has
      gone forward to that deadline, and it will be handed the timeout. */
  ghost predicate ParkedOrDue(h: Group, tid: nat, addr: nat, deadline: nat) {
    && Live(h.threads, tid)
    && var th, q := Get(h.threads, tid), At(h.queues, addr);
    if th.waiting then th.deadline == deadline && (deadline != 0 ==> h.clock < deadline) && q != [] && q[|q| - 1] == tid
    else deadline != 0 && h.clock == deadline && th.rax == TIMED_OUT && Waits(h.queues, tid) == 0
  }

  /** What expiry does to one parked thread and to its place in a queue. */
  lemma ExpireOne(h: Group, addr: nat, tid: nat)
    requires Seated(h) && IsWaiting(h.threads, tid)
    ensures var th, e := Get(h.threads, tid), ExpireDue(h);
            && Live(e.threads, tid) && Get(e.threads, tid) == (if Due(th, h.clock) then Expired(th) else th)
            && (tid in DueTids(h.threads, h.clock) <==> Due(th, h.clock))
            && At(e.queues, addr) == Without(At(h.queues, addr), DueTids(h.threads, h.clock))
            && (Due(th, h.clock) ==> Waits(e.queues, tid) == 0)
  {
    hide Accounted, At, Purge, DeadlinesParked, TidsBelow;
    var i, gone := Find(h.threads, tid), DueTids(h.threads, h.clock);
    ExpireKeeps(h);
    ExpireFinds(h.threads, gone, tid);
    ExpiredExactly(h, i);
    PurgeAt(h.queues, gone, addr);
    if Due(h.threads[i], h.clock) { WaitsNone(ExpireDue(h), tid); } else { DueNot(h.threads, i, h.clock); }
  }

  /** The clock gone forward to the earliest deadline. */
  lemma ForwardLeaves(p: Group, addr: nat, tid: nat)
    requires Seated(p) && IsWaiting(p.threads, tid) && ParkedOrDue(p, tid, addr, Get(p.threads, tid).deadline)
    requires Earliest(p.threads) != 0
    ensures ParkedOrDue(ExpireDue(p.(clock := Earliest(p.threads))), tid, addr, Get(p.threads, tid).deadline)
  {
    hide Accounted, At, Purge, ExpireDue, DueTids, Find, Without;
    var h := p.(clock := Earliest(p.threads));
    var th, gone := Get(p.threads, tid), DueTids(p.threads, h.clock);
    ExpireOne(h, addr, tid);
    assert th in p.threads;
    assert ExpireDue(h).clock == h.clock by { ExpireSame(h); }
    if !Due(th, h.clock) {
      var q := At(p.queues, addr);
      WithoutLast(q[..|q| - 1], tid, gone);
      assert q[..|q| - 1] + [tid] == q;
    }
  }

  lemma ExpireSame(h: Group)
    ensures ExpireDue(h).clock == h.clock && ExpireDue(h).active == h.active
  {
  }

  lemma WaitsNone(g: Group, tid: nat)
    requires Seated(g) && !IsWaiting(g.threads, tid)
    ensures Waits(g.queues, tid) == 0
  {
  }

  lemma StoredLeaves(p: Group, c: Ctx, ret: nat, addr: nat, deadline: nat)
    requires Seated(p) && Live(p.threads, p.active) && ParkedOrDue(p, p.active, addr, deadline) && IsWaiting(p.threads, p.active)
    ensures var s := Stored(p, c, ret);
            && Seated(s) && s.active == p.active && IsWaiting(s.threads, p.active) && Get(s.threads, p.active).deadline == deadline
            && ParkedOrDue(s, p.active, addr, deadline)
  {
    hide Accounted, At, Put;
    StoredKeeps(p, c, ret);
    SetFinds(p.threads, Get(p.threads, p.active).(rax := ret, rsp := c.rsp, area := c.area), p.active);
  }

  lemma SwapLeaves(p: Group, c: Ctx, ret: nat, addr: nat, deadline: nat)
    requires Seated(p) && Live(p.threads, p.active) && ParkedOrDue(p, p.active, addr, deadline) && IsWaiting(p.threads, p.active)
    ensures var r := SwapNext(p, c, ret); r.Ran? ==> ParkedOrDue(r.group, p.active, addr, deadline)
  {
    hide Seated, Stored, ParkedOrDue, ExpireDue, Earliest, NextTid, Find, Get;
    var s := Stored(p, c, ret);
    StoredLeaves(p, c, ret, addr, deadline);
    if Schedule(s).Some? {
      var f, tid := Schedule(s).value.0, Schedule(s).value.1;
      if NextTid(s.threads, s.active) == None { ForwardLeaves(s, addr, p.active); }
      assert ParkedOrDue(f, p.active, addr, deadline);
      if Live(f.threads, tid) { ResumeLeaves(f, c, tid, p.active, addr, deadline); }
    }
  }

  lemma ResumeLeaves(f: Group, c: Ctx, tid: nat, me: nat, addr: nat, deadline: nat)
    requires Live(f.threads, tid) && ParkedOrDue(f, me, addr, deadline)
    ensures Resume(f, c, tid).Ran? && ParkedOrDue(Resume(f, c, tid).group, me, addr, deadline)
  {
  }

  /** A thread parked on a word, before anybody is chosen. */
  lemma JustParked(g: Group, addr: nat, th: Thread, parked: nat)
    requires GroupOk(g) && th.tid == g.active && th.waiting && (th.deadline != 0 ==> g.v3 && g.clock < th.deadline)
    ensures var p := g.(threads := Set(g.threads, th), queues := Put(g.queues, addr, At(g.queues, addr) + [g.active]), parked := parked);
            Seated(p) && IsWaiting(p.threads, g.active) && ParkedOrDue(p, g.active, addr, th.deadline)
  {
    hide Accounted, Put, At;
    ActiveRuns(g);
    ParkKeeps(g, addr, th);
    SetFinds(g.threads, th, g.active);
    PutAt(g.queues, addr, At(g.queues, addr) + [g.active], addr);
  }

  /** futex_wait: refused at once unless the word is what the caller saw;
      otherwise the caller is parked last in the word's queue, for good - and
      the machine stops exactly when it was the last to run. */
  lemma WaitParks(g: Group, c: Ctx, addr: nat, word: nat, compare: nat)
    requires GroupOk(g)
    ensures var r := Wait(g, c, addr, word, compare);
            if word != compare then r == Ran(g, c, TRY_AGAIN)
            else (r.Deadlock? <==> LastOne(g)) && (r.Ran? ==> ParkedOrDue(r.group, g.active, addr, 0))
  {
    hide Seated, SwapNext, Put, At, ParkedOrDue, Find, Set, LastOne;
    ActiveRuns(g);
    ParkMeOk(g, c, addr, 0);
    var p := ParkOn(g, addr, g.active);
    JustParked(g, addr, Park(Get(g.threads, g.active)), g.parked);
    SwapLeaves(p, c, 0, addr, 0);
  }

  /** futex_lock_pi: a free word is taken and the caller goes on; a taken one has
      its waiters bit set, and the caller is parked last in its queue. */
  lemma LockParks(g: Group, c: Ctx, addr: nat, word: nat)
    requires GroupOk(g)
    ensures var (after, r) := LockPi(g, c, addr, word);
            if word == 0 then after == g.active && r == Ran(g, c, 0)
            else
              && after == (if word % (2 * WAITERS) >= WAITERS then word else word + WAITERS)
              && (r.Deadlock? <==> LastOne(g)) && (r.Ran? ==> ParkedOrDue(r.group, g.active, addr, 0))
  {
    hide Seated, SwapNext, ParkedOrDue, Find, LastOne, ParkMe;
    WaitParks(g, c, addr, 0, 0);
    ParkMeOk(g, c, addr, 0);
  }

  /** A thread not parked, and what it is handed when it next runs. */
  predicate WillSee(h: Group, tid: nat, ret: nat) {
    Live(h.threads, tid) && !IsWaiting(h.threads, tid) && Get(h.threads, tid).rax == ret
  }

  /** A thread that gives way while it can run: no time passes. */
  lemma SwapRunning(g: Group, c: Ctx, ret: nat)
    requires GroupOk(g)
    ensures var r := SwapNext(g, c, ret); r.Ran? && r.group.clock == g.clock && WillSee(r.group, g.active, ret)
  {
    hide Accounted, QueuesOk, NextTid;
    var s := Stored(g, c, ret);
    StoredKeeps(g, c, ret);
    SetFinds(g.threads, Get(g.threads, g.active).(rax := ret, rsp := c.rsp, area := c.area), g.active);
    NextExists(s);
    assert !s.threads[Find(s.threads, g.active)].waiting;
  }

  /** futex_wait_timeout, virtual time: refused at once unless the word is what
      the caller saw, a deadline that is past costs a tick and the caller's turn,
      and one ahead parks the caller until then. None of them stops the machine. */
  lemma WaitUntilParks(g: Group, c: Ctx, addr: nat, word: nat, compare: nat, deadline: nat)
    requires GroupOk(g) && g.v3
    ensures var r := WaitUntil(g, c, addr, word, compare, deadline);
            if word != compare then r == Ran(g, c, TRY_AGAIN)
            else if deadline > g.clock then r.Ran? && ParkedOrDue(r.group, g.active, addr, deadline)
            else if !g.kit2 then r == Ran(Advance(g, TICK), c, TIMED_OUT)
            else r.Ran? && r.group.clock == NsAdd(true, g.clock, TICK) && WillSee(r.group, g.active, TIMED_OUT)
  {
    hide Seated, SwapNext, Put, At, ParkedOrDue, Find, Set;
    ActiveRuns(g);
    if word == compare && deadline > g.clock {
      var p := ParkUntil(g, addr, deadline);
      JustParked(g, addr, Park(Get(g.threads, g.active)).(deadline := deadline, order := g.parked + 1), p.parked);
      SwapLeaves(p, c, 0, addr, deadline);
      ParkedAll(g, Park(Get(g.threads, g.active)).(deadline := deadline, order := g.parked + 1));
      SwapNextOk(p, c, 0);
    } else if word == compare && g.kit2 {
      AdvanceKeeps(g, TICK);
      SwapRunning(Advance(g, TICK), c, TIMED_OUT);
    }
  }

  /** The call stops the machine: it parks the last thread that could run, or it
      ends the first thread. */
  predicate Stops(g: Group, call: Call)
    requires Live(g.threads, g.active)
  {
    match call
    case FutexWait(_, word, compare) => word == compare && LastOne(g)
    case FutexWaitFor(_, word, compare, _, _) => !g.v3 && word == compare && LastOne(g)
    case FutexWaitTill(_, word, compare, _, _) => !g.v3 && word == compare && LastOne(g)
    case FutexLock(_, word) => word != 0 && LastOne(g)
    case EndThread => g.active == 1 || (!HasJoiner(g) && LastOne(g))
    case _ => false
  }

  /** Exactly those calls stop the machine. */
  lemma ServeStops(g: Group, c: Ctx, start: nat, call: Call)
    requires GroupOk(g)
    ensures Serve(g, c, start, call).Deadlock? <==> Stops(g, call)
  {
    hide Seated, SwapNext, ParkMe, WaitUntil, Requeue, Exit, UnlockPi, SchedYield, Spawn, Advance, Find, Get, Set, LastOne, Later,
         HasJoiner, PastStart, NsAdd, NsOf, ParkedOrDue, WillSee;
    match call {
      case FutexWait(addr, word, compare) => ParkMeOk(g, c, addr, 0);
      case FutexWaitFor(addr, word, compare, sec, nsec) =>
        ParkMeOk(g, c, addr, 0);
        if g.v3 && TimeOk(sec, nsec) { WaitUntilParks(g, c, addr, word, compare, NsAdd(g.kit2, g.clock, NsOf(g.kit2, sec, nsec))); }
      case FutexWaitTill(addr, word, compare, sec, nsec) =>
        ParkMeOk(g, c, addr, 0);
        if g.v3 && TimeOk(sec, nsec) { WaitUntilParks(g, c, addr, word, compare, PastStart(g.kit2, start, sec, nsec)); }
      case FutexWake(addr, count) =>
        RequeueOk(g, addr, 0, count, 0);
        SwapOk(Requeue(g, addr, 0, count, 0).0, c, Requeue(g, addr, 0, count, 0).1);
      case FutexLock(addr, word) => LockPiOk(g, c, addr, word);
      case FutexUnlock(addr) => UnlockPiOk(g, c, addr);
      case ReadClock => LaterOk(g, c, TICK);
      case Sleep(sec, nsec) =>
        SwapOk(g, c, 0);
        if TimeOk(sec, nsec) { LaterOk(g, c, NsOf(g.kit2, sec, nsec)); }
      case SleepTill(sec, nsec) =>
        SwapOk(g, c, 0);
        if TimeOk(sec, nsec) && PastStart(g.kit2, start, sec, nsec) > g.clock {
          LaterOk(g, c, PastStart(g.kit2, start, sec, nsec) - g.clock);
        }
      case YieldCpu => YieldRuns(g, c);
      case EndThread => ExitOk(g, c);
      case _ =>
    }
  }

  lemma YieldRuns(g: Group, c: Ctx)
    requires GroupOk(g)
    ensures SchedYield(g, c).Ran?
  {
    hide Seated, SwapNext, Advance;
    AdvanceKeeps(g, TICK);
    SwapOk(Advance(g, TICK), c, 0);
    SwapOk(g, c, 0);
  }
}
