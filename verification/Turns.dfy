/** Who goes on after each call: the caller, whom it hands over to, or the next
    in turn of those who can run. */
module Turns {
  import opened Pages
  import opened Queues
  import opened Threads
  import opened ThreadLaws
  import opened ThreadRuns
  import opened Timing
  import opened Contexts

  /** The next after one tid, upwards and round, of those who are not waiting. */
  predicate InTurn(ts: seq<Thread>, after: nat, tid: nat) {
    && (exists th | th in ts :: th.tid == tid && !th.waiting)
    && (if tid > after then forall th | th in ts && after < th.tid < tid :: th.waiting
        else forall th | th in ts && (th.tid > after || th.tid < tid) :: th.waiting)
  }

  lemma NextIsTurn(ts: seq<Thread>, after: nat)
    requires Ascending(ts) && NextTid(ts, after).Some? && forall i | 0 <= i < |ts| :: ts[i].tid > 0
    ensures InTurn(ts, after, NextTid(ts, after).value)
  {
    var up, round := FirstAbove(ts, after), FirstAbove(ts, 0);
    if up.Some? {
      var k :| 0 <= k < |ts| && ts[k].tid == up.value && up.value > after && !ts[k].waiting
               && (forall j | 0 <= j < k :: ts[j].tid <= after || ts[j].waiting);
      assert ts[k] in ts;
    } else {
      var k :| 0 <= k < |ts| && ts[k].tid == round.value && round.value > 0 && !ts[k].waiting
               && (forall j | 0 <= j < k :: ts[j].tid <= 0 || ts[j].waiting);
      assert ts[k] in ts;
    }
  }

  /** swap_to_next */
  lemma SwapTurn(p: Group, c: Ctx, ret: nat)
    requires Ascending(p.threads) && TidsBelow(p.threads, p.nextTid) && Live(p.threads, p.active) && SwapNext(p, c, ret).Ran?
    ensures var r := SwapNext(p, c, ret); InTurn(r.group.threads, p.active, r.group.active) && Ascending(r.group.threads)
  {
    hide NextTid, Earliest, ExpireDue, Find, InTurn;
    var s := Stored(p, c, ret);
    SetCarried(p.threads, Caller(p, c, ret), {p.active});
    RisesStill(p.threads, s.threads, {p.active});
    ScheduleCarried(s);
    var (f, tid) := Schedule(s).value;
    RisesStill(s.threads, f.threads, {});
    assert NextTid(f.threads, f.active) == Some(tid);
    NextIsTurn(f.threads, f.active);
  }

  lemma OkTids(g: Group)
    requires GroupOk(g)
    ensures Ascending(g.threads) && TidsBelow(g.threads, g.nextTid)
  {
  }

  lemma SetTids(ts: seq<Thread>, th: Thread, n: nat)
    requires Ascending(ts) && TidsBelow(ts, n) && Live(ts, th.tid)
    ensures Ascending(Set(ts, th)) && TidsBelow(Set(ts, th), n)
  {
  }

  /** The caller goes on at once. */
  predicate Stays(g: Group, start: nat, call: Call) {
    match call
    case FutexWait(_, word, compare) => word != compare
    case FutexWaitFor(_, word, compare, _, _) => KeepsTurn(g, start, call)
    case FutexWaitTill(_, word, compare, _, _) => KeepsTurn(g, start, call)
    case FutexWake(_, _) => !g.v3
    case FutexRequeue(_, _, _, _) => true
    case FutexLock(_, word) => word == 0
    case FutexUnlock(addr) => At(g.queues, addr) == []
    case ReadClock => !g.v3
    case Sleep(sec, nsec) => g.v3 && !TimeOk(sec, nsec)
    case SleepTill(sec, nsec) => g.v3 && !TimeOk(sec, nsec)
    case YieldCpu => false
    case Clone(_, _, _) => true
    case SetTidAddress(_) => true
    case EndThread => false
  }

  /** A timed wait refused, or due already on a kit before revision 2. */
  predicate KeepsTurn(g: Group, start: nat, call: Call)
    requires Timed(call)
  {
    call.word != call.compare || (g.v3 && (!TimeOk(call.sec, call.nsec) || (!g.kit2 && DueAt(g, start, call) <= g.clock)))
  }

  /** A call that gives way, having made p of the group. */
  lemma WayGiven(g: Group, p: Group, c: Ctx, ret: nat)
    requires GroupOk(p) && p.active == g.active
    ensures var r := SwapNext(p, c, ret); r.Ran? && InTurn(r.group.threads, g.active, r.group.active)
  {
    hide Seated, SwapNext, InTurn;
    SwapOk(p, c, ret);
    OkTids(p);
    SwapTurn(p, c, ret);
  }

  lemma LaterTurn(g: Group, c: Ctx, ns: nat, ret: nat)
    requires GroupOk(g)
    ensures Live(Advance(g, ns).threads, Advance(g, ns).active)
    ensures var r := SwapNext(Advance(g, ns), c, ret); r.Ran? && InTurn(r.group.threads, g.active, r.group.active)
  {
    hide Seated, SwapNext, InTurn, Advance;
    AdvancedCaller(g, ns);
    WayGiven(g, Advance(g, ns), c, ret);
  }

  lemma ParkTurn(g: Group, p: Group, th: Thread, c: Ctx, ret: nat)
    requires GroupOk(g) && th.tid == g.active && p.threads == Set(g.threads, th) && p.active == g.active && p.nextTid == g.nextTid
    requires Live(p.threads, p.active) && SwapNext(p, c, ret).Ran?
    ensures var r := SwapNext(p, c, ret); InTurn(r.group.threads, g.active, r.group.active)
  {
    hide Seated, SwapNext, InTurn, Find;
    OkTids(g);
    SetTids(g.threads, th, g.nextTid);
    SwapTurn(p, c, ret);
  }

  lemma ParksTurn(g: Group, c: Ctx, start: nat, call: Call)
    requires GroupOk(g) && ParksCaller(g, start, call) && Serve(g, c, start, call).Ran?
    ensures var r := Serve(g, c, start, call); InTurn(r.group.threads, g.active, r.group.active)
  {
    hide Seated, SwapNext, InTurn, DueAt, Find, Put, At;
    ActiveRuns(g);
    var th := Park(Get(g.threads, g.active));
    SetLive(g.threads, th, g.active);
    if Waited(g, call) {
      hide Serve;
      TimedIs(g, c, start, call);
      var due := DueAt(g, start, call);
      SetLive(g.threads, th.(deadline := due, order := g.parked + 1), g.active);
      ParkTurn(g, ParkUntil(g, call.addr, due), th.(deadline := due, order := g.parked + 1), c, 0);
    } else {
      ParkTurn(g, ParkOn(g, call.addr, g.active), th, c, 0);
    }
  }

  /** The thread that ends is out of the running. */
  lemma ExitTurn(g: Group, c: Ctx)
    requires GroupOk(g) && Exit(g, c).Ran?
    ensures InTurn(Exit(g, c).group.threads, g.active, Exit(g, c).group.active)
  {
    hide Seated, SwapNext, Find, Unpark, At, InTurn, Set;
    var addr := Get(g.threads, g.active).tidAddress;
    var w := if addr != 0 then Unpark(g, addr).0 else g;
    UnparkActive(g, addr);
    ActiveRuns(w);
    var th := Park(Get(w.threads, w.active));
    SetLive(w.threads, th, w.active);
    var out := w.(threads := Set(w.threads, th));
    ParkTurn(w, out, th, c, 0);
    var r := SwapNext(out, c, 0);
    OkTids(w);
    SetTids(w.threads, th, w.nextTid);
    SwapTurn(out, c, 0);
    ExitOk(g, c);
    RemoveTurn(r.group.threads, g.active, r.group.active);
  }

  lemma RemoveTurn(ts: seq<Thread>, gone: nat, tid: nat)
    requires Ascending(ts) && InTurn(ts, gone, tid) && Live(Remove(ts, gone), tid)
    ensures InTurn(Remove(ts, gone), gone, tid)
  {
    hide Find, Remove;
    RemovedFinds(ts, gone, tid);
    ChosenIs(ts, gone, tid);
    assert Get(Remove(ts, gone), tid) in Remove(ts, gone);
    forall th | th in Remove(ts, gone) ensures th in ts { RemovedFrom(ts, gone, th); }
  }

  lemma ChosenIs(ts: seq<Thread>, after: nat, tid: nat)
    requires Ascending(ts) && InTurn(ts, after, tid)
    ensures Live(ts, tid) && !Get(ts, tid).waiting
  {
    hide Find;
    var th :| th in ts && th.tid == tid && !th.waiting;
    var j :| 0 <= j < |ts| && ts[j] == th;
    FindUnique(ts, j);
  }

  lemma RemovedFrom(ts: seq<Thread>, gone: nat, th: Thread)
    requires th in Remove(ts, gone)
    ensures th in ts
  {
    hide Find;
  }

  /** Who runs after every call: the caller where the call says so; the longest
      waiter where a lock is handed over; and everywhere else the next in turn
      after the caller of all who can then run. */
  lemma ServeTurns(g: Group, c: Ctx, start: nat, call: Call)
    requires GroupOk(g) && Serve(g, c, start, call).Ran?
    ensures var r := Serve(g, c, start, call);
            if Stays(g, start, call) then r.group.active == g.active && r.ctx == c
            else if call.FutexUnlock? then r.group.active == At(g.queues, call.addr)[0]
            else InTurn(r.group.threads, g.active, r.group.active)
  {
    hide Seated, InTurn, SwapNext, ParkMe, WaitUntil, Requeue, UnlockPi, At, Find, DueAt, Exit, Insert, Advance, NsAdd, NsOf, PastStart;
    if ParksCaller(g, start, call) {
      ParksTurn(g, c, start, call);
    } else if Timed(call) {
      TimedTurn(g, c, start, call);
    } else {
      match call {
        case FutexWake(addr, count) =>
          RequeuedCaller(g, addr, 0, count, 0);
          WayGiven(g, Requeue(g, addr, 0, count, 0).0, c, Requeue(g, addr, 0, count, 0).1);
        case FutexRequeue(from, to, wake, move) => RequeuedCaller(g, from, to, wake, move);
        case FutexUnlock(addr) => UnlockTurn(g, c, addr);
        case ReadClock => LaterTurn(g, c, TICK, 0);
        case Sleep(sec, nsec) =>
          WayGiven(g, g, c, 0);
          if TimeOk(sec, nsec) { LaterTurn(g, c, NsOf(g.kit2, sec, nsec), 0); }
        case SleepTill(sec, nsec) =>
          WayGiven(g, g, c, 0);
          if TimeOk(sec, nsec) && PastStart(g.kit2, start, sec, nsec) > g.clock {
            LaterTurn(g, c, PastStart(g.kit2, start, sec, nsec) - g.clock, 0);
          }
        case YieldCpu =>
          WayGiven(g, g, c, 0);
          LaterTurn(g, c, TICK, 0);
        case EndThread => ExitTurn(g, c);
        case _ =>
      }
    }
  }

  lemma UnlockTurn(g: Group, c: Ctx, addr: nat)
    requires GroupOk(g)
    ensures var q, r := At(g.queues, addr), UnlockPi(g, c, addr).1;
            r.Ran? && (if q == [] then r.group.active == g.active && r.ctx == c else r.group.active == q[0])
  {
    hide Seated, Find, At, Put, Get, Set;
    UnlockPiOk(g, c, addr);
    UnparkIs(g, addr);
  }

  lemma TimedTurn(g: Group, c: Ctx, start: nat, call: Call)
    requires GroupOk(g) && Timed(call) && !ParksCaller(g, start, call)
    ensures var r := Serve(g, c, start, call);
            r.Ran? && (if KeepsTurn(g, start, call) then r.group.active == g.active && r.ctx == c
                       else InTurn(r.group.threads, g.active, r.group.active))
  {
    hide Seated, InTurn, SwapNext, ParkMe, Find, DueAt, Advance, NsAdd, NsOf, PastStart;
    AdvanceClock(g, TICK);
    LaterTurn(g, c, TICK, TIMED_OUT);
    if Waited(g, call) { TimedIs(g, c, start, call); }
  }
}
