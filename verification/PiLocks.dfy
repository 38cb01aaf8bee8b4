/** The priority-inheritance futex: over any run in which one word is used only
    by lock, unlock and the owner's uncontended set and clear, at most one
    thread holds it and the word says who. */
module PiLocks {
  import opened Pages
  import opened Queues
  import opened Threads
  import opened ThreadLaws
  import opened ThreadRuns

  // ---- a word left alone ----

  /** Nobody waiting on the word has a deadline. */
  predicate Patient(ts: seq<Thread>, q: seq<nat>) {
    forall k | 0 <= k < |q| :: Live(ts, q[k]) && Get(ts, q[k]).deadline == 0
  }

  /** The word's queue is as it was, and still patient. */
  predicate Left(g: Group, h: Group, addr: nat) {
    At(h.queues, addr) == At(g.queues, addr) && Patient(h.threads, At(h.queues, addr))
  }

  lemma SetPatient(ts: seq<Thread>, th: Thread, q: seq<nat>)
    requires Ascending(ts) && Live(ts, th.tid) && Patient(ts, q) && (th.deadline == 0 || th.tid !in q)
    ensures Patient(Set(ts, th), q)
  {
    forall k | 0 <= k < |q| ensures Live(Set(ts, th), q[k]) && Get(Set(ts, th), q[k]).deadline == 0 {
      SetFinds(ts, th, q[k]);
    }
  }

  lemma StoredLeft(g: Group, c: Ctx, ret: nat, addr: nat)
    requires Seated(g) && Live(g.threads, g.active) && Patient(g.threads, At(g.queues, addr))
    ensures Left(g, Stored(g, c, ret), addr)
  {
    hide Find, Accounted, QueuesOk, At;
    var q, th := At(g.queues, addr), Get(g.threads, g.active);
    if g.active in q {
      var k :| 0 <= k < |q| && q[k] == g.active;
      assert th.deadline == 0;
    }
    SetPatient(g.threads, th.(rax := ret, rsp := c.rsp, area := c.area), q);
  }

  lemma ExpireLeft(g: Group, addr: nat)
    requires Seated(g) && Patient(g.threads, At(g.queues, addr))
    ensures Left(g, ExpireDue(g), addr)
  {
    hide Accounted, At, Purge, DueTids;
    var q, gone := At(g.queues, addr), DueTids(g.threads, g.clock);
    PurgeAt(g.queues, gone, addr);
    forall k | 0 <= k < |q|
      ensures q[k] !in gone && Live(Expire(g.threads, gone), q[k]) && Get(Expire(g.threads, gone), q[k]).deadline == 0
    {
      var i := Find(g.threads, q[k]);
      DueNot(g.threads, i, g.clock);
      ExpireFinds(g.threads, gone, q[k]);
    }
    WithoutNone(q, gone);
  }

  lemma ScheduleLeft(g: Group, addr: nat)
    requires Seated(g) && Patient(g.threads, At(g.queues, addr)) && Schedule(g).Some?
    ensures Left(g, Schedule(g).value.0, addr)
  {
    hide Seated, At, Patient, ExpireDue, NextTid, Earliest;
    var dl := Earliest(g.threads);
    SeatedClock(g, dl);
    ExpireLeft(g.(clock := dl), addr);
  }

  lemma SwapLeft(g: Group, c: Ctx, ret: nat, addr: nat)
    requires Seated(g) && Live(g.threads, g.active) && Patient(g.threads, At(g.queues, addr))
    ensures SwapNext(g, c, ret).Ran? ==> Left(g, SwapNext(g, c, ret).group, addr)
  {
    hide Seated, At, Patient, Schedule, Stored, Find;
    StoredKeeps(g, c, ret);
    StoredLeft(g, c, ret, addr);
    var s := Stored(g, c, ret);
    if Schedule(s).Some? { ScheduleLeft(s, addr); }
  }

  lemma ParkLeft(g: Group, th: Thread, at: nat, addr: nat)
    requires Seated(g) && Live(g.threads, th.tid) && !IsWaiting(g.threads, th.tid) && at != addr && Patient(g.threads, At(g.queues, addr))
    ensures Left(g, g.(threads := Set(g.threads, th), queues := Put(g.queues, at, At(g.queues, at) + [th.tid])), addr)
  {
    hide Accounted, Put, Find;
    var q := At(g.queues, addr);
    PutAt(g.queues, at, At(g.queues, at) + [th.tid], addr);
    if th.tid in q {
      var k :| 0 <= k < |q| && q[k] == th.tid;
      QueuedWaits(g, addr, k);
    }
    SetPatient(g.threads, th, q);
  }

  lemma UnparkLeft(g: Group, at: nat, addr: nat)
    requires Seated(g) && at != addr && Patient(g.threads, At(g.queues, addr))
    ensures Left(g, Unpark(g, at).0, addr)
  {
    hide Accounted, Put, Find, At;
    UnparkIs(g, at);
    if At(g.queues, at) != [] {
      UnparkAt(g, at, addr);
      SetPatient(g.threads, Wake(Get(g.threads, At(g.queues, at)[0])), At(g.queues, addr));
    }
  }

  lemma {:induction false} RequeueLeft(g: Group, from: nat, to: nat, wake: nat, move: nat, addr: nat)
    requires Seated(g) && from != addr && (move > 0 ==> to != addr) && Patient(g.threads, At(g.queues, addr))
    ensures Left(g, Requeue(g, from, to, wake, move).0, addr)
    decreases wake + move
  {
    hide Seated, Find, Put, At, Requeue, Unpark, Patient;
    var q := At(g.queues, from);
    if wake + move == 0 || q == [] {
      RequeueStop(g, from, to, wake, move);
    } else {
      var g1 := Unpark(g, from).0;
      UnparkKeeps(g, from);
      UnparkFresh(g, from);
      UnparkLeft(g, from, addr);
      if wake > 0 {
        RequeueWakes(g, from, to, wake, move);
        RequeueLeft(g1, from, to, wake - 1, move, addr);
      } else {
        RequeueMoves(g, from, to, move);
        MoveOn(g1, to, q[0]);
        ParkLeft(g1, Park(Get(g1.threads, q[0])), to, addr);
        RequeueLeft(ParkOn(g1, to, q[0]), from, to, 0, move - 1, addr);
      }
    }
  }

  lemma AdvanceLeft(g: Group, ns: nat, addr: nat)
    requires Seated(g) && Patient(g.threads, At(g.queues, addr))
    ensures Left(g, Advance(g, ns), addr)
  {
    hide Seated, At, Patient, ExpireDue;
    var clock := NsAdd(g.kit2, g.clock, ns);
    SeatedClock(g, clock);
    ExpireLeft(g.(clock := clock), addr);
  }

  lemma ParkMeLeft(g: Group, c: Ctx, at: nat, ret: nat, addr: nat)
    requires GroupOk(g) && at != addr && Patient(g.threads, At(g.queues, addr))
    ensures ParkMe(g, c, at, ret).Ran? ==> Left(g, ParkMe(g, c, at, ret).group, addr)
  {
    hide Seated, SwapNext, Put, At, Patient;
    ActiveRuns(g);
    var th := Park(Get(g.threads, g.active));
    ParkKeeps(g, at, th);
    ParkLeft(g, th, at, addr);
    SetLive(g.threads, th, g.active);
    SwapLeft(ParkOn(g, at, g.active), c, ret, addr);
  }

  lemma WaitUntilLeft(g: Group, c: Ctx, at: nat, word: nat, compare: nat, deadline: nat, addr: nat)
    requires GroupOk(g) && at != addr && Patient(g.threads, At(g.queues, addr))
    ensures var r := WaitUntil(g, c, at, word, compare, deadline); r.Ran? ==> Left(g, r.group, addr)
  {
    hide Seated, SwapNext, Put, At, Advance, ParkMe, Patient;
    if word == compare {
      if !g.v3 {
        ParkMeLeft(g, c, at, 0, addr);
      } else if deadline <= g.clock {
        AdvanceKeeps(g, TICK);
        AdvanceLeft(g, TICK, addr);
        SwapLeft(Advance(g, TICK), c, TIMED_OUT, addr);
      } else {
        ActiveRuns(g);
        var th := Park(Get(g.threads, g.active)).(deadline := deadline, order := g.parked + 1);
        ParkKeeps(g, at, th);
        ParkLeft(g, th, at, addr);
        SetLive(g.threads, th, g.active);
        var p := ParkUntil(g, at, deadline);
        SeatedParked(g.(threads := Set(g.threads, th), queues := p.queues), p.parked);
        SwapLeft(p, c, 0, addr);
      }
    }
  }

  lemma LaterLeft(g: Group, c: Ctx, ns: nat, addr: nat)
    requires GroupOk(g) && Patient(g.threads, At(g.queues, addr))
    ensures Later(g, c, ns).Ran? ==> Left(g, Later(g, c, ns).group, addr)
  {
    hide Seated, SwapNext, Advance, At, Patient;
    AdvanceKeeps(g, ns);
    AdvanceLeft(g, ns, addr);
    SwapLeft(Advance(g, ns), c, 0, addr);
  }

  lemma UnlockElsewhere(g: Group, c: Ctx, at: nat, addr: nat)
    requires GroupOk(g) && at != addr && Patient(g.threads, At(g.queues, addr))
    ensures UnlockPi(g, c, at).1.Ran? ==> Left(g, UnlockPi(g, c, at).1.group, addr)
  {
    hide Seated, Find, Unpark, Get, Set, Stored, At, Patient;
    UnparkActive(g, at);
    UnparkLeft(g, at, addr);
    StoredLeft(Unpark(g, at).0, c, 0, addr);
  }

  lemma SpawnLeft(g: Group, rsp: nat, area: nat, tidAddress: nat, addr: nat)
    requires Seated(g) && Patient(g.threads, At(g.queues, addr))
    ensures Left(g, Spawn(g, rsp, area, tidAddress), addr)
  {
    hide Accounted, QueuesOk, At, Find;
    var th := Thread(g.nextTid, false, 0, rsp, area, tidAddress, 0, 0);
    InsertLast(g.threads, th);
    var q := At(g.queues, addr);
    assert Ascending(g.threads + [th]);
    forall k | 0 <= k < |q| ensures Live(g.threads + [th], q[k]) && Get(g.threads + [th], q[k]).deadline == 0 {
      FindAppended(g.threads, th, q[k]);
    }
  }

  lemma LessLeft(g: Group, i: nat, addr: nat)
    requires Seated(g) && i < |g.threads| && !g.threads[i].waiting && Patient(g.threads, At(g.queues, addr))
    ensures Left(g, g.(threads := Less(g.threads, i)), addr)
  {
    hide Find, Accounted, QueuesOk, At, Less;
    var q := At(g.queues, addr);
    RunnableNotWaiting(g.threads, i);
    forall k | 0 <= k < |q| ensures Live(Less(g.threads, i), q[k]) && Get(Less(g.threads, i), q[k]).deadline == 0 {
      QueuedWaits(g, addr, k);
      FindLess(g.threads, i, q[k]);
    }
  }

  lemma ExitLeft(g: Group, c: Ctx, addr: nat)
    requires GroupOk(g) && Patient(g.threads, At(g.queues, addr)) && Get(g.threads, g.active).tidAddress != addr
    ensures Exit(g, c).Ran? ==> Left(g, Exit(g, c).group, addr)
  {
    hide Seated, Find, Schedule, Unpark, Less, Stored, Get, Set, At, Patient;
    var me := Get(g.threads, g.active);
    var w := if me.tidAddress != 0 then Unpark(g, me.tidAddress).0 else g;
    UnparkActive(g, me.tidAddress);
    UnparkLeft(g, me.tidAddress, addr);
    EndingRest(w, c);
    var i := Find(w.threads, w.active);
    ActiveAt(w);
    LessLeft(w, i, addr);
    var out := w.(threads := Set(w.threads, Park(Get(w.threads, w.active))));
    var s := Stored(out, c, 0);
    ScheduleWithout(s, i);
    if Schedule(s).Some? {
      var f, tid := Schedule(s).value.0, Schedule(s).value.1;
      var rest := w.(threads := Less(w.threads, i));
      assert rest == s.(threads := Less(s.threads, i));
      ScheduleOk(rest);
      ScheduleLeft(rest, addr);
      EndedIs(f, i, tid, c);
      EndedLeft(f, i, tid, c);
    }
  }

  lemma ActiveAt(g: Group)
    requires GroupOk(g)
    ensures Find(g.threads, g.active) < |g.threads| && !g.threads[Find(g.threads, g.active)].waiting
  {
  }

  lemma EndedLeft(f: Group, i: nat, tid: nat, c: Ctx)
    requires Ascending(f.threads) && i < |f.threads| && f.threads[i].tid == f.active && Live(f.threads, tid)
    ensures Resume(f, c, tid).Ran?
    ensures var h := Resume(f, c, tid).group;
            h.queues == f.queues && Remove(h.threads, f.active) == Less(f.threads, i)
  {
    FindUnique(f.threads, i);
  }

  // ---- the protocol ----

  /** A call that leaves the word alone, from a thread that may make it. */
  predicate Elsewhere(g: Group, holders: set<nat>, addr: nat, call: Call)
    requires Live(g.threads, g.active)
  {
    match call
    case FutexWait(at, _, _) => at != addr
    case FutexWaitFor(at, _, _, _, _) => at != addr
    case FutexWaitTill(at, _, _, _, _) => at != addr
    case FutexWake(at, _) => at != addr
    case FutexRequeue(from, to, _, _) => from != addr && to != addr
    case FutexLock(at, _) => at != addr
    case FutexUnlock(at) => at != addr
    case ReadClock => true
    case Sleep(_, _) => true
    case SleepTill(_, _) => true
    case YieldCpu => true
    case Clone(_, _, _) => g.nextTid + 1 < WAITERS
    case SetTidAddress(at) => at != addr
    case EndThread => g.active !in holders && Get(g.threads, g.active).tidAddress != addr
  }

  lemma ElsewhereLeft(g: Group, c: Ctx, start: nat, call: Call, holders: set<nat>, addr: nat)
    requires GroupOk(g) && Patient(g.threads, At(g.queues, addr)) && Elsewhere(g, holders, addr, call)
    ensures Serve(g, c, start, call).Ran? ==> Left(g, Serve(g, c, start, call).group, addr)
  {
    hide Seated, SwapNext, ParkMe, WaitUntil, Requeue, Exit, UnlockPi, Spawn, Advance, Find, Get, Set, At, Patient, Later;
    match call {
      case FutexWait(at, word, compare) => ParkMeLeft(g, c, at, 0, addr);
      case FutexWaitFor(at, word, compare, sec, nsec) =>
        ParkMeLeft(g, c, at, 0, addr);
        if TimeOk(sec, nsec) { WaitUntilLeft(g, c, at, word, compare, NsAdd(g.kit2, g.clock, NsOf(g.kit2, sec, nsec)), addr); }
      case FutexWaitTill(at, word, compare, sec, nsec) =>
        ParkMeLeft(g, c, at, 0, addr);
        if TimeOk(sec, nsec) { WaitUntilLeft(g, c, at, word, compare, PastStart(g.kit2, start, sec, nsec), addr); }
      case FutexWake(at, count) =>
        RequeueOk(g, at, 0, count, 0);
        RequeueLeft(g, at, 0, count, 0, addr);
        SwapLeft(Requeue(g, at, 0, count, 0).0, c, Requeue(g, at, 0, count, 0).1, addr);
      case FutexRequeue(from, to, wake, move) => RequeueLeft(g, from, to, wake, move, addr);
      case FutexLock(at, word) => ParkMeLeft(g, c, at, 0, addr);
      case FutexUnlock(at) => UnlockElsewhere(g, c, at, addr);
      case ReadClock => LaterLeft(g, c, TICK, addr);
      case Sleep(sec, nsec) =>
        if TimeOk(sec, nsec) { LaterLeft(g, c, NsOf(g.kit2, sec, nsec), addr); }
        SwapLeft(g, c, 0, addr);
      case SleepTill(sec, nsec) =>
        SwapLeft(g, c, 0, addr);
        if TimeOk(sec, nsec) && PastStart(g.kit2, start, sec, nsec) > g.clock {
          LaterLeft(g, c, PastStart(g.kit2, start, sec, nsec) - g.clock, addr);
        }
      case YieldCpu =>
        AdvanceKeeps(g, TICK);
        AdvanceLeft(g, TICK, addr);
        SwapLeft(g, c, 0, addr);
        SwapLeft(Advance(g, TICK), c, 0, addr);
      case Clone(rsp, area, tidAddress) => SpawnLeft(g, rsp, area, tidAddress, addr);
      case SetTidAddress(at) => SetTidLeft(g, at, addr);
      case EndThread => ExitLeft(g, c, addr);
    }
  }

  lemma SetTidLeft(g: Group, at: nat, addr: nat)
    requires GroupOk(g) && Patient(g.threads, At(g.queues, addr))
    ensures Left(g, g.(threads := Set(g.threads, Get(g.threads, g.active).(tidAddress := at))), addr)
  {
    ActiveRuns(g);
    SetPatient(g.threads, Get(g.threads, g.active).(tidAddress := at), At(g.queues, addr));
  }

  lemma SwapTids(g: Group, c: Ctx, ret: nat)
    requires Live(g.threads, g.active)
    ensures SwapNext(g, c, ret).Ran? ==> SwapNext(g, c, ret).group.nextTid == g.nextTid
  {
    hide NextTid, Earliest, Purge, Expire, DueTids, Find;
  }

  lemma UnparkTids(g: Group, addr: nat)
    ensures Unpark(g, addr).0.nextTid == g.nextTid
  {
  }

  /** Only a clone takes a tid. */
  lemma ServeTids(g: Group, c: Ctx, start: nat, call: Call)
    requires GroupOk(g) && Serve(g, c, start, call).Ran?
    ensures Serve(g, c, start, call).group.nextTid == if call.Clone? && call.area != 0 then g.nextTid + 1 else g.nextTid
  {
    hide Seated, SwapNext, Requeue, Find, Get, Set, At, Put, ExpireDue, Unpark, Insert, Remove, NsAdd, NsOf, PastStart;
    var a := Advance(g, TICK);
    match call {
      case FutexWait(at, word, compare) => ParkTids(g, c, at, 0);
      case FutexWaitFor(at, word, compare, sec, nsec) =>
        ParkTids(g, c, at, 0);
        if TimeOk(sec, nsec) { WaitTids(g, c, at, word, compare, NsAdd(g.kit2, g.clock, NsOf(g.kit2, sec, nsec))); }
      case FutexWaitTill(at, word, compare, sec, nsec) =>
        ParkTids(g, c, at, 0);
        if TimeOk(sec, nsec) { WaitTids(g, c, at, word, compare, PastStart(g.kit2, start, sec, nsec)); }
      case FutexWake(at, count) =>
        RequeueKeeps(g, at, 0, count, 0);
        var r := Requeue(g, at, 0, count, 0);
        if Live(r.0.threads, r.0.active) { SwapTids(r.0, c, r.1); }
      case FutexRequeue(from, to, wake, move) => RequeueKeeps(g, from, to, wake, move);
      case FutexLock(at, word) => ParkTids(g, c, at, 0);
      case FutexUnlock(at) => UnparkTids(g, at);
      case ReadClock => LaterTids(g, c, TICK);
      case Sleep(sec, nsec) =>
        if TimeOk(sec, nsec) { LaterTids(g, c, NsOf(g.kit2, sec, nsec)); }
        SwapTids(g, c, 0);
      case SleepTill(sec, nsec) =>
        SwapTids(g, c, 0);
        if TimeOk(sec, nsec) && PastStart(g.kit2, start, sec, nsec) > g.clock {
          LaterTids(g, c, PastStart(g.kit2, start, sec, nsec) - g.clock);
        }
      case YieldCpu =>
        AdvanceTids(g, TICK);
        SwapTids(g, c, 0);
        if Live(a.threads, a.active) { SwapTids(a, c, 0); }
      case Clone(rsp, area, tidAddress) =>
      case SetTidAddress(at) =>
      case EndThread => ExitTids(g, c);
    }
  }

  lemma AdvanceTids(g: Group, ns: nat)
    ensures Advance(g, ns).nextTid == g.nextTid
  {
  }

  lemma ParkTids(g: Group, c: Ctx, at: nat, ret: nat)
    requires Live(g.threads, g.active)
    ensures ParkMe(g, c, at, ret).Ran? ==> ParkMe(g, c, at, ret).group.nextTid == g.nextTid
  {
    hide SwapNext, Put, At, Find;
    var p := ParkOn(g, at, g.active);
    if Live(p.threads, p.active) { SwapTids(p, c, ret); }
  }

  lemma WaitTids(g: Group, c: Ctx, at: nat, word: nat, compare: nat, deadline: nat)
    requires Live(g.threads, g.active)
    ensures var r := WaitUntil(g, c, at, word, compare, deadline); r.Ran? ==> r.group.nextTid == g.nextTid
    ensures var r := Wait(g, c, at, word, compare); r.Ran? ==> r.group.nextTid == g.nextTid
  {
    hide SwapNext, Put, At, Find, ExpireDue;
    ParkTids(g, c, at, 0);
    AdvanceTids(g, TICK);
    var a, p := Advance(g, TICK), ParkUntil(g, at, deadline);
    if Live(a.threads, a.active) { SwapTids(a, c, TIMED_OUT); }
    if Live(p.threads, p.active) { SwapTids(p, c, 0); }
  }

  lemma LaterTids(g: Group, c: Ctx, ns: nat)
    requires Live(g.threads, g.active)
    ensures Later(g, c, ns).Ran? ==> Later(g, c, ns).group.nextTid == g.nextTid
  {
    hide SwapNext, ExpireDue, Find;
    AdvanceTids(g, ns);
    var a := Advance(g, ns);
    if Live(a.threads, a.active) { SwapTids(a, c, 0); }
  }

  lemma ExitTids(g: Group, c: Ctx)
    requires Live(g.threads, g.active)
    ensures Exit(g, c).Ran? ==> Exit(g, c).group.nextTid == g.nextTid
  {
    hide SwapNext, Find, Unpark, Get, Set, Remove;
    var me := Get(g.threads, g.active);
    UnparkTids(g, me.tidAddress);
    var w := if me.tidAddress != 0 then Unpark(g, me.tidAddress).0 else g;
    if Live(w.threads, w.active) {
      var out := w.(threads := Set(w.threads, Park(Get(w.threads, w.active))));
      if Live(out.threads, out.active) { SwapTids(out, c, 0); }
    }
  }

  // ---- the word and its holder ----

  /** The threads, one word, and who believes they hold it. */
  datatype Lock = Lock(g: Group, c: Ctx, word: nat, holders: set<nat>)

  /** What the word says: nothing held and nobody waiting; or the holder's tid,
      with the waiters bit exactly when somebody waits. */
  ghost predicate LockOk(l: Lock, addr: nat) {
    var q := At(l.g.queues, addr);
    && GroupOk(l.g) && l.g.nextTid <= WAITERS && Patient(l.g.threads, q)
    && (l.word == 0 ==> l.holders == {} && q == [])
    && (l.word != 0 ==> exists h: nat :: Holds(l, h, q))
  }

  predicate Holds(l: Lock, h: nat, q: seq<nat>) {
    0 < h < WAITERS && l.holders == {h} && h !in q && l.word == if q == [] then h else h + WAITERS
  }

  datatype Use = Acquire | Release | TakeFree | ClearOwn | Otherwise(call: Call)

  /** Who may do what: nobody locks what they hold, only a holder releases, the
      uncontended forms need the word to be exactly free or exactly theirs. */
  predicate MayUse(l: Lock, addr: nat, use: Use)
    requires Live(l.g.threads, l.g.active)
  {
    match use
    case Acquire => l.g.active !in l.holders
    case Release => l.g.active in l.holders
    case TakeFree => l.word == 0
    case ClearOwn => l.g.active in l.holders && l.word == l.g.active
    case Otherwise(call) => Elsewhere(l.g, l.holders, addr, call)
  }

  /** One use of the word, or a call elsewhere; nothing when the machine stops. */
  function UseIt(l: Lock, addr: nat, start: nat, use: Use): Option<Lock>
    requires Live(l.g.threads, l.g.active)
  {
    match use
    case Acquire =>
      var (word, o) := LockPi(l.g, l.c, addr, l.word);
      if o.Deadlock? then None
      else Some(Lock(o.group, o.ctx, word, if l.word == 0 then l.holders + {l.g.active} else l.holders))
    case Release =>
      var q := At(l.g.queues, addr);
      var (word, o) := UnlockPi(l.g, l.c, addr);
      if o.Deadlock? then None
      else Some(Lock(o.group, o.ctx, word, l.holders - {l.g.active} + (if q == [] then {} else {q[0]})))
    case TakeFree => Some(l.(word := l.g.active, holders := l.holders + {l.g.active}))
    case ClearOwn => Some(l.(word := 0, holders := l.holders - {l.g.active}))
    case Otherwise(call) =>
      match Serve(l.g, l.c, start, call)
      case Deadlock => None
      case Ran(h, d, _) => Some(l.(g := h, c := d))
  }

  lemma ActiveBelow(g: Group)
    requires GroupOk(g) && g.nextTid <= WAITERS
    ensures 0 < g.active < WAITERS
  {
    var i := Find(g.threads, g.active);
    assert g.threads[i].tid == g.active;
  }

  lemma QueuedBelow(g: Group, addr: nat, k: nat)
    requires GroupOk(g) && g.nextTid <= WAITERS && k < |At(g.queues, addr)|
    ensures var u := At(g.queues, addr)[k]; 0 < u < WAITERS && u != g.active
  {
    QueuedWaits(g, addr, k);
    var u := At(g.queues, addr)[k];
    var i := Find(g.threads, u);
    assert g.threads[i].tid == u;
  }

  lemma NotQueued(g: Group, addr: nat)
    requires GroupOk(g)
    ensures g.active !in At(g.queues, addr)
  {
    var q := At(g.queues, addr);
    if g.active in q {
      var k :| 0 <= k < |q| && q[k] == g.active;
      QueuedWaits(g, addr, k);
    }
  }

  lemma QueuedOnce(g: Group, addr: nat)
    requires Seated(g) && At(g.queues, addr) != []
    ensures At(g.queues, addr)[0] !in At(g.queues, addr)[1..]
  {
    var q := At(g.queues, addr);
    AtCount(g.queues, addr, q[0]);
    CountInMember(q[1..], q[0]);
    QueuedWaits(g, addr, 0);
    assert Waits(g.queues, q[0]) == 1;
  }

  lemma AcquireOk(l: Lock, addr: nat)
    requires LockOk(l, addr) && l.g.active !in l.holders
    ensures var r := UseIt(l, addr, 0, Acquire); r.Some? ==> LockOk(r.value, addr)
  {
    hide Seated, SwapNext, Find, Put, Patient;
    var g, q := l.g, At(l.g.queues, addr);
    ActiveBelow(g);
    NotQueued(g, addr);
    if l.word == 0 {
      var r := UseIt(l, addr, 0, Acquire).value;
      assert r.holders == {g.active};
      assert Holds(r, g.active, q);
    } else {
      var h: nat :| Holds(l, h, q);
      ParkMeOk(g, l.c, addr, 0);
      ParkTids(g, l.c, addr, 0);
      ParkMeHere(g, l.c, addr, 0);
      var o := ParkMe(g, l.c, addr, 0);
      if o.Ran? {
        var r := UseIt(l, addr, 0, Acquire).value;
        assert Holds(r, h, q + [g.active]);
      }
    }
  }

  /** Parking on the word itself: at its queue's end, without a deadline. */
  lemma ParkMeHere(g: Group, c: Ctx, addr: nat, ret: nat)
    requires GroupOk(g) && Patient(g.threads, At(g.queues, addr))
    ensures var o := ParkMe(g, c, addr, ret);
            o.Ran? ==> At(o.group.queues, addr) == At(g.queues, addr) + [g.active] && Patient(o.group.threads, At(o.group.queues, addr))
  {
    hide Accounted, SwapNext, Put, At;
    ActiveRuns(g);
    var th, q := Park(Get(g.threads, g.active)), At(g.queues, addr);
    ParkKeeps(g, addr, th);
    SetLive(g.threads, th, g.active);
    var p := ParkOn(g, addr, g.active);
    PutAt(g.queues, addr, q + [g.active], addr);
    SetPatient(g.threads, th, q);
    SetFinds(g.threads, th, g.active);
    assert Patient(p.threads, q + [g.active]);
    SwapLeft(p, c, ret, addr);
  }

  lemma ReleaseOk(l: Lock, addr: nat)
    requires LockOk(l, addr) && l.g.active in l.holders
    ensures var r := UseIt(l, addr, 0, Release); r.Some? && LockOk(r.value, addr)
    ensures var q, r := At(l.g.queues, addr), UseIt(l, addr, 0, Release);
            q != [] ==> r.value.holders == {q[0]} && r.value.g.active == q[0]
  {
    hide Seated, Find, Put, Patient, UnlockPi;
    var g, q := l.g, At(l.g.queues, addr);
    var h: nat :| Holds(l, h, q);
    UnlockPiOk(g, l.c, addr);
    UnlockTids(g, l.c, addr);
    UnlockHere(g, l.c, addr);
    var r := UseIt(l, addr, 0, Release).value;
    if q != [] {
      QueuedBelow(g, addr, 0);
      QueuedOnce(g, addr);
      assert Holds(r, q[0], q[1..]);
    }
  }

  lemma UnlockTids(g: Group, c: Ctx, addr: nat)
    requires GroupOk(g)
    ensures UnlockPi(g, c, addr).1.Ran? ==> UnlockPi(g, c, addr).1.group.nextTid == g.nextTid
  {
    hide Unpark, Find, Get, Set, Seated;
    UnparkTids(g, addr);
  }

  lemma UnlockHere(g: Group, c: Ctx, addr: nat)
    requires GroupOk(g) && Patient(g.threads, At(g.queues, addr))
    ensures var o := UnlockPi(g, c, addr).1; o.Ran? ==> Patient(o.group.threads, At(o.group.queues, addr))
  {
    hide Accounted, QueuesOk, Put, At, Find;
    UnparkIs(g, addr);
    UnparkActive(g, addr);
    var q := At(g.queues, addr);
    if q != [] {
      var h := Unpark(g, addr).0;
      UnparkAt(g, addr, addr);
      assert Patient(g.threads, q[1..]);
      SetPatient(g.threads, Wake(Get(g.threads, q[0])), q[1..]);
      StoredLeft(h, c, 0, addr);
    }
  }

  /** Every use keeps the protocol, and every call elsewhere leaves it alone. */
  lemma UseOk(l: Lock, addr: nat, start: nat, use: Use)
    requires LockOk(l, addr) && MayUse(l, addr, use)
    ensures UseIt(l, addr, start, use).Some? ==> LockOk(UseIt(l, addr, start, use).value, addr)
  {
    hide Seated, SwapNext, Find, Put, Patient, LockPi, UnlockPi, Serve;
    var q := At(l.g.queues, addr);
    match use {
      case Acquire => AcquireOk(l, addr);
      case Release => ReleaseOk(l, addr);
      case TakeFree =>
        ActiveBelow(l.g);
        NotQueued(l.g, addr);
        var r := UseIt(l, addr, start, use).value;
        assert r.holders == {l.g.active};
        assert Holds(r, l.g.active, q);
      case ClearOwn =>
        ActiveBelow(l.g);
        var h: nat :| Holds(l, h, q);
      case Otherwise(call) =>
        ServeOk(l.g, l.c, start, call);
        if Serve(l.g, l.c, start, call).Ran? {
          ElsewhereLeft(l.g, l.c, start, call, l.holders, addr);
          ServeTids(l.g, l.c, start, call);
          if l.word != 0 {
            var h: nat :| Holds(l, h, q);
            assert Holds(UseIt(l, addr, start, use).value, h, q);
          }
        }
    }
  }

  ghost predicate UsesAllowed(l: Lock, addr: nat, start: nat, uses: seq<Use>)
    decreases |uses|
  {
    uses != [] && Live(l.g.threads, l.g.active) ==>
      && MayUse(l, addr, uses[0])
      && (UseIt(l, addr, start, uses[0]).Some? ==> UsesAllowed(UseIt(l, addr, start, uses[0]).value, addr, start, uses[1..]))
  }

  ghost function After(l: Lock, addr: nat, start: nat, uses: seq<Use>): Option<Lock>
    decreases |uses|
  {
    if uses == [] || !Live(l.g.threads, l.g.active) then Some(l)
    else
      match UseIt(l, addr, start, uses[0])
      case None => None
      case Some(m) => After(m, addr, start, uses[1..])
  }

  /** Mutual exclusion over every run: never two holders, and the word names the
      one there is. */
  lemma {:induction false} LockRuns(l: Lock, addr: nat, start: nat, uses: seq<Use>)
    requires LockOk(l, addr) && UsesAllowed(l, addr, start, uses)
    ensures var r := After(l, addr, start, uses); r.Some? ==> LockOk(r.value, addr) && |r.value.holders| <= 1
    decreases |uses|
  {
    hide GroupOk, UseIt, MayUse, Patient, At;
    if uses != [] && Live(l.g.threads, l.g.active) {
      UseOk(l, addr, start, uses[0]);
      match UseIt(l, addr, start, uses[0])
      case None =>
      case Some(m) => LockRuns(m, addr, start, uses[1..]);
    }
  }
}
