/** What every scheduler call keeps: the queues account for every parked
    thread, and virtual time stays in order. */
module ThreadLaws {
  import opened Pages
  import opened Queues
  import opened Threads

  // ---- who waits ----

  lemma SetWaits(ts: seq<Thread>, th: Thread, u: nat)
    requires Ascending(ts) && Live(ts, th.tid)
    ensures IsWaiting(Set(ts, th), u) == if u == th.tid then th.waiting else IsWaiting(ts, u)
  {
    SetFinds(ts, th, u);
  }

  lemma SetMember(ts: seq<Thread>, th: Thread, i: nat)
    requires Ascending(ts) && Live(ts, th.tid) && i < |ts|
    ensures Set(ts, th)[i] == if ts[i].tid == th.tid then th else ts[i]
  {
    FindUnique(ts, i);
  }

  /** Whoever stands in a queue is parked. */
  lemma QueuedWaits(g: Group, addr: nat, k: nat)
    requires Seated(g) && k < |At(g.queues, addr)|
    ensures IsWaiting(g.threads, At(g.queues, addr)[k])
  {
    var q := At(g.queues, addr);
    CountInMember(q, q[k]);
    AtCount(g.queues, addr, q[k]);
    assert Waits(g.queues, q[k]) > 0;
  }

  lemma {:induction false} AtEmpty(qs: seq<Queue>, addr: nat)
    requires QueuesOk(qs) && At(qs, addr) == []
    ensures Put(qs, addr, []) == qs
  {
    if qs != [] {
      AtEmpty(qs[1..], addr);
    }
  }

  /** With every entry accounted for, unpark_one takes the queue's head. */
  lemma UnparkIs(g: Group, addr: nat)
    requires Seated(g)
    ensures var q := At(g.queues, addr);
            if q == [] then Unpark(g, addr) == (g, None, false)
            else
              && IsWaiting(g.threads, q[0])
              && Unpark(g, addr) == (g.(threads := Set(g.threads, Wake(Get(g.threads, q[0]))), queues := Put(g.queues, addr, q[1..])),
                                     Some(q[0]), |q| > 1)
  {
    var q := At(g.queues, addr);
    if q == [] {
      AtEmpty(g.queues, addr);
    } else {
      QueuedWaits(g, addr, 0);
    }
  }

  // ---- changing one thread and one queue together ----

  /** One thread's record and one word's queue replaced, in agreement. */
  lemma ReseatKeeps(g: Group, th: Thread, addr: nat, tids: seq<nat>)
    requires Seated(g) && Live(g.threads, th.tid) && (th.deadline != 0 ==> th.waiting && g.v3)
    requires forall u: nat :: CountIn(tids, u) - CountIn(At(g.queues, addr), u) ==
                              (if u == th.tid then (if th.waiting then 1 else 0) - (if IsWaiting(g.threads, u) then 1 else 0) else 0)
    ensures Seated(g.(threads := Set(g.threads, th), queues := Put(g.queues, addr, tids)))
  {
    var ts, qs := Set(g.threads, th), Put(g.queues, addr, tids);
    PutOk(g.queues, addr, tids);
    SetFinds(g.threads, th, 0);
    forall u: nat ensures Waits(qs, u) == if IsWaiting(ts, u) then 1 else 0 {
      PutCount(g.queues, addr, tids, u);
      SetWaits(g.threads, th, u);
      assert Waits(g.queues, u) == if IsWaiting(g.threads, u) then 1 else 0;
      assert CountIn(tids, u) - CountIn(At(g.queues, addr), u) ==
             (if u == th.tid then (if th.waiting then 1 else 0) - (if IsWaiting(g.threads, u) then 1 else 0) else 0);
    }
    forall i | 0 <= i < |ts|
      ensures 0 < ts[i].tid < g.nextTid && (ts[i].deadline != 0 ==> ts[i].waiting && g.v3)
    {
      SetMember(g.threads, th, i);
    }
  }

  lemma UnparkKeeps(g: Group, addr: nat)
    requires Seated(g)
    ensures Seated(Unpark(g, addr).0)
  {
    hide Seated, Put, At;
    UnparkIs(g, addr);
    var q := At(g.queues, addr);
    if q != [] {
      var th := Wake(Get(g.threads, q[0]));
      forall u: nat ensures CountIn(q[1..], u) - CountIn(q, u) == if u == th.tid then -1 else 0 {
      }
      ReseatKeeps(g, th, addr, q[1..]);
    }
  }

  lemma ParkKeeps(g: Group, addr: nat, th: Thread)
    requires Seated(g) && Live(g.threads, th.tid) && !IsWaiting(g.threads, th.tid) && th.waiting && (th.deadline != 0 ==> g.v3)
    ensures Seated(g.(threads := Set(g.threads, th), queues := Put(g.queues, addr, At(g.queues, addr) + [th.tid])))
  {
    hide Seated, Put, At;
    var q := At(g.queues, addr);
    forall u: nat ensures CountIn(q + [th.tid], u) - CountIn(q, u) == if u == th.tid then 1 else 0 {
      CountInAppend(q, [th.tid], u);
    }
    ReseatKeeps(g, th, addr, q + [th.tid]);
  }

  /** One thread's record replaced, parked or not as before. */
  lemma TouchKeeps(g: Group, th: Thread)
    requires Seated(g) && Live(g.threads, th.tid) && th.waiting == IsWaiting(g.threads, th.tid)
    requires th.deadline != 0 ==> th.waiting && g.v3
    ensures Seated(g.(threads := Set(g.threads, th)))
  {
    var ts := Set(g.threads, th);
    SetFinds(g.threads, th, 0);
    forall u: nat ensures Waits(g.queues, u) == if IsWaiting(ts, u) then 1 else 0 {
      SetWaits(g.threads, th, u);
    }
    forall i | 0 <= i < |ts|
      ensures 0 < ts[i].tid < g.nextTid && (ts[i].deadline != 0 ==> ts[i].waiting && g.v3)
    {
      SetMember(g.threads, th, i);
    }
  }

  // ---- expiry ----

  lemma ExpireFinds(ts: seq<Thread>, gone: set<nat>, u: nat)
    requires Ascending(ts)
    ensures Ascending(Expire(ts, gone)) && Find(Expire(ts, gone), u) == Find(ts, u)
    ensures IsWaiting(Expire(ts, gone), u) == (IsWaiting(ts, u) && u !in gone)
  {
    var r := Expire(ts, gone);
    if Find(ts, u) < |ts| { FindUnique(r, Find(ts, u)); }
    if Find(r, u) < |r| { FindUnique(ts, Find(r, u)); }
  }

  /** Expiring parked threads keeps every queue in step. */
  lemma ExpireKeeps(g: Group)
    requires Seated(g)
    ensures Seated(ExpireDue(g))
  {
    var gone := DueTids(g.threads, g.clock);
    var ts, qs := Expire(g.threads, gone), Purge(g.queues, gone);
    PurgeOk(g.queues, gone);
    ExpireFinds(g.threads, gone, 0);
    forall u: nat ensures Waits(qs, u) == if IsWaiting(ts, u) then 1 else 0 {
      PurgeCount(g.queues, gone, u);
      ExpireFinds(g.threads, gone, u);
      assert Waits(g.queues, u) == if IsWaiting(g.threads, u) then 1 else 0;
    }
  }

  /** After expiry nothing parked is due. */
  lemma ExpireTimes(g: Group)
    requires Seated(g) && g.clock <= CLOCK_MAX
    requires forall i | 0 <= i < |g.threads| :: g.threads[i].deadline <= CLOCK_MAX
    ensures OnTime(ExpireDue(g))
  {
    var gone := DueTids(g.threads, g.clock);
    forall i | 0 <= i < |g.threads| && ExpireDue(g).threads[i].deadline != 0
      ensures g.clock < ExpireDue(g).threads[i].deadline <= CLOCK_MAX
    {
      assert g.threads[i].tid !in gone;
    }
  }

  // ---- scheduling ----

  lemma FirstAboveLive(ts: seq<Thread>, after: nat)
    requires Ascending(ts) && FirstAbove(ts, after).Some?
    ensures Live(ts, FirstAbove(ts, after).value) && !IsWaiting(ts, FirstAbove(ts, after).value)
  {
    var tid := FirstAbove(ts, after).value;
    var i :| 0 <= i < |ts| && ts[i].tid == tid && tid > after && !ts[i].waiting;
    FindUnique(ts, i);
  }

  /** Somebody is runnable exactly when there is a next. */
  lemma NextExists(g: Group)
    requires Seated(g)
    ensures NextTid(g.threads, g.active).Some? <==> exists i | 0 <= i < |g.threads| :: !g.threads[i].waiting
    ensures NextTid(g.threads, g.active).Some? ==>
              var tid := NextTid(g.threads, g.active).value; Live(g.threads, tid) && !IsWaiting(g.threads, tid)
  {
    var up, round := FirstAbove(g.threads, g.active), FirstAbove(g.threads, 0);
    if up.Some? { FirstAboveLive(g.threads, g.active); }
    if round.Some? { FirstAboveLive(g.threads, 0); }
    forall i | 0 <= i < |g.threads| && !g.threads[i].waiting ensures round.Some? {
      assert g.threads[i].tid > 0;
    }
  }

  lemma StoredKeeps(g: Group, c: Ctx, ret: nat)
    requires Seated(g) && Live(g.threads, g.active)
    ensures Seated(Stored(g, c, ret)) && Stored(g, c, ret).active == g.active && Live(Stored(g, c, ret).threads, g.active)
    ensures forall i | 0 <= i < |g.threads| ::
              var a, b := g.threads[i], Stored(g, c, ret).threads[i];
              b.tid == a.tid && b.waiting == a.waiting && b.deadline == a.deadline
  {
    var th := Get(g.threads, g.active);
    var new_ := th.(rax := ret, rsp := c.rsp, area := c.area);
    FindUnique(g.threads, Find(g.threads, g.active));
    assert th == g.threads[Find(g.threads, g.active)];
    assert th.waiting == IsWaiting(g.threads, g.active);
    TouchKeeps(g, new_);
    SetFinds(g.threads, new_, g.active);
    forall i | 0 <= i < |g.threads|
      ensures var a, b := g.threads[i], Stored(g, c, ret).threads[i];
              b.tid == a.tid && b.waiting == a.waiting && b.deadline == a.deadline
    {
      SetMember(g.threads, new_, i);
    }
  }

  /** With everybody parked and somebody on a deadline, going forward to the
      earliest one wakes somebody. */
  lemma ForwardWakes(g: Group)
    requires Seated(g) && Earliest(g.threads) != 0
    ensures var f := ExpireDue(g.(clock := Earliest(g.threads)));
            Seated(f) && exists i | 0 <= i < |f.threads| :: !f.threads[i].waiting
  {
    var dl := Earliest(g.threads);
    var h := g.(clock := dl);
    ExpireKeeps(h);
    var i :| 0 <= i < |g.threads| && g.threads[i].waiting && g.threads[i].deadline == dl;
    assert Due(h.threads[i], dl);
    assert !ExpireDue(h).threads[i].waiting;
  }

  lemma ResumeOk(g: Group, c: Ctx, tid: nat)
    requires Seated(g) && Live(g.threads, tid) && !IsWaiting(g.threads, tid)
    ensures Resume(g, c, tid).Ran? && GroupOk(Resume(g, c, tid).group)
  {
    hide Accounted, Ascending, QueuesOk, DeadlinesParked, TidsBelow, Find;
  }

  predicate AllParked(ts: seq<Thread>) {
    forall i | 0 <= i < |ts| :: ts[i].waiting
  }

  predicate NoDeadline(ts: seq<Thread>) {
    forall i | 0 <= i < |ts| :: ts[i].deadline == 0
  }

  /** Nobody goes on exactly when nobody is runnable and nobody parked will ever
      be due; otherwise somebody runnable does. */
  lemma ScheduleOk(s: Group)
    requires Seated(s)
    ensures var r := Schedule(s);
            && (r == None <==> AllParked(s.threads) && (!s.v3 || NoDeadline(s.threads)))
            && (r.Some? ==> Seated(r.value.0) && r.value.0.active == s.active
                            && Live(r.value.0.threads, r.value.1) && !IsWaiting(r.value.0.threads, r.value.1))
  {
    hide Seated, NextTid, Earliest, ExpireDue, Find;
    NextExists(s);
    NoneEarliest(s);
    if NextTid(s.threads, s.active) == None && s.v3 && Earliest(s.threads) != 0 {
      var f := ExpireDue(s.(clock := Earliest(s.threads)));
      ForwardWakes(s);
      NextExists(f);
      ForwardSame(s);
    }
  }

  lemma ForwardSame(s: Group)
    ensures ExpireDue(s.(clock := Earliest(s.threads))).active == s.active
  {
  }

  /** A deadlock is declared exactly when nobody is runnable and nobody parked
      will ever be due; otherwise somebody runnable goes on. */
  lemma SwapNextOk(g: Group, c: Ctx, ret: nat)
    requires Seated(g) && Live(g.threads, g.active)
    ensures var r := SwapNext(g, c, ret);
            && (r.Deadlock? <==> AllParked(g.threads) && (!g.v3 || NoDeadline(g.threads)))
            && (r.Ran? ==> GroupOk(r.group))
  {
    hide Seated, Resume, Schedule, Find, GroupOk, AllParked, NoDeadline;
    var s := Stored(g, c, ret);
    StoredKeeps(g, c, ret);
    StoredSame(g, c, ret);
    ScheduleOk(s);
    var r := Schedule(s);
    if r.Some? { ResumeOk(r.value.0, c, r.value.1); }
  }

  lemma StoredSame(g: Group, c: Ctx, ret: nat)
    requires Seated(g) && Live(g.threads, g.active)
    ensures AllParked(Stored(g, c, ret).threads) == AllParked(g.threads)
    ensures NoDeadline(Stored(g, c, ret).threads) == NoDeadline(g.threads)
  {
    hide Find, Seated, Accounted;
    StoredKeeps(g, c, ret);
    var ts, us := g.threads, Stored(g, c, ret).threads;
    assert |ts| == |us|;
    assert forall i | 0 <= i < |ts| :: us[i].waiting == ts[i].waiting && us[i].deadline == ts[i].deadline;
  }

  lemma NoneEarliest(g: Group)
    requires Seated(g)
    ensures Earliest(g.threads) == 0 <==> NoDeadline(g.threads)
  {
  }

  // ---- the calls ----

  lemma ActiveRuns(g: Group)
    requires GroupOk(g)
    ensures !IsWaiting(g.threads, g.active) && Get(g.threads, g.active).tid == g.active && Get(g.threads, g.active).deadline == 0
  {
    assert g.threads[Find(g.threads, g.active)] == Get(g.threads, g.active);
  }

  /** Every thread but one is parked. */
  predicate OthersParked(ts: seq<Thread>, active: nat) {
    forall i | 0 <= i < |ts| && ts[i].tid != active :: ts[i].waiting
  }

  /** Nobody but the thread that runs is runnable, and nobody will be by
      waiting: whoever parks now for good stops the machine. */
  predicate LastOne(g: Group) {
    OthersParked(g.threads, g.active) && (!g.v3 || NoDeadline(g.threads))
  }

  /** Parking stops the machine exactly when nobody is left. */
  lemma ParkMeOk(g: Group, c: Ctx, addr: nat, ret: nat)
    requires GroupOk(g)
    ensures ParkMe(g, c, addr, ret).Ran? ==> GroupOk(ParkMe(g, c, addr, ret).group)
    ensures ParkMe(g, c, addr, ret).Deadlock? <==> LastOne(g)
  {
    hide Seated, SwapNext, Put, At, AllParked, NoDeadline, OthersParked;
    ActiveRuns(g);
    var th := Park(Get(g.threads, g.active));
    ParkKeeps(g, addr, th);
    SetLive(g.threads, th, g.active);
    ParkedAll(g, th);
    SwapNextOk(ParkOn(g, addr, g.active), c, ret);
  }

  lemma ParkedAll(g: Group, th: Thread)
    requires GroupOk(g) && th.tid == g.active && th.waiting
    ensures AllParked(Set(g.threads, th)) <==> OthersParked(g.threads, g.active)
    ensures NoDeadline(Set(g.threads, th)) <==> NoDeadline(g.threads) && th.deadline == 0
  {
    hide Accounted, QueuesOk, TidsBelow;
    var ts, us := g.threads, Set(g.threads, th);
    ActiveRuns(g);
    ActiveAt(g);
    var a := Find(ts, g.active);
    forall i | 0 <= i < |ts| ensures us[i] == if i == a then th else ts[i] {}
    assert forall i | 0 <= i < |ts| && i != a :: ts[i].tid != g.active && us[i] == ts[i];
    assert us[a] == th && ts[a].deadline == 0;
  }

  lemma SetLive(ts: seq<Thread>, th: Thread, u: nat)
    requires Live(ts, th.tid)
    ensures Live(ts, u) ==> Live(Set(ts, th), u)
  {
    var r := Set(ts, th);
    if Live(ts, u) {
      var i := Find(ts, u);
      assert r[i].tid == u;
    }
  }

  lemma SeatedParts(g: Group)
    requires Seated(g)
    ensures Ascending(g.threads) && QueuesOk(g.queues)
  {
  }

  lemma AdvanceKeeps(g: Group, ns: nat)
    requires GroupOk(g)
    ensures GroupOk(Advance(g, ns))
  {
    hide Accounted, QueuesOk, Purge;
    var h := g.(clock := NsAdd(g.kit2, g.clock, ns));
    ExpireKeeps(h);
    ActiveRuns(g);
    ExpireFinds(g.threads, DueTids(h.threads, h.clock), g.active);
  }

  lemma WaitUntilOk(g: Group, c: Ctx, addr: nat, word: nat, compare: nat, deadline: nat)
    requires GroupOk(g)
    ensures var r := WaitUntil(g, c, addr, word, compare, deadline); r.Ran? ==> GroupOk(r.group)
  {
    hide Seated, SwapNext, Put, At, Advance, ParkMe;
    if word == compare {
      if !g.v3 {
        ParkMeOk(g, c, addr, 0);
      } else if deadline <= g.clock {
        AdvanceKeeps(g, TICK);
        SwapNextOk(Advance(g, TICK), c, TIMED_OUT);
      } else {
        ActiveRuns(g);
        var th := Park(Get(g.threads, g.active)).(deadline := deadline, order := g.parked + 1);
        ParkKeeps(g, addr, th);
        SetLive(g.threads, th, g.active);
        var p := ParkUntil(g, addr, deadline);
        SeatedParked(g.(threads := Set(g.threads, th), queues := p.queues), p.parked);
        SwapNextOk(p, c, 0);
      }
    }
  }

  lemma SeatedParked(g: Group, n: nat)
    requires Seated(g)
    ensures Seated(g.(parked := n))
  {
  }

  lemma SchedYieldOk(g: Group, c: Ctx)
    requires GroupOk(g)
    ensures SchedYield(g, c).Ran? ==> GroupOk(SchedYield(g, c).group)
  {
    hide Seated, SwapNext, Advance;
    AdvanceKeeps(g, TICK);
    SwapNextOk(g, c, 0);
    SwapNextOk(Advance(g, TICK), c, 0);
  }

  lemma {:induction false} InsertLast(ts: seq<Thread>, th: Thread)
    requires forall i | 0 <= i < |ts| :: ts[i].tid < th.tid
    ensures Insert(ts, th) == ts + [th]
  {
  }

  lemma FindAppended(ts: seq<Thread>, th: Thread, u: nat)
    requires Ascending(ts + [th])
    ensures Live(ts, u) ==> Find(ts + [th], u) == Find(ts, u)
    ensures IsWaiting(ts + [th], u) == (IsWaiting(ts, u) || (u == th.tid && th.waiting))
  {
    var all := ts + [th];
    if Find(ts, u) < |ts| {
      FindUnique(all, Find(ts, u));
      assert all[Find(ts, u)].tid < all[|ts|].tid;
    } else if u == th.tid {
      FindUnique(all, |ts|);
    }
    var i := Find(all, u);
    assert i < |ts| ==> all[i] == ts[i];
    assert i == |ts| ==> all[i] == th;
  }

  lemma SpawnOk(g: Group, rsp: nat, area: nat, tidAddress: nat)
    requires GroupOk(g)
    ensures GroupOk(Spawn(g, rsp, area, tidAddress))
  {
    hide Find, QueuesOk, Waits;
    var th := Thread(g.nextTid, false, 0, rsp, area, tidAddress, 0, 0);
    InsertLast(g.threads, th);
    var ts := g.threads + [th];
    assert Ascending(ts);
    forall u: nat ensures Waits(g.queues, u) == if IsWaiting(ts, u) then 1 else 0 {
      FindAppended(g.threads, th, u);
    }
    FindAppended(g.threads, th, g.active);
  }

  // ---- waking and requeueing ----

  function Min(a: nat, b: nat): nat {
    if a < b then a else b
  }

  lemma UnparkAt(g: Group, addr: nat, b: nat)
    requires Seated(g) && At(g.queues, addr) != []
    ensures var q, h := At(g.queues, addr), Unpark(g, addr).0;
            At(h.queues, b) == if b == addr then q[1..] else At(g.queues, b)
  {
    UnparkIs(g, addr);
    PutAt(g.queues, addr, At(g.queues, addr)[1..], b);
  }

  lemma UnparkWaits(g: Group, addr: nat, u: nat)
    requires Seated(g) && At(g.queues, addr) != []
    ensures var q, h := At(g.queues, addr), Unpark(g, addr).0;
            && IsWaiting(h.threads, u) == (IsWaiting(g.threads, u) && u != q[0])
            && Find(h.threads, u) == Find(g.threads, u) && |h.threads| == |g.threads| && Live(g.threads, q[0])
  {
    UnparkIs(g, addr);
    var q := At(g.queues, addr);
    SetWaits(g.threads, Wake(Get(g.threads, q[0])), u);
    SetFinds(g.threads, Wake(Get(g.threads, q[0])), u);
  }

  lemma MoveOn(g: Group, to: nat, tid: nat)
    requires Seated(g) && Live(g.threads, tid) && !IsWaiting(g.threads, tid) && Get(g.threads, tid).deadline == 0
    ensures var h := ParkOn(g, to, tid);
            && Seated(h) && |h.threads| == |g.threads|
            && (forall b :: At(h.queues, b) == if b == to then At(g.queues, to) + [tid] else At(g.queues, b))
            && (forall u: nat :: IsWaiting(h.threads, u) == (IsWaiting(g.threads, u) || u == tid) && Find(h.threads, u) == Find(g.threads, u))
  {
    var th := Park(Get(g.threads, tid));
    ParkKeeps(g, to, th);
    var h := ParkOn(g, to, tid);
    forall b ensures At(h.queues, b) == if b == to then At(g.queues, to) + [tid] else At(g.queues, b) {
      PutAt(g.queues, to, At(g.queues, to) + [tid], b);
    }
    forall u: nat ensures IsWaiting(h.threads, u) == (IsWaiting(g.threads, u) || u == tid) && Find(h.threads, u) == Find(g.threads, u) {
      SetWaits(g.threads, th, u);
      SetFinds(g.threads, th, u);
    }
  }

  lemma UnparkFresh(g: Group, addr: nat)
    requires Seated(g) && At(g.queues, addr) != []
    ensures var h, tid := Unpark(g, addr).0, At(g.queues, addr)[0];
            Live(h.threads, tid) && !IsWaiting(h.threads, tid) && Get(h.threads, tid).deadline == 0
  {
    UnparkIs(g, addr);
    UnparkWaits(g, addr, At(g.queues, addr)[0]);
    SetFinds(g.threads, Wake(Get(g.threads, At(g.queues, addr)[0])), At(g.queues, addr)[0]);
  }

  /** What a requeue leaves, from q, the waiters of the first word in order:
      k of them woken, the next moved. */
  ghost predicate Requeued(g: Group, from: nat, to: nat, k: nat, n: nat, h: Group) {
    var q := At(g.queues, from);
    && k <= n <= |q| && Seated(h) && |h.threads| == |g.threads|
    && At(h.queues, from) == q[n..] && At(h.queues, to) == At(g.queues, to) + q[k..n]
    && (forall b | b != from && b != to :: At(h.queues, b) == At(g.queues, b))
    && (forall u: nat :: IsWaiting(h.threads, u) == (IsWaiting(g.threads, u) && u !in q[..k]))
    && (forall u: nat :: Find(h.threads, u) == Find(g.threads, u))
    && h == g.(threads := h.threads, queues := h.queues)
  }

  lemma RequeueNone(g: Group, from: nat, to: nat)
    requires Seated(g) && from != to
    ensures Requeued(g, from, to, 0, 0, g)
  {
    assert At(g.queues, to) + [] == At(g.queues, to);
  }

  /** One more woken ahead of a requeue. */
  lemma WokenFirst(g: Group, from: nat, to: nat, k: nat, n: nat, h: Group)
    requires Seated(g) && from != to && At(g.queues, from) != [] && Requeued(Unpark(g, from).0, from, to, k, n, h)
    ensures Requeued(g, from, to, k + 1, n + 1, h)
  {
    hide Seated, Find, At, IsWaiting, Unpark;
    var q, g1 := At(g.queues, from), Unpark(g, from).0;
    UnparkIs(g, from);
    UnparkAt(g, from, from);
    UnparkAt(g, from, to);
    assert q[1..][n..] == q[n + 1..] && q[1..][k..n] == q[k + 1..n + 1] && q[..k + 1] == [q[0]] + q[1..][..k];
    forall b | b != from && b != to ensures At(h.queues, b) == At(g.queues, b) { UnparkAt(g, from, b); }
    forall u: nat
      ensures IsWaiting(h.threads, u) == (IsWaiting(g.threads, u) && u !in q[..k + 1]) && Find(h.threads, u) == Find(g.threads, u)
    {
      UnparkWaits(g, from, u);
    }
  }

  /** One moved ahead of a requeue that only moves. */
  lemma MovedFirst(g: Group, from: nat, to: nat, n: nat, h: Group)
    requires Seated(g) && from != to && At(g.queues, from) != []
    requires var g1 := Unpark(g, from).0; Live(g1.threads, At(g.queues, from)[0]) && Requeued(ParkOn(g1, to, At(g.queues, from)[0]), from, to, 0, n, h)
    ensures Requeued(g, from, to, 0, n + 1, h)
  {
    hide Seated, Find;
    var q, g1 := At(g.queues, from), Unpark(g, from).0;
    UnparkIs(g, from);
    UnparkKeeps(g, from);
    UnparkFresh(g, from);
    UnparkAt(g, from, from);
    UnparkAt(g, from, to);
    MoveOn(g1, to, q[0]);
    assert q[1..][n..] == q[n + 1..] && q[0..n + 1] == [q[0]] + q[1..][0..n];
    assert At(g.queues, to) + [q[0]] + q[1..][0..n] == At(g.queues, to) + q[0..n + 1];
    forall b | b != from && b != to ensures At(h.queues, b) == At(g.queues, b) { UnparkAt(g, from, b); }
    forall u: nat
      ensures IsWaiting(h.threads, u) == IsWaiting(g.threads, u) && Find(h.threads, u) == Find(g.threads, u)
    {
      UnparkWaits(g, from, u);
    }
    assert q[..0] == [];
  }

  lemma RequeueStop(g: Group, from: nat, to: nat, wake: nat, move: nat)
    requires Seated(g) && (wake + move == 0 || At(g.queues, from) == [])
    ensures Requeue(g, from, to, wake, move) == (g, 0)
  {
    hide Seated, Find, Put, At;
    UnparkIs(g, from);
  }

  lemma RequeueWakes(g: Group, from: nat, to: nat, wake: nat, move: nat)
    requires Seated(g) && At(g.queues, from) != [] && wake > 0
    ensures var q, g1 := At(g.queues, from), Unpark(g, from).0;
            Requeue(g, from, to, wake, move) ==
              if |q| > 1 then (Requeue(g1, from, to, wake - 1, move).0, Requeue(g1, from, to, wake - 1, move).1 + 1) else (g1, 1)
  {
    hide Seated, Find, Put, At;
    UnparkIs(g, from);
  }

  lemma RequeueMoves(g: Group, from: nat, to: nat, move: nat)
    requires Seated(g) && At(g.queues, from) != [] && move > 0 && Live(Unpark(g, from).0.threads, At(g.queues, from)[0])
    ensures var q := At(g.queues, from);
            var g2 := ParkOn(Unpark(g, from).0, to, q[0]);
            Requeue(g, from, to, 0, move) ==
              if |q| > 1 then (Requeue(g2, from, to, 0, move - 1).0, Requeue(g2, from, to, 0, move - 1).1 + 1) else (g2, 1)
  {
    hide Seated, Find, Put, At, ParkOn;
    UnparkIs(g, from);
  }

  /** Requeue between two words: the first `wake` waiters woken, the next `move`
      moved in order behind those already there, the rest left in order, and
      the count how many it took. */
  lemma {:induction false} RequeueSpec(g: Group, from: nat, to: nat, wake: nat, move: nat)
    requires Seated(g) && from != to
    ensures var q, r := At(g.queues, from), Requeue(g, from, to, wake, move);
            r.1 == Min(|q|, wake + move) && Requeued(g, from, to, Min(|q|, wake), Min(|q|, wake + move), r.0)
    decreases wake + move
  {
    hide Seated, Requeued, Find, Put, At, Unpark, ParkOn, Requeue;
    var q := At(g.queues, from);
    if wake + move == 0 || q == [] {
      RequeueStop(g, from, to, wake, move);
      RequeueNone(g, from, to);
    } else if wake > 0 {
      RequeueWakes(g, from, to, wake, move);
      UnparkKeeps(g, from);
      UnparkAt(g, from, from);
      var g1 := Unpark(g, from).0;
      RequeueSpec(g1, from, to, wake - 1, move);
      RequeueNone(g1, from, to);
      WokenFirst(g, from, to, Min(|q| - 1, wake - 1), Min(|q| - 1, wake - 1 + move), Requeue(g, from, to, wake, move).0);
    } else {
      UnparkKeeps(g, from);
      UnparkFresh(g, from);
      UnparkAt(g, from, from);
      RequeueMoves(g, from, to, move);
      var g1 := Unpark(g, from).0;
      MoveOn(g1, to, q[0]);
      var g2 := ParkOn(g1, to, q[0]);
      RequeueSpec(g2, from, to, 0, move - 1);
      RequeueNone(g2, from, to);
      MovedFirst(g, from, to, Min(|q| - 1, move - 1), Requeue(g, from, to, 0, move).0);
    }
  }

  /** Requeue keeps everything in step whatever the two words, and parks nobody
      who was not parked. */
  lemma {:induction false} RequeueKeeps(g: Group, from: nat, to: nat, wake: nat, move: nat)
    requires Seated(g)
    ensures var h := Requeue(g, from, to, wake, move).0;
            && Seated(h) && |h.threads| == |g.threads| && h == g.(threads := h.threads, queues := h.queues)
            && (forall u: nat :: Find(h.threads, u) == Find(g.threads, u) && (IsWaiting(h.threads, u) ==> IsWaiting(g.threads, u)))
    decreases wake + move
  {
    hide Seated, Find, Put, At, ParkOn, Requeue;
    var q := At(g.queues, from);
    if wake + move == 0 || q == [] {
      RequeueStop(g, from, to, wake, move);
    } else {
      var g1 := Unpark(g, from).0;
      UnparkKeeps(g, from);
      UnparkFresh(g, from);
      UnparkIs(g, from);
      forall u: nat ensures Find(g1.threads, u) == Find(g.threads, u) && (IsWaiting(g1.threads, u) ==> IsWaiting(g.threads, u)) {
        UnparkWaits(g, from, u);
      }
      UnparkWaits(g, from, q[0]);
      if wake > 0 {
        RequeueWakes(g, from, to, wake, move);
        RequeueKeeps(g1, from, to, wake - 1, move);
      } else {
        RequeueMoves(g, from, to, move);
        MoveOn(g1, to, q[0]);
        MoveOnSame(g1, to, q[0]);
        RequeueKeeps(ParkOn(g1, to, q[0]), from, to, 0, move - 1);
      }
    }
  }

  lemma MoveOnSame(g: Group, to: nat, tid: nat)
    requires Live(g.threads, tid)
    ensures var h := ParkOn(g, to, tid); h == g.(threads := h.threads, queues := h.queues)
  {
  }

  lemma RequeueOk(g: Group, from: nat, to: nat, wake: nat, move: nat)
    requires GroupOk(g)
    ensures GroupOk(Requeue(g, from, to, wake, move).0)
  {
    hide Seated, Find, Requeue;
    RequeueKeeps(g, from, to, wake, move);
    ActiveRuns(g);
    assert !IsWaiting(Requeue(g, from, to, wake, move).0.threads, g.active);
  }

  // ---- a thread that ends ----

  lemma {:induction false} AboveWithout(ts: seq<Thread>, i: nat, after: nat)
    requires i < |ts| && ts[i].waiting
    ensures FirstAbove(ts[..i] + ts[i + 1..], after) == FirstAbove(ts, after)
  {
    var r := ts[..i] + ts[i + 1..];
    if i == 0 {
      assert r == ts[1..];
    } else {
      assert r[0] == ts[0] && r[1..] == ts[1..][..i - 1] + ts[1..][i..];
      AboveWithout(ts[1..], i - 1, after);
    }
  }

  lemma {:induction false} EarliestWithout(ts: seq<Thread>, i: nat)
    requires i < |ts| && ts[i].deadline == 0
    ensures Earliest(ts[..i] + ts[i + 1..]) == Earliest(ts)
  {
    var r := ts[..i] + ts[i + 1..];
    if i == 0 {
      assert r == ts[1..];
    } else {
      assert r[0] == ts[0] && r[1..] == ts[1..][..i - 1] + ts[1..][i..];
      EarliestWithout(ts[1..], i - 1);
    }
  }

  lemma DueWithout(ts: seq<Thread>, i: nat, clock: nat)
    requires i < |ts| && ts[i].deadline == 0
    ensures DueTids(ts[..i] + ts[i + 1..], clock) == DueTids(ts, clock)
  {
    var r := ts[..i] + ts[i + 1..];
    forall u: nat ensures u in DueTids(r, clock) <==> u in DueTids(ts, clock) {
      if u in DueTids(r, clock) {
        var k :| 0 <= k < |r| && r[k].tid == u && Due(r[k], clock);
        assert r[k] == ts[if k < i then k else k + 1];
      }
      if u in DueTids(ts, clock) {
        var k :| 0 <= k < |ts| && ts[k].tid == u && Due(ts[k], clock);
        assert ts[k] == r[if k < i then k else k - 1];
      }
    }
  }

  function Less(ts: seq<Thread>, i: nat): (r: seq<Thread>)
    requires i < |ts|
  {
    ts[..i] + ts[i + 1..]
  }

  lemma NextWithout(ts: seq<Thread>, i: nat, active: nat)
    requires i < |ts| && ts[i].waiting
    ensures NextTid(Less(ts, i), active) == NextTid(ts, active)
  {
    AboveWithout(ts, i, active);
    AboveWithout(ts, i, 0);
  }

  lemma ForwardWithout(g: Group, i: nat, dl: nat)
    requires Ascending(g.threads) && i < |g.threads| && g.threads[i].waiting && g.threads[i].deadline == 0
    ensures var f := ExpireDue(g.(clock := dl));
            && |f.threads| == |g.threads| && f.threads[i] == g.threads[i] && Ascending(f.threads)
            && ExpireDue(g.(threads := Less(g.threads, i), clock := dl)) == f.(threads := Less(f.threads, i)) && f.active == g.active
  {
    hide Purge, DueTids;
    var ts := g.threads;
    var gone := DueTids(ts, dl);
    DueWithout(ts, i, dl);
    DueNot(ts, i, dl);
    var f := Expire(ts, gone);
    ExpireFinds(ts, gone, 0);
    assert Expire(Less(ts, i), gone) == Less(f, i);
  }

  /** A parked thread nobody will wake does not change who goes on. */
  lemma ScheduleWithout(g: Group, i: nat)
    requires Ascending(g.threads) && i < |g.threads| && g.threads[i].waiting && g.threads[i].deadline == 0
    ensures match Schedule(g)
            case None => Schedule(g.(threads := Less(g.threads, i))) == None
            case Some((f, tid)) =>
              && |f.threads| == |g.threads| && f.threads[i] == g.threads[i] && Ascending(f.threads) && f.active == g.active
              && Schedule(g.(threads := Less(g.threads, i))) == Some((f.(threads := Less(f.threads, i)), tid))
  {
    hide NextTid, Earliest, ExpireDue, Less;
    var l := g.(threads := Less(g.threads, i));
    NextWithout(g.threads, i, g.active);
    EarliestLess(g.threads, i);
    var dl := Earliest(g.threads);
    var f := ExpireDue(g.(clock := dl));
    ForwardWithout(g, i, dl);
    NextWithout(f.threads, i, f.active);
    assert l.(clock := dl) == g.(threads := Less(g.threads, i), clock := dl);
  }

  lemma EarliestLess(ts: seq<Thread>, i: nat)
    requires i < |ts| && ts[i].deadline == 0
    ensures Earliest(Less(ts, i)) == Earliest(ts)
  {
    EarliestWithout(ts, i);
  }

  lemma DueNot(ts: seq<Thread>, i: nat, clock: nat)
    requires Ascending(ts) && i < |ts| && !Due(ts[i], clock)
    ensures ts[i].tid !in DueTids(ts, clock)
  {
    forall k | 0 <= k < |ts| && Due(ts[k], clock) ensures ts[k].tid != ts[i].tid {
      assert k != i;
    }
  }

  lemma FindLess(ts: seq<Thread>, i: nat, u: nat)
    requires Ascending(ts) && i < |ts|
    ensures Ascending(Less(ts, i)) && IsWaiting(Less(ts, i), u) == (IsWaiting(ts, u) && u != ts[i].tid)
    ensures Live(Less(ts, i), u) == (Live(ts, u) && u != ts[i].tid)
    ensures Live(Less(ts, i), u) ==> Get(Less(ts, i), u) == Get(ts, u)
  {
    hide Find;
    var r := Less(ts, i);
    assert Ascending(r);
    FindUnique(ts, i);
    if Live(ts, u) && u != ts[i].tid {
      var k := Find(ts, u);
      var k' := if k < i then k else k - 1;
      assert r[k'] == ts[k];
      FindUnique(r, k');
    }
    if Live(r, u) {
      var k := Find(r, u);
      assert r[k] == ts[if k < i then k else k + 1];
      FindUnique(ts, if k < i then k else k + 1);
    }
  }

  lemma LessKeeps(g: Group, i: nat)
    requires Seated(g) && i < |g.threads| && !g.threads[i].waiting
    ensures Seated(g.(threads := Less(g.threads, i)))
  {
    hide Find, QueuesOk, Waits, Get;
    var ts := Less(g.threads, i);
    FindLess(g.threads, i, 0);
    FindUnique(g.threads, i);
    RunnableNotWaiting(g.threads, i);
    forall u: nat ensures Waits(g.queues, u) == if IsWaiting(ts, u) then 1 else 0 {
      FindLess(g.threads, i, u);
    }
    assert forall k | 0 <= k < |ts| :: ts[k] == g.threads[if k < i then k else k + 1];
  }

  lemma RunnableNotWaiting(ts: seq<Thread>, i: nat)
    requires Ascending(ts) && i < |ts| && !ts[i].waiting
    ensures !IsWaiting(ts, ts[i].tid)
  {
    FindUnique(ts, i);
  }

  /** The ending thread out of the running: the rest, without it, in step. */
  lemma EndingRest(w: Group, c: Ctx)
    requires GroupOk(w)
    ensures var i := Find(w.threads, w.active);
            var out := w.(threads := Set(w.threads, Park(Get(w.threads, w.active))));
            && i < |w.threads| && Live(out.threads, out.active) && Seated(w.(threads := Less(w.threads, i)))
            && var s := Stored(out, c, 0);
            && Ascending(s.threads) && |s.threads| == |w.threads| && s.threads[i].waiting && s.threads[i].deadline == 0 && s.threads[i].tid == w.active
            && s == w.(threads := s.threads) && Less(s.threads, i) == Less(w.threads, i)
  {
    hide QueuesOk, Accounted;
    ActiveRuns(w);
    var i := Find(w.threads, w.active);
    var th := Park(Get(w.threads, w.active));
    SetFinds(w.threads, th, w.active);
    var out := w.(threads := Set(w.threads, th));
    SetFinds(out.threads, Get(out.threads, w.active).(rax := 0, rsp := c.rsp, area := c.area), w.active);
    LessKeeps(w, i);
  }

  /** Somebody waits for the thread that runs to end. */
  predicate HasJoiner(g: Group)
    requires Live(g.threads, g.active)
  {
    Get(g.threads, g.active).tidAddress != 0 && At(g.queues, Get(g.threads, g.active).tidAddress) != []
  }

  lemma RestParked(g: Group, i: nat)
    requires GroupOk(g) && i == Find(g.threads, g.active)
    ensures AllParked(Less(g.threads, i)) <==> OthersParked(g.threads, g.active)
    ensures NoDeadline(Less(g.threads, i)) <==> NoDeadline(g.threads)
  {
    hide Seated, AllParked, OthersParked, NoDeadline, Less, Find;
    ActiveRuns(g);
    ActiveAt(g);
    LessParked(g.threads, i);
  }

  lemma LessParked(ts: seq<Thread>, i: nat)
    requires Ascending(ts) && i < |ts| && ts[i].deadline == 0
    ensures AllParked(Less(ts, i)) <==> OthersParked(ts, ts[i].tid)
    ensures NoDeadline(Less(ts, i)) <==> NoDeadline(ts)
  {
    var us := Less(ts, i);
    if AllParked(us) {
      forall k | 0 <= k < |ts| && ts[k].tid != ts[i].tid ensures ts[k].waiting { LessPlace(ts, i, k); }
    } else {
      var k :| 0 <= k < |us| && !us[k].waiting;
      assert us[k] == ts[if k < i then k else k + 1];
    }
    if NoDeadline(us) {
      forall k | 0 <= k < |ts| ensures ts[k].deadline == 0 { if k != i { LessPlace(ts, i, k); } }
    } else {
      var k :| 0 <= k < |us| && us[k].deadline != 0;
      assert us[k] == ts[if k < i then k else k + 1];
    }
  }

  lemma LessPlace(ts: seq<Thread>, i: nat, k: nat)
    requires i < |ts| && k < |ts| && k != i
    ensures var j := if k < i then k else k - 1; 0 <= j < |Less(ts, i)| && Less(ts, i)[j] == ts[k]
  {
  }

  lemma JoinerRuns(g: Group)
    requires GroupOk(g)
    ensures var me := Get(g.threads, g.active);
            var w := if me.tidAddress != 0 then Unpark(g, me.tidAddress).0 else g;
            LastOne(w) <==> !HasJoiner(g) && LastOne(g)
  {
    hide Seated, Unpark, NoDeadline, At;
    var addr := Get(g.threads, g.active).tidAddress;
    UnparkActive(g, addr);
    UnparkIs(g, addr);
    if HasJoiner(g) {
      WokenIs(g, addr);
      var w, u := Unpark(g, addr).0, At(g.queues, addr)[0];
      assert w.threads[Find(w.threads, u)].tid == u && !w.threads[Find(w.threads, u)].waiting;
    }
  }

  /** A thread's end keeps everything in step: somebody else goes on, or nobody
      ever can - exactly when it has no joiner and nobody is left - and it is
      gone. */
  lemma ExitOk(g: Group, c: Ctx)
    requires GroupOk(g)
    ensures Exit(g, c).Ran? ==> GroupOk(Exit(g, c).group) && !Live(Exit(g, c).group.threads, g.active)
    ensures Exit(g, c).Deadlock? <==> !HasJoiner(g) && LastOne(g)
  {
    ExitStops(g, c);
    ExitGone(g, c);
  }

  lemma ExitStops(g: Group, c: Ctx)
    requires GroupOk(g)
    ensures Exit(g, c).Deadlock? <==> !HasJoiner(g) && LastOne(g)
  {
    hide Seated, Find, Schedule, Unpark, Less, Stored, Get, Set, HasJoiner, AllParked, NoDeadline, OthersParked;
    var me := Get(g.threads, g.active);
    var w := if me.tidAddress != 0 then Unpark(g, me.tidAddress).0 else g;
    UnparkActive(g, me.tidAddress);
    JoinerRuns(g);
    EndingRest(w, c);
    var i := Find(w.threads, w.active);
    var out := w.(threads := Set(w.threads, Park(Get(w.threads, w.active))));
    var s := Stored(out, c, 0);
    RestParked(w, i);
    ScheduleWithout(s, i);
    var rest := w.(threads := Less(w.threads, i));
    ScheduleOk(rest);
    assert rest == s.(threads := Less(s.threads, i));
    if Schedule(s).Some? {
      EndedIs(Schedule(s).value.0, i, Schedule(s).value.1, c);
    }
  }

  lemma ExitGone(g: Group, c: Ctx)
    requires GroupOk(g)
    ensures Exit(g, c).Ran? ==> GroupOk(Exit(g, c).group) && !Live(Exit(g, c).group.threads, g.active)
  {
    hide Seated, Find, Schedule, Unpark, Less, Stored, Get, Set;
    var me := Get(g.threads, g.active);
    var w := if me.tidAddress != 0 then Unpark(g, me.tidAddress).0 else g;
    UnparkActive(g, me.tidAddress);
    EndingRest(w, c);
    var i := Find(w.threads, w.active);
    var out := w.(threads := Set(w.threads, Park(Get(w.threads, w.active))));
    var s := Stored(out, c, 0);
    ScheduleWithout(s, i);
    if Schedule(s).Some? {
      var f, tid := Schedule(s).value.0, Schedule(s).value.1;
      var rest := w.(threads := Less(w.threads, i));
      ScheduleOk(rest);
      assert rest == s.(threads := Less(s.threads, i));
      EndedIs(f, i, tid, c);
    }
  }

  /** Choosing who goes on parks nobody. */
  lemma ScheduleParksNone(s: Group, u: nat)
    requires Ascending(s.threads) && Schedule(s).Some?
    ensures var f := Schedule(s).value.0;
            Find(f.threads, u) == Find(s.threads, u) && |f.threads| == |s.threads| && Ascending(f.threads) && f.active == s.active
            && (IsWaiting(f.threads, u) ==> IsWaiting(s.threads, u))
  {
    hide NextTid, Find;
    var h := s.(clock := Earliest(s.threads));
    ExpireFinds(h.threads, DueTids(h.threads, h.clock), u);
  }

  /** ... and wakes its joiner: the first of those waiting for its word. */
  lemma ExitWakes(g: Group, c: Ctx)
    requires GroupOk(g) && Get(g.threads, g.active).tidAddress != 0
    ensures var q := At(g.queues, Get(g.threads, g.active).tidAddress);
            q != [] ==> Exit(g, c).Ran? && Live(Exit(g, c).group.threads, q[0]) && !IsWaiting(Exit(g, c).group.threads, q[0])
  {
    hide Seated, Find, Schedule, Unpark, Less, Stored, Get, Set, At, Remove, IsWaiting;
    ExitStops(g, c);
    var me := Get(g.threads, g.active);
    var q := At(g.queues, me.tidAddress);
    var w := Unpark(g, me.tidAddress).0;
    UnparkActive(g, me.tidAddress);
    EndingRest(w, c);
    var i := Find(w.threads, w.active);
    var out := w.(threads := Set(w.threads, Park(Get(w.threads, w.active))));
    var s := Stored(out, c, 0);
    if q != [] && Schedule(s).Some? {
      WokenIs(g, me.tidAddress);
      ActiveAt(w);
      ScheduleParksNone(s, q[0]);
      ScheduleParksNone(s, g.active);
      StillThere(w.threads, s.threads, i, q[0]);
      RemovedOne(Schedule(s).value.0.threads, g.active, q[0]);
    }
  }

  /** What goes on without the thread that ended. */
  lemma EndedIs(f: Group, i: nat, tid: nat, c: Ctx)
    requires Ascending(f.threads) && i < |f.threads| && f.threads[i].tid == f.active
    requires Seated(f.(threads := Less(f.threads, i))) && Live(Less(f.threads, i), tid) && !IsWaiting(Less(f.threads, i), tid)
    ensures Live(f.threads, tid) && Resume(f, c, tid).Ran?
    ensures var h := Resume(f, c, tid).group;
            GroupOk(h.(threads := Remove(h.threads, f.active))) && !Live(Remove(h.threads, f.active), f.active)
  {
    hide Accounted, QueuesOk;
    FindLess(f.threads, i, tid);
    FindLess(f.threads, i, f.active);
    FindUnique(f.threads, i);
    assert Remove(f.threads, f.active) == Less(f.threads, i);
  }

  lemma UnparkActive(g: Group, addr: nat)
    requires GroupOk(g)
    ensures GroupOk(Unpark(g, addr).0) && Unpark(g, addr).0.active == g.active
  {
    hide Accounted, QueuesOk, Put, At;
    UnparkKeeps(g, addr);
    UnparkIs(g, addr);
    ActiveRuns(g);
    if At(g.queues, addr) != [] { UnparkWaits(g, addr, g.active); }
  }

  lemma ActiveAt(g: Group)
    requires GroupOk(g)
    ensures Ascending(g.threads) && Find(g.threads, g.active) < |g.threads|
    ensures g.threads[Find(g.threads, g.active)].tid == g.active
  {
    hide QueuesOk, Accounted;
  }

  lemma WokenIs(g: Group, addr: nat)
    requires GroupOk(g) && At(g.queues, addr) != []
    ensures var u := At(g.queues, addr)[0];
            u != g.active && Live(Unpark(g, addr).0.threads, u) && !IsWaiting(Unpark(g, addr).0.threads, u)
  {
    UnparkIs(g, addr);
    UnparkWaits(g, addr, At(g.queues, addr)[0]);
    ActiveRuns(g);
  }

  /** Two sets of threads that differ in the i-th alone. */
  lemma StillThere(ts: seq<Thread>, us: seq<Thread>, i: nat, u: nat)
    requires Ascending(ts) && Ascending(us) && i < |ts| == |us| && Less(ts, i) == Less(us, i) && us[i].tid == ts[i].tid
    requires u != ts[i].tid && Live(ts, u)
    ensures Live(us, u) && IsWaiting(us, u) == IsWaiting(ts, u)
  {
    FindLess(ts, i, u);
    FindLess(us, i, u);
  }

  lemma RemovedOne(ts: seq<Thread>, gone: nat, u: nat)
    requires Ascending(ts) && u != gone && Live(ts, u)
    ensures Live(Remove(ts, gone), u) && IsWaiting(Remove(ts, gone), u) == IsWaiting(ts, u)
  {
    var i := Find(ts, gone);
    if i < |ts| {
      FindLess(ts, i, u);
      assert Remove(ts, gone) == Less(ts, i);
    }
  }

  /** A lock call stops the machine exactly when the word is taken and nobody is
      left to give it back. */
  lemma LockPiOk(g: Group, c: Ctx, addr: nat, word: nat)
    requires GroupOk(g)
    ensures LockPi(g, c, addr, word).1.Ran? ==> GroupOk(LockPi(g, c, addr, word).1.group)
    ensures LockPi(g, c, addr, word).1.Deadlock? <==> word != 0 && LastOne(g)
  {
    hide GroupOk, ParkMe;
    ParkMeOk(g, c, addr, 0);
  }

  /** Unlock goes straight to the longest waiter, or clears the word. */
  lemma UnlockPiOk(g: Group, c: Ctx, addr: nat)
    requires GroupOk(g)
    ensures var q, r := At(g.queues, addr), UnlockPi(g, c, addr);
            && r.1.Ran? && GroupOk(r.1.group)
            && (if q == [] then r.0 == 0 && r.1.group == g
                else r.1.group.active == q[0] && r.0 == (if |q| > 1 then WithWaiters(q[0]) else q[0])
                     && At(r.1.group.queues, addr) == q[1..])
  {
    hide Seated, Find, Put, At, Get, Set;
    UnparkIs(g, addr);
    UnparkActive(g, addr);
    var q := At(g.queues, addr);
    if q != [] {
      var h := Unpark(g, addr).0;
      UnparkFresh(g, addr);
      UnparkAt(g, addr, addr);
      StoredKeeps(h, c, 0);
      StoredWaits(h, c, 0, q[0]);
      ResumeOk(Stored(h, c, 0), c, q[0]);
      assert q[0] != g.active by { ActiveRuns(g); }
    }
  }

  lemma StoredWaits(g: Group, c: Ctx, ret: nat, u: nat)
    requires Seated(g) && Live(g.threads, g.active)
    ensures Stored(g, c, ret).queues == g.queues && Stored(g, c, ret).active == g.active
    ensures Live(Stored(g, c, ret).threads, u) == Live(g.threads, u) && IsWaiting(Stored(g, c, ret).threads, u) == IsWaiting(g.threads, u)
  {
    var th := Get(g.threads, g.active).(rax := ret, rsp := c.rsp, area := c.area);
    SetWaits(g.threads, th, u);
    SetFinds(g.threads, th, u);
  }
}
