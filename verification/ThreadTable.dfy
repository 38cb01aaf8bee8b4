/** The thread table as the host keeps it, changed in place by every call; each
    call is proved to compute its function of Threads.dfy. */
module ThreadTable {
  import opened Pages
  import opened Queues
  import opened Threads
  import opened ThreadLaws
  import opened ThreadRuns
  import opened Contexts
  import opened ThreadSaves

  // ---- what the loops find ----

  lemma {:induction false} QueueAt(qs: seq<Queue>, addr: nat, i: nat)
    requires i <= |qs| && (i < |qs| ==> qs[i].addr == addr) && forall k | 0 <= k < i :: qs[k].addr != addr
    ensures At(qs, addr) == if i < |qs| then qs[i].tids else []
  {
    if i > 0 {
      QueueAt(qs[1..], addr, i - 1);
    }
  }

  lemma {:induction false} PutWhere(qs: seq<Queue>, addr: nat, i: nat, tids: seq<nat>)
    requires i <= |qs| && (i < |qs| ==> qs[i].addr == addr) && forall k | 0 <= k < i :: qs[k].addr != addr
    ensures Put(qs, addr, tids) ==
              if i == |qs| then (if tids == [] then qs else qs + [Queue(addr, tids)])
              else if tids == [] then qs[..i] + qs[i + 1..] else qs[i := Queue(addr, tids)]
  {
    if i > 0 {
      PutWhere(qs[1..], addr, i - 1, tids);
      assert Put(qs, addr, tids) == [qs[0]] + Put(qs[1..], addr, tids);
      ConsSlices(qs, i, Queue(addr, tids));
    }
  }

  lemma ConsSlices(qs: seq<Queue>, i: nat, e: Queue)
    requires 0 < i <= |qs|
    ensures [qs[0]] + qs[1..] == qs && [qs[0]] + (qs[1..] + [e]) == qs + [e]
    ensures i < |qs| ==> [qs[0]] + (qs[1..][..i - 1] + qs[1..][i..]) == qs[..i] + qs[i + 1..]
    ensures i < |qs| ==> [qs[0]] + qs[1..][i - 1 := e] == qs[i := e]
  {
  }

  lemma PurgeFirst(qs: seq<Queue>, gone: set<nat>)
    requires qs != []
    ensures var left := Without(qs[0].tids, gone);
            Purge(qs, gone) == (if left == [] then [] else [Queue(qs[0].addr, left)]) + Purge(qs[1..], gone)
  {
  }

  lemma PurgeEmpty(gone: set<nat>)
    ensures Purge([], gone) == []
  {
  }

  lemma {:induction false} WithoutAppend(a: seq<nat>, b: seq<nat>, gone: set<nat>)
    ensures Without(a + b, gone) == Without(a, gone) + Without(b, gone)
  {
    if a == [] {
      assert a + b == b;
    } else {
      assert (a + b)[1..] == a[1..] + b;
      WithoutAppend(a[1..], b, gone);
    }
  }

  lemma {:induction false} InsertSplit(ts: seq<Thread>, th: Thread, i: nat)
    requires i <= |ts| && (i > 0 ==> ts[i - 1].tid <= th.tid) && forall k | i <= k < |ts| :: ts[k].tid > th.tid
    ensures Insert(ts, th) == ts[..i] + [th] + ts[i..]
  {
    if i < |ts| {
      var n := |ts| - 1;
      InsertSplit(ts[..n], th, i);
      assert ts[..n][..i] + [th] + ts[..n][i..] + [ts[n]] == ts[..i] + [th] + ts[i..];
    } else {
      assert ts[..i] + [th] + ts[i..] == ts + [th];
    }
  }

  lemma EarliestUnique(ts: seq<Thread>, dl: nat)
    requires dl != 0 ==> exists i | 0 <= i < |ts| :: ts[i].waiting && ts[i].deadline == dl
    requires forall i | 0 <= i < |ts| && ts[i].waiting && ts[i].deadline != 0 :: dl != 0 && dl <= ts[i].deadline
    ensures dl == Earliest(ts)
  {
  }

  /** Due before another: an earlier deadline, or the same and parked earlier. */
  predicate Sooner(a: Thread, b: Thread) {
    a.deadline < b.deadline || (a.deadline == b.deadline && a.order <= b.order)
  }

  lemma ExpireMore(ts: seq<Thread>, gone: set<nat>, tid: nat)
    requires Ascending(ts)
    ensures Expire(Expire(ts, gone), {tid}) == Expire(ts, gone + {tid})
  {
  }

  /** Expiring one due thread leaves the others due and no more. */
  lemma DueLess(ts: seq<Thread>, clock: nat, p: nat)
    requires Ascending(ts) && p < |ts| && Due(ts[p], clock)
    ensures DueTids(Expire(ts, {ts[p].tid}), clock) == DueTids(ts, clock) - {ts[p].tid}
  {
    hide DueTids;
    var r := Expire(ts, {ts[p].tid});
    forall u: nat ensures u in DueTids(r, clock) <==> u in DueTids(ts, clock) && u != ts[p].tid {
      if u in DueTids(r, clock) {
        var k :| 0 <= k < |r| && r[k].tid == u && Due(r[k], clock);
        assert Due(ts[k], clock);
      }
      if u in DueTids(ts, clock) && u != ts[p].tid {
        var k :| 0 <= k < |ts| && ts[k].tid == u && Due(ts[k], clock);
        assert Due(r[k], clock);
      }
    }
  }

  lemma SetExpires(ts: seq<Thread>, p: nat)
    requires Ascending(ts) && p < |ts|
    ensures ts[p := Expired(ts[p])] == Expire(ts, {ts[p].tid})
  {
  }

  lemma ExpireNone(ts: seq<Thread>)
    ensures Expire(ts, {}) == ts
  {
  }

  class Table {
    var threads: seq<Thread>
    var queues: seq<Queue>
    var nextTid: nat
    var active: nat
    var clock: nat
    var parked: nat
    const v3: bool
    const kit2: bool

    ghost function Abs(): Group
      reads this
    {
      Group(threads, queues, nextTid, active, clock, parked, v3, kit2)
    }

    ghost predicate Valid()
      reads this
    {
      GroupOk(Abs())
    }

    /** The table is what the outcome says, and so is what the thread gets;
        nothing when the machine stops. */
    ghost predicate Does(r: Outcome, o: Option<(Ctx, nat)>)
      reads this
    {
      match r
      case Deadlock => o == None
      case Ran(h, d, v) => o == Some((d, v)) && Abs() == h
    }

    /** mb_threads_new: one thread, running. */
    constructor (spec3: bool, revision2: bool)
      ensures Valid() && Abs() == Group([Thread(1, false, 0, 0, 0, 0, 0, 0)], [], 2, 1, 0, 0, spec3, revision2)
    {
      v3, kit2 := spec3, revision2;
      threads := [Thread(1, false, 0, 0, 0, 0, 0, 0)];
      queues, nextTid, active, clock, parked := [], 2, 1, 0, 0;
    }

    // ---- the array ----

    method FindThread(tid: nat) returns (i: nat)
      ensures i == Find(threads, tid)
    {
      i := 0;
      while i < |threads| && threads[i].tid != tid
        invariant i <= |threads| && forall k | 0 <= k < i :: threads[k].tid != tid
      {
        i := i + 1;
      }
    }

    /** insert_thread: shifted up from the end. */
    method InsertThread(th: Thread)
      modifies `threads
      ensures threads == Insert(old(threads), th)
    {
      ghost var was := threads;
      var i: nat := |threads|;
      threads := threads + [th];
      while i > 0 && threads[i - 1].tid > th.tid
        invariant i <= |was| && |threads| == |was| + 1
        invariant threads[..i] == was[..i] && threads[i + 1..] == was[i..]
        invariant forall k | i <= k < |was| :: was[k].tid > th.tid
      {
        ghost var shifted := threads;
        assert threads[i - 1] == threads[..i][i - 1] == was[i - 1];
        threads := threads[i := threads[i - 1]];
        i := i - 1;
        assert threads[..i] == shifted[..i + 1][..i];
        assert threads[i + 1..] == [was[i]] + shifted[i + 2..] == was[i..];
      }
      InsertSplit(was, th, i);
      assert threads[i := th] == threads[..i] + [th] + threads[i + 1..];
      threads := threads[i := th];
    }

    /** remove_thread */
    method RemoveThread(tid: nat)
      modifies `threads
      ensures threads == Remove(old(threads), tid)
    {
      var i := FindThread(tid);
      if i < |threads| {
        threads := threads[..i] + threads[i + 1..];
      }
    }

    // ---- the queues ----

    method FindQueue(addr: nat) returns (i: nat)
      ensures i <= |queues| && (i < |queues| ==> queues[i].addr == addr) && forall k | 0 <= k < i :: queues[k].addr != addr
    {
      i := 0;
      while i < |queues| && queues[i].addr != addr
        invariant i <= |queues| && forall k | 0 <= k < i :: queues[k].addr != addr
      {
        i := i + 1;
      }
    }

    /** A word's queue replaced, dropped when empty. */
    method PutQueue(addr: nat, tids: seq<nat>)
      modifies `queues
      ensures queues == Put(old(queues), addr, tids)
    {
      var i := FindQueue(addr);
      PutWhere(queues, addr, i, tids);
      if i == |queues| {
        if tids != [] { queues := queues + [Queue(addr, tids)]; }
      } else if tids == [] {
        queues := queues[..i] + queues[i + 1..];
      } else {
        queues := queues[i := Queue(addr, tids)];
      }
    }

    method QueueOf(addr: nat) returns (tids: seq<nat>)
      ensures tids == At(queues, addr)
    {
      var i := FindQueue(addr);
      QueueAt(queues, addr, i);
      tids := if i < |queues| then queues[i].tids else [];
    }

    /** queue_push on the queue found or made. */
    method QueuePush(addr: nat, tid: nat)
      modifies `queues
      ensures queues == Put(old(queues), addr, At(old(queues), addr) + [tid])
    {
      var tids := QueueOf(addr);
      PutQueue(addr, tids + [tid]);
    }

    /** How many entries at the front of a queue belong to no waiting thread. */
    method PassStale(q: seq<nat>) returns (k: nat)
      ensures k == Stale(threads, q) && k <= |q|
    {
      hide Find;
      k := 0;
      while k < |q|
        invariant k <= |q| && Stale(threads, q) == k + Stale(threads, q[k..])
      {
        var i := FindThread(q[k]);
        if i < |threads| && threads[i].waiting { return; }
        assert q[k..][1..] == q[k + 1..];
        k := k + 1;
      }
      assert q[k..] == [];
    }

    /** unpark_one: entries whose thread is not waiting are passed over. */
    method UnparkOne(addr: nat) returns (tid: Option<nat>, more: bool)
      modifies `threads, `queues
      ensures (Abs(), tid, more) == Unpark(old(Abs()), addr)
    {
      hide Put, Find, Stale;
      var q := QueueOf(addr);
      var k := PassStale(q);
      if k == |q| {
        PutQueue(addr, []);
        return None, false;
      }
      var i := FindThread(q[k]);
      threads := threads[i := threads[i].(waiting := false, deadline := 0, order := 0)];
      PutQueue(addr, q[k + 1..]);
      return Some(q[k]), k + 1 < |q|;
    }

    /** park_other */
    method ParkOther(addr: nat, tid: nat)
      requires Live(threads, tid)
      modifies `threads, `queues
      ensures Abs() == ParkOn(old(Abs()), addr, tid)
    {
      QueuePush(addr, tid);
      var i := FindThread(tid);
      threads := threads[i := threads[i].(waiting := true)];
    }

    static method Filtered(tids: seq<nat>, tid: nat) returns (r: seq<nat>)
      ensures r == Without(tids, {tid})
    {
      r := [];
      var k := 0;
      while k < |tids|
        invariant k <= |tids| && r == Without(tids[..k], {tid})
      {
        assert tids[..k + 1] == tids[..k] + [tids[k]];
        WithoutAppend(tids[..k], [tids[k]], {tid});
        if tids[k] != tid { r := r + [tids[k]]; }
        k := k + 1;
      }
      assert tids[..k] == tids;
    }

    /** unqueue: out of every queue, and no queue left empty. */
    method Unqueue(tid: nat)
      modifies `queues
      ensures queues == Purge(old(queues), {tid})
    {
      hide Purge, Without;
      ghost var was := queues;
      var rest := queues;
      var kept: seq<Queue> := [];
      assert kept + Purge(rest, {tid}) == Purge(was, {tid});
      while rest != []
        invariant kept + Purge(rest, {tid}) == Purge(was, {tid})
        decreases |rest|
      {
        var left := Filtered(rest[0].tids, tid);
        ghost var tail := Purge(rest[1..], {tid});
        PurgeFirst(rest, {tid});
        if left != [] {
          assert kept + ([Queue(rest[0].addr, left)] + tail) == kept + [Queue(rest[0].addr, left)] + tail;
          kept := kept + [Queue(rest[0].addr, left)];
        } else {
          assert kept + ([] + tail) == kept + tail;
        }
        rest := rest[1..];
      }
      PurgeEmpty({tid});
      queues := kept;
    }

    /** mb_threads_futex_requeue */
    method RequeueWaiters(from: nat, to: nat, wake: nat, move: nat) returns (count: nat)
      modifies `threads, `queues
      ensures (Abs(), count) == Requeue(old(Abs()), from, to, wake, move)
    {
      hide Unpark, ParkOn, Find;
      ghost var g := Abs();
      var w, m, go := wake, move, true;
      count := 0;
      while go && (w > 0 || m > 0)
        invariant go ==> Requeue(g, from, to, wake, move) == (Requeue(Abs(), from, to, w, m).0, count + Requeue(Abs(), from, to, w, m).1)
        invariant !go ==> Requeue(g, from, to, wake, move) == (Abs(), count)
        decreases w + m, go
      {
        var tid, more := UnparkOne(from);
        if tid == None {
          go := false;
        } else {
          count := count + 1;
          if w > 0 {
            w := w - 1;
          } else {
            var i := FindThread(tid.value);
            if i < |threads| { ParkOther(to, tid.value); }
            m := m - 1;
          }
          if !more { go := false; }
        }
      }
    }

    // ---- virtual time ----

    /** expire_due's choice: the earliest deadline that has come, ties in the
        order they parked. */
    method PickDue() returns (pick: nat)
      ensures pick <= |threads| && (pick == |threads| ==> forall i | 0 <= i < |threads| :: !Due(threads[i], clock))
      ensures pick < |threads| ==> Due(threads[pick], clock)
                                   && forall i | 0 <= i < |threads| && Due(threads[i], clock) :: Sooner(threads[pick], threads[i])
    {
      pick := |threads|;
      var i := 0;
      while i < |threads|
        invariant i <= |threads| && (pick == |threads| || pick < i)
        invariant pick == |threads| ==> forall k | 0 <= k < i :: !Due(threads[k], clock)
        invariant pick < |threads| ==> Due(threads[pick], clock)
                                       && forall k | 0 <= k < i && Due(threads[k], clock) :: Sooner(threads[pick], threads[k])
      {
        if Due(threads[i], clock)
           && (pick == |threads| || threads[i].deadline < threads[pick].deadline
               || (threads[i].deadline == threads[pick].deadline && threads[i].order < threads[pick].order)) {
          pick := i;
        }
        i := i + 1;
      }
    }

    /** expire_due: one at a time, in order - and what it leaves does not depend
        on the order. */
    method ExpireNow()
      requires Ascending(threads) && QueuesOk(queues)
      modifies `threads, `queues
      ensures Abs() == ExpireDue(old(Abs()))
    {
      hide Expiring, DueTids, Expire, Purge;
      ghost var ts, qs := threads, queues;
      ghost var done: set<nat> := {};
      ExpireStart(ts, qs, clock);
      var p: nat := PickDue();
      while p < |threads|
        invariant Expiring(ts, qs, clock, done, threads, queues) && p <= |threads|
        invariant p < |threads| ==> Due(threads[p], clock)
        invariant p == |threads| ==> forall i | 0 <= i < |threads| :: !Due(threads[i], clock)
        decreases DueTids(ts, clock) - done
      {
        var tid := threads[p].tid;
        ExpireStep(ts, qs, clock, done, threads, queues, p);
        threads := threads[p := Expired(threads[p])];
        Unqueue(tid);
        done := done + {tid};
        p := PickDue();
      }
      ExpireEnd(ts, qs, clock, done, threads, queues);
    }

    /** mb_threads_advance */
    method AdvanceClock(ns: nat)
      requires Ascending(threads) && QueuesOk(queues)
      modifies `threads, `queues, `clock
      ensures Abs() == Advance(old(Abs()), ns)
    {
      clock := NsAdd(kit2, clock, ns);
      ExpireNow();
    }

    // ---- scheduling ----

    /** The first runnable thread above a tid. */
    method PickAbove(after: nat) returns (r: Option<nat>)
      ensures r == FirstAbove(threads, after)
    {
      var i := 0;
      assert threads[0..] == threads;
      while i < |threads|
        invariant i <= |threads| && FirstAbove(threads, after) == FirstAbove(threads[i..], after)
      {
        if threads[i].tid > after && !threads[i].waiting { return Some(threads[i].tid); }
        assert threads[i..][1..] == threads[i + 1..];
        i := i + 1;
      }
      return None;
    }

    method PickNext() returns (r: Option<nat>)
      ensures r == NextTid(threads, active)
    {
      r := PickAbove(active);
      if r == None { r := PickAbove(0); }
    }

    method EarliestDeadline() returns (dl: nat)
      ensures dl == Earliest(threads)
    {
      dl := 0;
      var i := 0;
      while i < |threads|
        invariant i <= |threads|
        invariant dl != 0 ==> exists k | 0 <= k < i :: threads[k].waiting && threads[k].deadline == dl
        invariant forall k | 0 <= k < i && threads[k].waiting && threads[k].deadline != 0 :: dl != 0 && dl <= threads[k].deadline
      {
        if threads[i].waiting && threads[i].deadline != 0 && (dl == 0 || threads[i].deadline < dl) {
          dl := threads[i].deadline;
        }
        i := i + 1;
      }
      EarliestUnique(threads, dl);
    }

    /** swap_to_next: looked for once, and once more after going forward. */
    method GoOn(c: Ctx) returns (o: Option<(Ctx, nat)>)
      requires Ascending(threads) && QueuesOk(queues)
      modifies `threads, `queues, `active, `clock
      ensures match Schedule(old(Abs()))
              case None => o == None
              case Some((f, tid)) =>
                if Live(f.threads, tid) then var r := Resume(f, c, tid); o == Some((r.ctx, r.value)) && Abs() == r.group else o == None
      ensures o.Some? ==> ChosenIn(old(Abs()), c, active, o.value.0)
    {
      hide NextTid, Earliest, ExpireDue, Resume, Find, ChosenIn;
      ghost var s := Abs();
      ScheduleChosen(s, c);
      var forwarded := false;
      while true
        invariant Abs() == if forwarded then ExpireDue(s.(clock := Earliest(s.threads))) else s
        invariant forwarded ==> NextTid(s.threads, s.active) == None && s.v3 && Earliest(s.threads) != 0
        decreases !forwarded
      {
        var next := PickNext();
        if next.Some? {
          o := ResumeThread(c, next.value);
          return;
        }
        if forwarded || !v3 { return None; }
        var dl := EarliestDeadline();
        if dl == 0 { return None; }
        clock := dl;
        ExpireNow();
        forwarded := true;
      }
    }

    /** The running thread's place and what it will be handed, kept in its record. */
    method StoreMine(c: Ctx, ret: nat)
      requires Live(threads, active)
      modifies `threads
      ensures Abs() == Stored(old(Abs()), c, ret)
    {
      var i := FindThread(active);
      threads := threads[i := threads[i].(rax := ret, rsp := c.rsp, area := c.area)];
    }

    method SwapToNext(c: Ctx, ret: nat) returns (o: Option<(Ctx, nat)>)
      requires Ascending(threads) && QueuesOk(queues) && Live(threads, active)
      modifies `threads, `queues, `active, `clock
      ensures Does(SwapNext(old(Abs()), c, ret), o)
    {
      hide Schedule, Find;
      StoreMine(c, ret);
      SetFinds(old(threads), Get(old(threads), active).(rax := ret, rsp := c.rsp, area := c.area), active);
      o := GoOn(c);
    }

    /** The chosen thread goes on. */
    method ResumeThread(c: Ctx, tid: nat) returns (o: Option<(Ctx, nat)>)
      modifies `active
      ensures Live(threads, tid) ==> var r := Resume(old(Abs()), c, tid); o == Some((r.ctx, r.value)) && Abs() == r.group
      ensures !Live(threads, tid) ==> o == None
      ensures o.Some? ==> active == tid && ChosenIn(old(Abs()), c, tid, o.value.0) && o.value.1 == Get(threads, tid).rax
    {
      var i := FindThread(tid);
      if i == |threads| { return None; }
      if tid == active { return Some((c, threads[i].rax)); }
      active := tid;
      return Some((Ctx(threads[i].rsp, threads[i].area), threads[i].rax));
    }

    // ---- the calls ----

    /** park_me */
    method ParkHere(c: Ctx, addr: nat, ret: nat) returns (o: Option<(Ctx, nat)>)
      requires Valid()
      modifies `threads, `queues, `active, `clock
      ensures Does(ParkMe(old(Abs()), c, addr, ret), o) && (o.Some? ==> Valid())
    {
      hide Accounted, SwapNext, Put, At, Find;
      ghost var g := Abs();
      ParkMeOk(g, c, addr, ret);
      ActiveRuns(g);
      ParkKeeps(g, addr, Park(Get(threads, active)));
      SetLive(threads, Park(Get(threads, active)), active);
      ParkOther(addr, active);
      SeatedParts(Abs());
      o := SwapToNext(c, ret);
    }

    /** mb_threads_futex_wait */
    method FutexWait(c: Ctx, addr: nat, word: nat, compare: nat) returns (o: Option<(Ctx, nat)>)
      requires Valid()
      modifies `threads, `queues, `active, `clock
      ensures Does(Wait(old(Abs()), c, addr, word, compare), o) && (o.Some? ==> Valid())
    {
      hide GroupOk, ParkMe;
      if word != compare { return Some((c, TRY_AGAIN)); }
      o := ParkHere(c, addr, 0);
    }

    /** The parking of a timed wait. */
    method ParkTimed(addr: nat, deadline: nat)
      requires Live(threads, active)
      modifies `threads, `queues, `parked
      ensures Abs() == ParkUntil(old(Abs()), addr, deadline)
    {
      hide Put, At;
      QueuePush(addr, active);
      var i := FindThread(active);
      parked := parked + 1;
      threads := threads[i := threads[i].(waiting := true, deadline := deadline, order := parked)];
    }

    /** mb_threads_futex_wait_timeout with a deadline: one already past costs a
        tick, and from revision 2 a turn. */
    method FutexWaitUntil(c: Ctx, addr: nat, word: nat, compare: nat, deadline: nat) returns (o: Option<(Ctx, nat)>)
      requires Valid()
      modifies `threads, `queues, `active, `clock, `parked
      ensures Does(WaitUntil(old(Abs()), c, addr, word, compare, deadline), o) && (o.Some? ==> Valid())
    {
      hide Seated, SwapNext, ParkMe, Advance, ParkUntil;
      ghost var g := Abs();
      WaitUntilOk(g, c, addr, word, compare, deadline);
      if word != compare { return Some((c, TRY_AGAIN)); }
      if !v3 {
        o := ParkHere(c, addr, 0);
      } else if deadline <= clock {
        SeatedParts(g);
        AdvanceKeeps(g, TICK);
        AdvanceClock(TICK);
        if !kit2 { return Some((c, TIMED_OUT)); }
        SeatedParts(Abs());
      o := SwapToNext(c, TIMED_OUT);
      } else {
        ParkUntilKeeps(g, addr, deadline);
        ParkTimed(addr, deadline);
        SeatedParts(Abs());
      o := SwapToNext(c, 0);
      }
    }

    /** FUTEX_WAKE; in v3 the waker then gives way. */
    method FutexWake(c: Ctx, addr: nat, count: nat) returns (o: Option<(Ctx, nat)>)
      requires Valid()
      modifies `threads, `queues, `active, `clock
      ensures var r := Requeue(old(Abs()), addr, 0, count, 0);
              Live(r.0.threads, r.0.active) && Does(if v3 then SwapNext(r.0, c, r.1) else Ran(r.0, c, r.1), o)
      ensures o.Some? ==> Valid()
    {
      hide Seated, SwapNext, Requeue;
      RequeueOk(Abs(), addr, 0, count, 0);
      var n := RequeueWaiters(addr, 0, count, 0);
      if !v3 { return Some((c, n)); }
      SwapNextOk(Abs(), c, n);
      SeatedParts(Abs());
      o := SwapToNext(c, n);
    }

    /** FUTEX_LOCK_PI: the word after it, and who goes on. */
    method LockWord(c: Ctx, addr: nat, word: nat) returns (after: nat, o: Option<(Ctx, nat)>)
      requires Valid()
      modifies `threads, `queues, `active, `clock
      ensures after == LockPi(old(Abs()), c, addr, word).0 && Does(LockPi(old(Abs()), c, addr, word).1, o) && (o.Some? ==> Valid())
    {
      hide GroupOk, ParkMe, Find;
      if word == 0 { return active, Some((c, 0)); }
      after := WithWaiters(word);
      o := ParkHere(c, addr, 0);
    }

    /** FUTEX_UNLOCK_PI: straight to the longest waiter. */
    method UnlockWord(c: Ctx, addr: nat) returns (after: nat, o: Option<(Ctx, nat)>)
      requires Valid()
      modifies `threads, `queues, `active
      ensures after == UnlockPi(old(Abs()), c, addr).0 && Does(UnlockPi(old(Abs()), c, addr).1, o) && Valid() && o.Some?
    {
      hide Seated, Unpark, Find, Get, Stored, Resume;
      ghost var g := Abs();
      UnlockPiOk(g, c, addr);
      UnparkActive(g, addr);
      var tid, more := UnparkOne(addr);
      if tid == None { return 0, Some((c, 0)); }
      StoreMine(c, 0);
      after := if more then WithWaiters(tid.value) else tid.value;
      o := ResumeThread(c, tid.value);
    }

    /** mb_threads_spawn, the stack already protected. */
    method SpawnThread(rsp: nat, area: nat, tidAddress: nat) returns (tid: nat)
      requires Valid()
      modifies `threads, `nextTid
      ensures Valid() && tid == old(nextTid) && Abs() == Spawn(old(Abs()), rsp, area, tidAddress)
    {
      hide GroupOk, Insert;
      SpawnOk(Abs(), rsp, area, tidAddress);
      tid := nextTid;
      InsertThread(Thread(tid, false, 0, rsp, area, tidAddress, 0, 0));
      nextTid := nextTid + 1;
    }

    /** mb_threads_sched_yield: alone with others on a deadline, a yield costs a
        tick from revision 2 on. */
    method YieldNow(c: Ctx) returns (o: Option<(Ctx, nat)>)
      requires Valid()
      modifies `threads, `queues, `active, `clock
      ensures Does(SchedYield(old(Abs()), c), o) && (o.Some? ==> Valid())
    {
      hide Seated, SwapNext, Advance;
      ghost var g := Abs();
      SchedYieldOk(g, c);
      SeatedParts(g);
      AdvanceKeeps(g, TICK);
      if v3 && kit2 {
        var others, timed := LookRound();
        if !others && timed { AdvanceClock(TICK); }
      }
      SeatedParts(Abs());
      o := SwapToNext(c, 0);
    }

    method LookRound() returns (others: bool, timed: bool)
      ensures others == OthersRunnable(threads, active) && timed == OthersTimed(threads, active)
    {
      others, timed := false, false;
      var i := 0;
      while i < |threads|
        invariant i <= |threads|
        invariant others <==> exists k | 0 <= k < i :: threads[k].tid != active && !threads[k].waiting
        invariant timed <==> exists k | 0 <= k < i :: threads[k].tid != active && threads[k].waiting && threads[k].deadline != 0
      {
        if threads[i].tid != active {
          if !threads[i].waiting {
            others := true;
          } else if threads[i].deadline != 0 {
            timed := true;
          }
        }
        i := i + 1;
      }
    }

    /** The clock read and the sleeps of v3: time passes, then somebody goes on. */
    method PassTime(c: Ctx, ns: nat) returns (o: Option<(Ctx, nat)>)
      requires Valid()
      modifies `threads, `queues, `active, `clock
      ensures Live(Advance(old(Abs()), ns).threads, old(active)) && Does(SwapNext(Advance(old(Abs()), ns), c, 0), o) && (o.Some? ==> Valid())
    {
      hide Seated, SwapNext, Advance;
      ghost var g := Abs();
      SeatedParts(g);
      AdvanceKeeps(g, ns);
      SwapNextOk(Advance(g, ns), c, 0);
      AdvanceActive(g, ns);
      AdvanceClock(ns);
      SeatedParts(Abs());
      o := SwapToNext(c, 0);
    }

    /** The running thread parked where nobody will look. */
    method StepOut()
      requires Ascending(threads) && Live(threads, active)
      modifies `threads
      ensures Abs() == old(Abs()).(threads := Set(old(threads), Park(Get(old(threads), active))))
      ensures Ascending(threads) && Live(threads, active)
    {
      var i := FindThread(active);
      SetFinds(threads, Park(threads[i]), active);
      threads := threads[i := threads[i].(waiting := true)];
    }

    /** mb_threads_exit: the joiner woken, this thread out of the running before
        the next is chosen, and gone once another runs. */
    method EndThread(c: Ctx) returns (o: Option<(Ctx, nat)>)
      requires Valid()
      modifies `threads, `queues, `active, `clock
      ensures Does(Exit(old(Abs()), c), o) && (o.Some? ==> Valid() && !Live(threads, old(active)))
    {
      hide Accounted, SwapNext, Unpark, Remove, TidsBelow, DeadlinesParked, Set, Find;
      ghost var g := Abs();
      ExitOk(g, c);
      UnparkActive(g, Get(threads, active).tidAddress);
      var dead := active;
      var i := FindThread(dead);
      var addr := threads[i].tidAddress;
      if addr != 0 {
        var tid, more := UnparkOne(addr);
      }
      StepOut();
      o := SwapToNext(c, 0);
      if o.Some? { RemoveThread(dead); }
    }

    /** mb_threads_set_tid_address */
    method SetTidAddress(addr: nat) returns (tid: nat)
      requires Valid()
      modifies `threads
      ensures Valid() && tid == active
      ensures Abs() == old(Abs()).(threads := Set(old(threads), Get(old(threads), active).(tidAddress := addr)))
    {
      hide GroupOk;
      SetTidOk(Abs(), addr);
      SeatedLive(Abs());
      var i := FindThread(active);
      threads := threads[i := threads[i].(tidAddress := addr)];
      return active;
    }

    // ---- states ----

    /** mb_threads_save */
    method Save(c: Ctx) returns (w: Option<Written>)
      requires Valid()
      modifies `threads
      ensures w == Write(old(Abs()), c)
      ensures Abs() == if active == 1 then Kept(old(Abs()), c) else old(Abs())
    {
      hide Seated;
      if active != 1 { return None; }
      var i := FindThread(1);
      threads := threads[i := threads[i].(rsp := c.rsp, area := c.area)];
      var records: seq<Thread> := [];
      var deadlines: seq<nat> := [];
      var k := 0;
      while k < |threads|
        invariant k <= |threads| && |records| == |deadlines| == k && threads == old(threads)[i := old(threads)[i].(rsp := c.rsp, area := c.area)]
        invariant forall j | 0 <= j < k :: records[j] == Bare(threads[j]) && deadlines[j] == threads[j].deadline
      {
        records, deadlines := records + [threads[k].(deadline := 0, order := 0)], deadlines + [threads[k].deadline];
        k := k + 1;
      }
      ghost var v := Write(old(Abs()), c).value;
      assert threads == Kept(old(Abs()), c).threads;
      assert records == v.records && deadlines == v.deadlines;
      return Some(Written(clock, nextTid, active, records, queues, deadlines));
    }

    method LoadRecords(records: seq<Thread>)
      modifies `threads
      ensures threads == InsertAll(records, |records|)
    {
      threads := [];
      var k := 0;
      while k < |records|
        invariant k <= |records| && threads == InsertAll(records, k)
      {
        InsertThread(records[k].(deadline := 0, order := 0));
        k := k + 1;
      }
    }

    method LoadQueues(saved: seq<Queue>)
      modifies `queues
      ensures queues == Rebuilt(saved, |saved|)
    {
      queues := [];
      var k := 0;
      while k < |saved|
        invariant k <= |saved| && queues == Rebuilt(saved, k)
      {
        var addr, tids := saved[k].addr, saved[k].tids;
        ghost var was := queues;
        var j := 0;
        while j < |tids|
          invariant j <= |tids| && PushAll(queues, addr, tids[j..]) == PushAll(was, addr, tids)
        {
          assert tids[j..][1..] == tids[j + 1..];
          QueuePush(addr, tids[j]);
          j := j + 1;
        }
        k := k + 1;
      }
    }

    method LoadDeadlines(deadlines: seq<nat>)
      requires |deadlines| == |threads|
      modifies `threads
      ensures threads == WithDeadlines(old(threads), deadlines)
    {
      ghost var was := threads;
      var k := 0;
      while k < |threads|
        invariant k <= |threads| == |was| == |deadlines|
        invariant forall j | 0 <= j < |threads| :: threads[j] == if j < k then was[j].(deadline := deadlines[j]) else was[j]
      {
        threads := threads[k := threads[k].(deadline := deadlines[k])];
        k := k + 1;
      }
    }

    /** mb_threads_load */
    method Load(w: Written) returns (c: Option<Ctx>)
      modifies `threads, `queues, `nextTid, `active, `clock
      ensures var r := Loaded(old(Abs()), w);
              (r == None ==> c == None) && (r.Some? ==> c == Some(r.value.1) && Abs() == r.value.0)
    {
      hide InsertAll, Rebuilt;
      if active != 1 { return None; }
      nextTid, active := w.nextTid, w.active;
      LoadRecords(w.records);
      LoadQueues(w.queues);
      var i := FindThread(1);
      if i == |threads| { return None; }
      c := Some(Ctx(threads[i].rsp, threads[i].area));
      if v3 {
        if |w.deadlines| != |threads| { return None; }
        clock := w.clock;
        LoadDeadlines(w.deadlines);
      }
    }
  }

  lemma SeatedLive(g: Group)
    requires GroupOk(g)
    ensures Live(g.threads, g.active)
  {
  }

  lemma AdvanceActive(g: Group, ns: nat)
    ensures Advance(g, ns).active == g.active
  {
  }

  lemma ParkUntilKeeps(g: Group, addr: nat, deadline: nat)
    requires GroupOk(g) && g.v3
    ensures Seated(ParkUntil(g, addr, deadline)) && Live(ParkUntil(g, addr, deadline).threads, g.active) && ParkUntil(g, addr, deadline).active == g.active
  {
    hide Seated, Put, At, Find;
    ActiveRuns(g);
    var th := Park(Get(g.threads, g.active)).(deadline := deadline, order := g.parked + 1);
    ParkKeeps(g, addr, th);
    SetLive(g.threads, th, g.active);
    var p := ParkUntil(g, addr, deadline);
    SeatedParked(g.(threads := Set(g.threads, th), queues := p.queues), p.parked);
  }

  /** expire_due under way: everybody of `done` expired and out of the queues. */
  ghost predicate Expiring(ts: seq<Thread>, qs: seq<Queue>, clock: nat, done: set<nat>, now: seq<Thread>, left: seq<Queue>) {
    && Ascending(now) && now == Expire(ts, done) && left == Purge(qs, done)
    && done <= DueTids(ts, clock) && DueTids(now, clock) == DueTids(ts, clock) - done
  }

  lemma ExpireStart(ts: seq<Thread>, qs: seq<Queue>, clock: nat)
    requires Ascending(ts) && QueuesOk(qs)
    ensures Expiring(ts, qs, clock, {}, ts, qs)
  {
    ExpireNone(ts);
    PurgeNone(qs);
  }

  lemma ExpireStep(ts: seq<Thread>, qs: seq<Queue>, clock: nat, done: set<nat>, now: seq<Thread>, left: seq<Queue>, p: nat)
    requires Ascending(ts) && Expiring(ts, qs, clock, done, now, left) && p < |now| && Due(now[p], clock)
    ensures Expiring(ts, qs, clock, done + {now[p].tid}, now[p := Expired(now[p])], Purge(left, {now[p].tid}))
    ensures now[p].tid in DueTids(ts, clock) - done
  {
    hide DueTids, Expire, Purge;
    var tid := now[p].tid;
    DueLess(now, clock, p);
    SetExpires(now, p);
    ExpireMore(ts, done, tid);
    PurgeTwice(qs, done, {tid});
    ExpireFinds(ts, done + {tid}, 0);
  }

  lemma ExpireEnd(ts: seq<Thread>, qs: seq<Queue>, clock: nat, done: set<nat>, now: seq<Thread>, left: seq<Queue>)
    requires Expiring(ts, qs, clock, done, now, left) && forall i | 0 <= i < |now| :: !Due(now[i], clock)
    ensures now == Expire(ts, DueTids(ts, clock)) && left == Purge(qs, DueTids(ts, clock))
  {
    hide Expire, Purge;
    NoneDue(now, clock);
    assert done == DueTids(ts, clock);
  }

  lemma NoneDue(ts: seq<Thread>, clock: nat)
    requires forall i | 0 <= i < |ts| :: !Due(ts[i], clock)
    ensures DueTids(ts, clock) == {}
  {
  }
}
