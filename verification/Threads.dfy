/** Guest threads as a value: one runs at a time, the rest are runnable or
    parked on a futex word, some until a moment of virtual time; and one
    function per operation of the scheduler. */
module Threads {
  import opened Pages
  import opened Queues

  // ---- numbers ----

  const U64: nat := 0x1_0000_0000_0000_0000
  const TICK: nat := 1000
  const CLOCK_START_MAX: nat := 7258118400 * 1_000_000_000
  const CLOCK_MAX: nat := U64 - 1 - CLOCK_START_MAX
  const TIMED_OUT: nat := U64 - 110
  const TRY_AGAIN: nat := U64 - 11
  const INVALID: nat := U64 - 22

  /** gthread, with its deadline (0 for none) and the order it parked in. */
  datatype Thread = Thread(tid: nat, waiting: bool, rax: nat, rsp: nat, area: nat, tidAddress: nat, deadline: nat, order: nat)

  /** mb_context: what a switch saves and restores. */
  datatype Ctx = Ctx(rsp: nat, area: nat)

  /** mb_threads. `v3` is machine spec 3, `kit2` a kit of revision 2 or later. */
  datatype Group = Group(threads: seq<Thread>, queues: seq<Queue>, nextTid: nat, active: nat, clock: nat, parked: nat, v3: bool, kit2: bool)

  /** What a scheduling call comes to: a thread goes on with a value in hand, or
      nobody ever can. */
  datatype Outcome = Ran(group: Group, ctx: Ctx, value: nat) | Deadlock

  // ---- the thread array ----

  predicate Ascending(ts: seq<Thread>) {
    forall i, j | 0 <= i < j < |ts| :: ts[i].tid < ts[j].tid
  }

  /** find_thread, as an index: the array's length when there is none. */
  function Find(ts: seq<Thread>, tid: nat): (i: nat)
    ensures i <= |ts| && (i < |ts| ==> ts[i].tid == tid)
    ensures i == |ts| ==> forall k | 0 <= k < |ts| :: ts[k].tid != tid
    ensures forall k | 0 <= k < i :: ts[k].tid != tid
  {
    if ts == [] then 0 else if ts[0].tid == tid then 0 else Find(ts[1..], tid) + 1
  }

  predicate Live(ts: seq<Thread>, tid: nat) {
    Find(ts, tid) < |ts|
  }

  function Get(ts: seq<Thread>, tid: nat): (th: Thread)
    requires Live(ts, tid)
    ensures th.tid == tid && th in ts
  {
    ts[Find(ts, tid)]
  }

  predicate IsWaiting(ts: seq<Thread>, tid: nat) {
    Live(ts, tid) && Get(ts, tid).waiting
  }

  function Set(ts: seq<Thread>, th: Thread): (r: seq<Thread>)
    requires Live(ts, th.tid)
    ensures |r| == |ts|
  {
    ts[Find(ts, th.tid) := th]
  }

  lemma FindUnique(ts: seq<Thread>, i: nat)
    requires Ascending(ts) && i < |ts|
    ensures Find(ts, ts[i].tid) == i
  {
  }

  lemma SetFinds(ts: seq<Thread>, th: Thread, tid: nat)
    requires Ascending(ts) && Live(ts, th.tid)
    ensures Ascending(Set(ts, th)) && Find(Set(ts, th), tid) == Find(ts, tid)
    ensures Live(ts, tid) ==> Get(Set(ts, th), tid) == if tid == th.tid then th else Get(ts, tid)
  {
    var r := Set(ts, th);
    if Find(ts, tid) < |ts| { FindUnique(r, Find(ts, tid)); }
    if Find(r, tid) < |r| { FindUnique(ts, Find(r, tid)); }
  }

  // ---- what stays true ----

  /** A thread waits exactly when its tid stands once, in one queue. */
  ghost predicate Accounted(ts: seq<Thread>, qs: seq<Queue>) {
    forall u: nat :: Waits(qs, u) == if IsWaiting(ts, u) then 1 else 0
  }

  /** Only a parked thread has a deadline, and only machine spec 3 has any. */
  predicate DeadlinesParked(ts: seq<Thread>, v3: bool) {
    forall i | 0 <= i < |ts| && ts[i].deadline != 0 :: ts[i].waiting && v3
  }

  predicate TidsBelow(ts: seq<Thread>, nextTid: nat) {
    forall i | 0 <= i < |ts| :: 0 < ts[i].tid < nextTid
  }

  /** The thread array and the queues, whoever runs. */
  ghost predicate Seated(g: Group) {
    && Ascending(g.threads) && QueuesOk(g.queues) && Accounted(g.threads, g.queues)
    && DeadlinesParked(g.threads, g.v3) && TidsBelow(g.threads, g.nextTid)
  }

  /** ... and between two system calls the one that runs is not parked. */
  ghost predicate GroupOk(g: Group) {
    Seated(g) && Live(g.threads, g.active) && !Get(g.threads, g.active).waiting
  }

  /** Virtual time in order: the clock within its ceiling, every parked deadline
      ahead of it. */
  predicate OnTime(g: Group) {
    && g.clock <= CLOCK_MAX
    && forall i | 0 <= i < |g.threads| && g.threads[i].deadline != 0 :: g.clock < g.threads[i].deadline <= CLOCK_MAX
  }

  // ---- futexes ----

  /** Entries at a queue's head whose thread is not waiting. */
  function Stale(ts: seq<Thread>, tids: seq<nat>): (k: nat)
    ensures k <= |tids| && (k < |tids| ==> IsWaiting(ts, tids[k]))
  {
    if tids == [] || IsWaiting(ts, tids[0]) then 0 else Stale(ts, tids[1..]) + 1
  }

  function Wake(th: Thread): Thread {
    th.(waiting := false, deadline := 0, order := 0)
  }

  function Park(th: Thread): Thread {
    th.(waiting := true)
  }

  /** unpark_one: who was woken, if anybody, and whether more remain. */
  function Unpark(g: Group, addr: nat): (r: (Group, Option<nat>, bool)) {
    var q := At(g.queues, addr);
    var k := Stale(g.threads, q);
    if k == |q| then (g.(queues := Put(g.queues, addr, [])), None, false)
    else
      (g.(threads := Set(g.threads, Wake(Get(g.threads, q[k]))), queues := Put(g.queues, addr, q[k + 1..])),
       Some(q[k]), k + 1 < |q|)
  }

  /** park_other, or the parking half of park_me. */
  function ParkOn(g: Group, addr: nat, tid: nat): Group
    requires Live(g.threads, tid)
  {
    g.(threads := Set(g.threads, Park(Get(g.threads, tid))), queues := Put(g.queues, addr, At(g.queues, addr) + [tid]))
  }

  /** mb_threads_futex_requeue: the group after it, and how many it took. */
  function Requeue(g: Group, from: nat, to: nat, wake: nat, move: nat): (r: (Group, nat))
    decreases wake + move
  {
    if wake + move == 0 then (g, 0)
    else
      var (g1, tid, more) := Unpark(g, from);
      if tid == None then (g1, 0)
      else
        var g2 := if wake > 0 || !Live(g1.threads, tid.value) then g1 else ParkOn(g1, to, tid.value);
        if !more then (g2, 1)
        else
          var rest := if wake > 0 then Requeue(g2, from, to, wake - 1, move) else Requeue(g2, from, to, 0, move - 1);
          (rest.0, rest.1 + 1)
  }

  // ---- virtual time ----

  /** mb_threads_ns_of: from revision 2 a time too large is the ceiling. */
  function NsOf(kit2: bool, sec: nat, nsec: nat): nat {
    if kit2 && (nsec > CLOCK_MAX || sec > (CLOCK_MAX - nsec) / 1_000_000_000) then CLOCK_MAX
    else (sec * 1_000_000_000 + nsec) % U64
  }

  /** mb_threads_ns_add */
  function NsAdd(kit2: bool, a: nat, b: nat): nat {
    if kit2 && (a > CLOCK_MAX || b > CLOCK_MAX - a) then CLOCK_MAX else (a + b) % U64
  }

  predicate Due(th: Thread, clock: nat) {
    th.waiting && th.deadline != 0 && th.deadline <= clock
  }

  function Expired(th: Thread): Thread {
    th.(waiting := false, rax := TIMED_OUT, deadline := 0, order := 0)
  }

  /** The tids of the threads due. */
  function DueTids(ts: seq<Thread>, clock: nat): (r: set<nat>)
    ensures forall u :: u in r ==> exists i | 0 <= i < |ts| :: ts[i].tid == u && Due(ts[i], clock)
    ensures forall i | 0 <= i < |ts| && Due(ts[i], clock) :: ts[i].tid in r
  {
    if ts == [] then {} else (if Due(ts[0], clock) then {ts[0].tid} else {}) + DueTids(ts[1..], clock)
  }

  /** Everybody of `gone` expired at once. */
  function Expire(ts: seq<Thread>, gone: set<nat>): (r: seq<Thread>)
    ensures |r| == |ts|
    ensures forall i | 0 <= i < |ts| :: r[i] == if ts[i].tid in gone then Expired(ts[i]) else ts[i]
  {
    seq(|ts|, i requires 0 <= i < |ts| => if ts[i].tid in gone then Expired(ts[i]) else ts[i])
  }

  /** expire_due, whatever order it takes them in. */
  function ExpireDue(g: Group): Group {
    var gone := DueTids(g.threads, g.clock);
    g.(threads := Expire(g.threads, gone), queues := Purge(g.queues, gone))
  }

  /** mb_threads_advance */
  function Advance(g: Group, ns: nat): Group {
    ExpireDue(g.(clock := NsAdd(g.kit2, g.clock, ns)))
  }

  // ---- scheduling ----

  /** The first runnable thread above `after`. */
  function FirstAbove(ts: seq<Thread>, after: nat): (r: Option<nat>)
    ensures r.Some? ==> exists i | 0 <= i < |ts| :: ts[i].tid == r.value && r.value > after && !ts[i].waiting
                                               && (forall k | 0 <= k < i :: ts[k].tid <= after || ts[k].waiting)
    ensures r == None ==> forall i | 0 <= i < |ts| :: ts[i].tid <= after || ts[i].waiting
  {
    if ts == [] then None
    else if ts[0].tid > after && !ts[0].waiting then Some(ts[0].tid)
    else
      var r := FirstAbove(ts[1..], after);
      assert r.Some? ==> forall i | 0 <= i < |ts| - 1 :: ts[1..][i] == ts[i + 1];
      r
  }

  /** Who runs next: upwards from the one that runs, then round. */
  function NextTid(ts: seq<Thread>, active: nat): Option<nat> {
    var up := FirstAbove(ts, active);
    if up.Some? then up else FirstAbove(ts, 0)
  }

  /** The earliest parked deadline, 0 for none. */
  function Earliest(ts: seq<Thread>): (dl: nat)
    ensures dl != 0 ==> exists i | 0 <= i < |ts| :: ts[i].waiting && ts[i].deadline == dl
    ensures forall i | 0 <= i < |ts| && ts[i].waiting && ts[i].deadline != 0 :: dl != 0 && dl <= ts[i].deadline
  {
    if ts == [] then 0
    else
      var rest := Earliest(ts[1..]);
      assert rest != 0 ==> exists i | 0 <= i < |ts| - 1 :: ts[1..][i].waiting && ts[1..][i].deadline == rest && ts[i + 1] == ts[1..][i];
      if ts[0].waiting && ts[0].deadline != 0 && (rest == 0 || ts[0].deadline < rest) then ts[0].deadline else rest
  }

  function Stored(g: Group, c: Ctx, ret: nat): Group
    requires Live(g.threads, g.active)
  {
    g.(threads := Set(g.threads, Get(g.threads, g.active).(rax := ret, rsp := c.rsp, area := c.area)))
  }

  /** The chosen thread goes on: with its own context, and what is stored for it. */
  function Resume(g: Group, c: Ctx, tid: nat): Outcome
    requires Live(g.threads, tid)
  {
    var th := Get(g.threads, tid);
    if tid == g.active then Ran(g, c, th.rax) else Ran(g.(active := tid), Ctx(th.rsp, th.area), th.rax)
  }

  /** Who goes on: the next runnable thread; with none, in v3, the clock goes
      forward to the earliest deadline; with no deadline either, nobody. */
  function Schedule(g: Group): Option<(Group, nat)> {
    var next := NextTid(g.threads, g.active);
    if next.Some? then Some((g, next.value))
    else
      var dl := Earliest(g.threads);
      if !g.v3 || dl == 0 then None
      else
        var f := ExpireDue(g.(clock := dl));
        var again := NextTid(f.threads, f.active);
        if again.Some? then Some((f, again.value)) else None
  }

  /** swap_to_next */
  function SwapNext(g: Group, c: Ctx, ret: nat): Outcome
    requires Live(g.threads, g.active)
  {
    match Schedule(Stored(g, c, ret))
    case None => Deadlock
    case Some((f, tid)) => if Live(f.threads, tid) then Resume(f, c, tid) else Deadlock
  }

  // ---- the calls ----

  /** park_me */
  function ParkMe(g: Group, c: Ctx, addr: nat, ret: nat): Outcome
    requires Live(g.threads, g.active)
  {
    var p := ParkOn(g, addr, g.active);
    if Live(p.threads, p.active) then SwapNext(p, c, ret) else Deadlock
  }

  /** mb_threads_futex_wait; `word` is what the futex word holds. */
  function Wait(g: Group, c: Ctx, addr: nat, word: nat, compare: nat): Outcome
    requires Live(g.threads, g.active)
  {
    if word != compare then Ran(g, c, TRY_AGAIN) else ParkMe(g, c, addr, 0)
  }

  /** A thread parked until a deadline. */
  function ParkUntil(g: Group, addr: nat, deadline: nat): Group
    requires Live(g.threads, g.active)
  {
    var p := ParkOn(g, addr, g.active);
    p.(threads := Set(g.threads, Park(Get(g.threads, g.active)).(deadline := deadline, order := g.parked + 1)), parked := g.parked + 1)
  }

  /** mb_threads_futex_wait_timeout with a deadline. */
  function WaitUntil(g: Group, c: Ctx, addr: nat, word: nat, compare: nat, deadline: nat): Outcome
    requires Live(g.threads, g.active)
  {
    if word != compare then Ran(g, c, TRY_AGAIN)
    else if !g.v3 then ParkMe(g, c, addr, 0)
    else if deadline <= g.clock then
      var a := Advance(g, TICK);
      if !g.kit2 || !Live(a.threads, a.active) then Ran(a, c, TIMED_OUT) else SwapNext(a, c, TIMED_OUT)
    else
      var p := ParkUntil(g, addr, deadline);
      if Live(p.threads, p.active) then SwapNext(p, c, 0) else Deadlock
  }

  /** insert_thread */
  function Insert(ts: seq<Thread>, th: Thread): (r: seq<Thread>) {
    if ts == [] || ts[|ts| - 1].tid <= th.tid then ts + [th] else Insert(ts[..|ts| - 1], th) + [ts[|ts| - 1]]
  }

  /** mb_threads_spawn, the stack already protected. */
  function Spawn(g: Group, rsp: nat, area: nat, tidAddress: nat): Group {
    g.(threads := Insert(g.threads, Thread(g.nextTid, false, 0, rsp, area, tidAddress, 0, 0)), nextTid := g.nextTid + 1)
  }

  /** remove_thread */
  function Remove(ts: seq<Thread>, tid: nat): (r: seq<Thread>) {
    var i := Find(ts, tid);
    if i == |ts| then ts else ts[..i] + ts[i + 1..]
  }

  /** mb_threads_exit, on a thread other than the first: its joiner woken, the
      next thread chosen with this one out of the running, and then gone. */
  function Exit(g: Group, c: Ctx): Outcome
    requires Live(g.threads, g.active)
  {
    var me := Get(g.threads, g.active);
    var w := if me.tidAddress != 0 then Unpark(g, me.tidAddress).0 else g;
    if !Live(w.threads, w.active) then Deadlock
    else
      var out := w.(threads := Set(w.threads, Park(Get(w.threads, w.active))));
      if !Live(out.threads, out.active) then Deadlock
      else
        match SwapNext(out, c, 0)
        case Deadlock => Deadlock
        case Ran(h, d, v) => Ran(h.(threads := Remove(h.threads, g.active)), d, v)
  }

  /** mb_threads_sched_yield */
  function OthersRunnable(ts: seq<Thread>, active: nat): bool {
    exists i | 0 <= i < |ts| :: ts[i].tid != active && !ts[i].waiting
  }

  function OthersTimed(ts: seq<Thread>, active: nat): bool {
    exists i | 0 <= i < |ts| :: ts[i].tid != active && ts[i].waiting && ts[i].deadline != 0
  }

  function SchedYield(g: Group, c: Ctx): Outcome
    requires Live(g.threads, g.active)
  {
    var a := if g.v3 && g.kit2 && !OthersRunnable(g.threads, g.active) && OthersTimed(g.threads, g.active) then Advance(g, TICK) else g;
    if Live(a.threads, a.active) then SwapNext(a, c, 0) else Deadlock
  }

  // ---- priority-inheritance locks ----

  const WAITERS: nat := 0x8000_0000

  function WithWaiters(word: nat): nat {
    if word % (2 * WAITERS) >= WAITERS then word else word + WAITERS
  }

  /** mb_threads_futex_lock_pi: the word after it, and the outcome. */
  function LockPi(g: Group, c: Ctx, addr: nat, word: nat): (nat, Outcome)
    requires Live(g.threads, g.active)
  {
    if word == 0 then (g.active, Ran(g, c, 0)) else (WithWaiters(word), ParkMe(g, c, addr, 0))
  }

  /** mb_threads_futex_unlock_pi: straight to the longest waiter. */
  function UnlockPi(g: Group, c: Ctx, addr: nat): (nat, Outcome)
    requires Live(g.threads, g.active)
  {
    var (h, tid, more) := Unpark(g, addr);
    if tid == None then (0, Ran(h, c, 0))
    else if !Live(h.threads, h.active) || !Live(Stored(h, c, 0).threads, tid.value) then (0, Deadlock)
    else (if more then WithWaiters(tid.value) else tid.value, Resume(Stored(h, c, 0), c, tid.value))
  }
}
