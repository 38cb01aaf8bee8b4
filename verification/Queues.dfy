/** Futex queues: who waits on which word, in the order they came. */
module Queues {

  datatype Queue = Queue(addr: nat, tids: seq<nat>)

  // ---- one queue's entries ----

  /** How often u stands in a list. */
  function CountIn(tids: seq<nat>, u: nat): nat {
    if tids == [] then 0 else (if tids[0] == u then 1 else 0) + CountIn(tids[1..], u)
  }

  lemma {:induction false} CountInAppend(a: seq<nat>, b: seq<nat>, u: nat)
    ensures CountIn(a + b, u) == CountIn(a, u) + CountIn(b, u)
  {
    if a == [] {
      assert a + b == b;
    } else {
      assert (a + b)[1..] == a[1..] + b;
      CountInAppend(a[1..], b, u);
    }
  }

  lemma {:induction false} CountInMember(tids: seq<nat>, u: nat)
    ensures CountIn(tids, u) > 0 <==> u in tids
  {
    if tids != [] { CountInMember(tids[1..], u); }
  }

  /** A list without the tids of `gone`. */
  function Without(tids: seq<nat>, gone: set<nat>): (r: seq<nat>)
    ensures forall u :: u in r ==> u in tids && u !in gone
  {
    if tids == [] then []
    else (if tids[0] in gone then [] else [tids[0]]) + Without(tids[1..], gone)
  }

  lemma {:induction false} CountInWithout(tids: seq<nat>, gone: set<nat>, u: nat)
    ensures CountIn(Without(tids, gone), u) == if u in gone then 0 else CountIn(tids, u)
  {
    if tids != [] {
      CountInWithout(tids[1..], gone, u);
      CountInAppend(if tids[0] in gone then [] else [tids[0]], Without(tids[1..], gone), u);
    }
  }

  lemma {:induction false} WithoutTwice(tids: seq<nat>, a: set<nat>, b: set<nat>)
    ensures Without(Without(tids, a), b) == Without(tids, a + b)
  {
    if tids != [] {
      WithoutTwice(tids[1..], a, b);
      var rest := Without(tids[1..], a);
      if tids[0] in a {
        assert Without(tids, a) == rest;
      } else {
        assert Without(tids, a) == [tids[0]] + rest;
        assert ([tids[0]] + rest)[1..] == rest;
        assert tids[0] in b <==> tids[0] in a + b;
      }
    }
  }

  lemma {:induction false} WithoutLast(tids: seq<nat>, u: nat, gone: set<nat>)
    requires u !in gone
    ensures Without(tids + [u], gone) == Without(tids, gone) + [u]
  {
    if tids != [] {
      WithoutLast(tids[1..], u, gone);
      assert (tids + [u])[1..] == tids[1..] + [u];
    }
  }

  lemma {:induction false} WithoutNone(tids: seq<nat>, gone: set<nat>)
    requires forall u :: u in tids ==> u !in gone
    ensures Without(tids, gone) == tids
  {
    if tids != [] { WithoutNone(tids[1..], gone); }
  }

  // ---- all the queues ----

  /** One queue per word, and none empty. */
  predicate QueuesOk(qs: seq<Queue>) {
    && (forall j, k | 0 <= j < k < |qs| :: qs[j].addr != qs[k].addr)
    && (forall k | 0 <= k < |qs| :: qs[k].tids != [])
  }

  /** Who waits on a word, longest first. */
  function At(qs: seq<Queue>, addr: nat): (r: seq<nat>) {
    if qs == [] then [] else if qs[0].addr == addr then qs[0].tids else At(qs[1..], addr)
  }

  /** The queues with this word's replaced; an empty queue is dropped. */
  function Put(qs: seq<Queue>, addr: nat, tids: seq<nat>): (r: seq<Queue>) {
    if qs == [] then (if tids == [] then [] else [Queue(addr, tids)])
    else if qs[0].addr == addr then (if tids == [] then qs[1..] else [Queue(addr, tids)] + qs[1..])
    else [qs[0]] + Put(qs[1..], addr, tids)
  }

  /** How often u waits, over all words. */
  function Waits(qs: seq<Queue>, u: nat): nat {
    if qs == [] then 0 else CountIn(qs[0].tids, u) + Waits(qs[1..], u)
  }

  lemma {:induction false} AtUnknown(qs: seq<Queue>, addr: nat)
    requires forall k | 0 <= k < |qs| :: qs[k].addr != addr
    ensures At(qs, addr) == [] && (forall tids :: tids == [] ==> Put(qs, addr, tids) == qs)
  {
    if qs != [] { AtUnknown(qs[1..], addr); }
  }

  lemma {:induction false} PutAddrs(qs: seq<Queue>, addr: nat, tids: seq<nat>, b: nat)
    ensures b != addr && (forall k | 0 <= k < |qs| :: qs[k].addr != b) ==>
              forall k | 0 <= k < |Put(qs, addr, tids)| :: Put(qs, addr, tids)[k].addr != b
  {
    if qs != [] && qs[0].addr != addr {
      PutAddrs(qs[1..], addr, tids, b);
    }
  }

  lemma {:induction false} PutOk(qs: seq<Queue>, addr: nat, tids: seq<nat>)
    requires QueuesOk(qs)
    ensures QueuesOk(Put(qs, addr, tids))
  {
    if qs != [] && qs[0].addr != addr {
      PutOk(qs[1..], addr, tids);
      PutAddrs(qs[1..], addr, tids, qs[0].addr);
    }
  }

  lemma {:induction false} PutAt(qs: seq<Queue>, addr: nat, tids: seq<nat>, b: nat)
    requires QueuesOk(qs)
    ensures At(Put(qs, addr, tids), b) == if b == addr then tids else At(qs, b)
  {
    if qs != [] {
      if qs[0].addr == addr {
        AtUnknown(qs[1..], addr);
      } else {
        PutAt(qs[1..], addr, tids, b);
      }
    }
  }

  lemma {:induction false} PutCount(qs: seq<Queue>, addr: nat, tids: seq<nat>, u: nat)
    requires QueuesOk(qs)
    ensures Waits(Put(qs, addr, tids), u) + CountIn(At(qs, addr), u) == Waits(qs, u) + CountIn(tids, u)
  {
    if qs != [] {
      if qs[0].addr != addr {
        PutCount(qs[1..], addr, tids, u);
      }
    }
  }

  lemma {:induction false} AtCount(qs: seq<Queue>, addr: nat, u: nat)
    ensures CountIn(At(qs, addr), u) <= Waits(qs, u)
  {
    if qs != [] && qs[0].addr != addr { AtCount(qs[1..], addr, u); }
  }

  /** Everybody of `gone` out of every queue. */
  function Purge(qs: seq<Queue>, gone: set<nat>): (r: seq<Queue>) {
    if qs == [] then []
    else
      var left := Without(qs[0].tids, gone);
      (if left == [] then [] else [Queue(qs[0].addr, left)]) + Purge(qs[1..], gone)
  }

  lemma {:induction false} PurgeAddrs(qs: seq<Queue>, gone: set<nat>, b: nat)
    requires forall k | 0 <= k < |qs| :: qs[k].addr != b
    ensures forall k | 0 <= k < |Purge(qs, gone)| :: Purge(qs, gone)[k].addr != b
  {
    if qs != [] { PurgeAddrs(qs[1..], gone, b); }
  }

  lemma {:induction false} PurgeOk(qs: seq<Queue>, gone: set<nat>)
    requires QueuesOk(qs)
    ensures QueuesOk(Purge(qs, gone))
  {
    if qs != [] {
      PurgeOk(qs[1..], gone);
      PurgeAddrs(qs[1..], gone, qs[0].addr);
    }
  }

  lemma {:induction false} PurgeCount(qs: seq<Queue>, gone: set<nat>, u: nat)
    ensures Waits(Purge(qs, gone), u) == if u in gone then 0 else Waits(qs, u)
  {
    if qs != [] {
      PurgeCount(qs[1..], gone, u);
      CountInWithout(qs[0].tids, gone, u);
      var left := Without(qs[0].tids, gone);
      var head := if left == [] then [] else [Queue(qs[0].addr, left)];
      assert Purge(qs, gone) == head + Purge(qs[1..], gone);
      if left != [] {
        assert (head + Purge(qs[1..], gone))[1..] == Purge(qs[1..], gone);
      } else {
        assert head + Purge(qs[1..], gone) == Purge(qs[1..], gone);
      }
    }
  }

  lemma {:induction false} PurgeTwice(qs: seq<Queue>, a: set<nat>, b: set<nat>)
    ensures Purge(Purge(qs, a), b) == Purge(qs, a + b)
  {
    if qs != [] {
      PurgeTwice(qs[1..], a, b);
      WithoutTwice(qs[0].tids, a, b);
      var left := Without(qs[0].tids, a);
      if left != [] {
        var r := [Queue(qs[0].addr, left)] + Purge(qs[1..], a);
        assert r[1..] == Purge(qs[1..], a);
      } else {
        assert Without(left, b) == [];
        assert Purge(qs, a) == Purge(qs[1..], a);
      }
    }
  }

  lemma {:induction false} PurgeNone(qs: seq<Queue>)
    requires QueuesOk(qs)
    ensures Purge(qs, {}) == qs
  {
    if qs != [] {
      PurgeNone(qs[1..]);
      WithoutNone(qs[0].tids, {});
    }
  }

  /** The order of those who stay is kept, word by word. */
  lemma {:induction false} PurgeAt(qs: seq<Queue>, gone: set<nat>, addr: nat)
    requires QueuesOk(qs)
    ensures At(Purge(qs, gone), addr) == Without(At(qs, addr), gone)
  {
    if qs != [] {
      PurgeAt(qs[1..], gone, addr);
      var left, rest := Without(qs[0].tids, gone), Purge(qs[1..], gone);
      assert ([Queue(qs[0].addr, left)] + rest)[1..] == rest;
      assert [] + rest == rest;
      if qs[0].addr == addr {
        AtUnknown(qs[1..], addr);
        PurgeAddrs(qs[1..], gone, addr);
        AtUnknown(rest, addr);
      }
    }
  }
}
