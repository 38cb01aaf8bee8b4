/** Where a guest's memory lands: find_free_pages, with the per-group counts
    that let it cross 512 pages in one step. */
module Arena {
  import opened Pages

  const GROUP_PAGES: nat := 512
  const BIG_REQUEST_PAGES: nat := 4096

  predicate AllFree(st: seq<Status>, a: nat, b: nat)
    requires b <= |st|
  {
    forall k | a <= k < b :: st[k] == StFree
  }

  // ---- the counts ----

  function CountFree(st: seq<Status>, lo: nat, hi: nat): (n: nat)
    requires lo <= hi <= |st|
    ensures n <= hi - lo
  {
    if lo == hi then 0
    else CountFree(st, lo, hi - 1) + (if st[hi - 1] == StFree then 1 else 0)
  }

  lemma {:induction false} CountNone(st: seq<Status>, lo: nat, hi: nat)
    requires lo <= hi <= |st|
    ensures CountFree(st, lo, hi) == 0 <==> forall k | lo <= k < hi :: st[k] != StFree
  {
    if lo < hi { CountNone(st, lo, hi - 1); }
  }

  lemma {:induction false} CountAll(st: seq<Status>, lo: nat, hi: nat)
    requires lo <= hi <= |st|
    ensures CountFree(st, lo, hi) == hi - lo <==> AllFree(st, lo, hi)
  {
    if lo < hi { CountAll(st, lo, hi - 1); }
  }

  lemma {:induction false} CountUpdate(st: seq<Status>, lo: nat, hi: nat, i: nat, s: Status)
    requires lo <= hi <= |st| && i < |st|
    ensures CountFree(st[i := s], lo, hi) ==
              CountFree(st, lo, hi)
              + (if lo <= i < hi && s == StFree then 1 else 0) - (if lo <= i < hi && st[i] == StFree then 1 else 0)
  {
    if lo < hi { CountUpdate(st, lo, hi - 1, i, s); }
  }

  function GroupEnd(n: nat, g: nat): nat {
    if (g + 1) * GROUP_PAGES <= n then (g + 1) * GROUP_PAGES else n
  }

  function Groups(n: nat): nat {
    (n + GROUP_PAGES - 1) / GROUP_PAGES
  }

  /** group_free agrees with the statuses. */
  predicate Counted(st: seq<Status>, free: seq<nat>) {
    && |free| == Groups(|st|)
    && forall g | 0 <= g < |free| :: free[g] == CountFree(st, g * GROUP_PAGES, GroupEnd(|st|, g))
  }

  /** The counts of a block with every page free. */
  method FreshCounts(n: nat) returns (r: seq<nat>)
    ensures Counted(seq(n, _ => StFree), r)
  {
    ghost var st := seq(n, _ => StFree);
    r := [];
    while |r| < Groups(n)
      invariant |r| <= Groups(n)
      invariant forall g | 0 <= g < |r| :: r[g] == CountFree(st, g * GROUP_PAGES, GroupEnd(n, g))
    {
      var first := |r| * GROUP_PAGES;
      CountAll(st, first, GroupEnd(n, |r|));
      r := r + [if n - first < GROUP_PAGES then n - first else GROUP_PAGES];
    }
  }

  /** note_status's share: one count moves with one status. */
  function Recount(st: seq<Status>, free: seq<nat>, i: nat, s: Status): (r: seq<nat>)
    requires Counted(st, free) && i < |st|
    ensures Counted(st[i := s], r)
  {
    var g := i / GROUP_PAGES;
    forall h | 0 <= h < |free|
      ensures CountFree(st[i := s], h * GROUP_PAGES, GroupEnd(|st|, h)) ==
                CountFree(st, h * GROUP_PAGES, GroupEnd(|st|, h))
                + (if h == g && s == StFree then 1 else 0) - (if h == g && st[i] == StFree then 1 else 0)
    {
      CountUpdate(st, h * GROUP_PAGES, GroupEnd(|st|, h), i, s);
    }
    if st[i] == s then free
    else if st[i] == StFree then free[g := free[g] - 1]
    else if s == StFree then free[g := free[g] + 1]
    else free
  }

  lemma GroupSays(st: seq<Status>, free: seq<nat>, first: nat)
    requires Counted(st, free) && first % GROUP_PAGES == 0 && first + GROUP_PAGES <= |st|
    ensures first / GROUP_PAGES < |free|
    ensures free[first / GROUP_PAGES] == 0 <==> forall k | first <= k < first + GROUP_PAGES :: st[k] != StFree
    ensures free[first / GROUP_PAGES] == GROUP_PAGES <==> AllFree(st, first, first + GROUP_PAGES)
  {
    var g := first / GROUP_PAGES;
    assert g * GROUP_PAGES == first;
    CountNone(st, first, first + GROUP_PAGES);
    CountAll(st, first, first + GROUP_PAGES);
  }

  predicate WholeGroup(first: nat, lo: nat, hi: nat) {
    first % GROUP_PAGES == 0 && first >= lo && first + GROUP_PAGES <= hi
  }

  // ---- what the walk must answer ----

  /** n free pages from t on, inside the arena's end. */
  predicate Room(st: seq<Status>, hi: nat, n: nat, t: nat)
    requires hi <= |st|
  {
    t + n <= hi && AllFree(st, t, t + n)
  }

  /** A maximal free run of the arena. */
  predicate FreeRun(st: seq<Status>, lo: nat, hi: nat, a: nat, b: nat)
    requires hi <= |st|
  {
    && lo <= a < b <= hi && AllFree(st, a, b)
    && (a == lo || st[a - 1] != StFree)
    && (b == hi || st[b] != StFree)
  }

  /** The page-by-page answer for a big request: the highest start that fits. */
  ghost predicate HighestFit(st: seq<Status>, lo: nat, hi: nat, n: nat, r: Option<nat>)
    requires hi <= |st|
  {
    match r
    case Some(s) => lo <= s && Room(st, hi, n, s) && forall t: nat | s < t :: !Room(st, hi, n, t)
    case None => forall t: nat | lo <= t :: !Room(st, hi, n, t)
  }

  /** ... and for the rest: the lowest of the shortest free runs that fit. */
  ghost predicate BestFit(st: seq<Status>, lo: nat, hi: nat, n: nat, r: Option<nat>)
    requires hi <= |st|
  {
    match r
    case Some(a) =>
      exists b: nat :: FreeRun(st, lo, hi, a, b) && n <= b - a &&
                  forall c: nat, d: nat | FreeRun(st, lo, hi, c, d) && n <= d - c ::
                    b - a < d - c || (b - a == d - c && a <= c)
    case None => forall c: nat, d: nat | FreeRun(st, lo, hi, c, d) :: d - c < n
  }

  /** A start that fits lies in a free run that fits. */
  lemma FitsInRun(st: seq<Status>, lo: nat, hi: nat, n: nat, s: nat) returns (a: nat, b: nat)
    requires hi <= |st| && 0 < n && lo <= s && Room(st, hi, n, s)
    ensures FreeRun(st, lo, hi, a, b) && a <= s && s + n <= b
  {
    a, b := s, s + n;
    while a > lo && st[a - 1] == StFree
      invariant lo <= a <= s && AllFree(st, a, b)
    {
      a := a - 1;
    }
    while b < hi && st[b] == StFree
      invariant s + n <= b <= hi && AllFree(st, a, b)
      invariant a == lo || st[a - 1] != StFree
    {
      b := b + 1;
    }
  }

  /** Failure means nothing fits anywhere, and an answer is room enough. */
  lemma BestFitRoom(st: seq<Status>, lo: nat, hi: nat, n: nat, r: Option<nat>)
    requires hi <= |st| && 0 < n && BestFit(st, lo, hi, n, r)
    ensures r.Some? ==> lo <= r.value && Room(st, hi, n, r.value)
    ensures r == None ==> forall s: nat | lo <= s :: !Room(st, hi, n, s)
  {
    if r == None {
      forall s: nat | lo <= s ensures !Room(st, hi, n, s) {
        if Room(st, hi, n, s) {
          var a, b := FitsInRun(st, lo, hi, n, s);
        }
      }
    }
  }

  /** Where a request of n pages goes. */
  ghost predicate Placement(st: seq<Status>, lo: nat, hi: nat, n: nat, r: Option<nat>) {
    hi <= |st| && if n >= BIG_REQUEST_PAGES then HighestFit(st, lo, hi, n, r) else BestFit(st, lo, hi, n, r)
  }

  /** Where memory lands is part of the machine: the map and the request alone
      decide it. */
  lemma PlacementUnique(st: seq<Status>, lo: nat, hi: nat, n: nat, r: Option<nat>, t: Option<nat>)
    requires 0 < n && Placement(st, lo, hi, n, r) && Placement(st, lo, hi, n, t)
    ensures r == t
  {
    if n < BIG_REQUEST_PAGES {
      BestFitRoom(st, lo, hi, n, r);
      BestFitRoom(st, lo, hi, n, t);
    }
  }

  // ---- the walk ----

  method FindHigh(st: seq<Status>, free: seq<nat>, lo: nat, hi: nat, n: nat) returns (r: Option<nat>)
    requires Counted(st, free) && lo <= hi <= |st| && 0 < n
    ensures HighestFit(st, lo, hi, n, r)
  {
    var i, runEnd := hi, hi;
    while i > lo
      invariant lo <= i <= runEnd <= hi && runEnd - i < n
      invariant AllFree(st, i, runEnd) && (runEnd == hi || st[runEnd] != StFree)
      invariant forall t: nat | i <= t :: !Room(st, hi, n, t)
    {
      if i >= GROUP_PAGES && WholeGroup(i - GROUP_PAGES, lo, hi) {
        GroupSays(st, free, i - GROUP_PAGES);
        if free[(i - GROUP_PAGES) / GROUP_PAGES] == 0 {
          i := i - GROUP_PAGES;
          forall t: nat | i <= t < i + GROUP_PAGES ensures !Room(st, hi, n, t) {
            assert t + n <= hi ==> st[t] != StFree;
          }
          runEnd := i;
          continue;
        }
        if runEnd - (i - GROUP_PAGES) < n && free[(i - GROUP_PAGES) / GROUP_PAGES] == GROUP_PAGES {
          i := i - GROUP_PAGES;
          forall t: nat | i <= t < i + GROUP_PAGES ensures !Room(st, hi, n, t) {
            assert t + n <= hi ==> t <= runEnd < t + n;
          }
          continue;
        }
      }
      i := i - 1;
      if st[i] != StFree {
        runEnd := i;
        continue;
      }
      if runEnd - i >= n {
        return Some(runEnd - n);
      }
      assert i + n <= hi ==> i <= runEnd < i + n;
    }
    r := None;
  }

  method RunFrom(st: seq<Status>, free: seq<nat>, lo: nat, hi: nat, i: nat) returns (j: nat)
    requires Counted(st, free) && lo <= i < hi <= |st| && st[i] == StFree
    requires i == lo || st[i - 1] != StFree
    ensures FreeRun(st, lo, hi, i, j)
  {
    j := i;
    while j < hi && st[j] == StFree
      invariant i <= j <= hi && AllFree(st, i, j)
    {
      if WholeGroup(j, lo, hi) {
        GroupSays(st, free, j);
        if free[j / GROUP_PAGES] == GROUP_PAGES {
          j := j + GROUP_PAGES;
          continue;
        }
      }
      j := j + 1;
    }
  }

  lemma RunUnique(st: seq<Status>, lo: nat, hi: nat, a: nat, b: nat, c: nat, d: nat)
    requires hi <= |st| && FreeRun(st, lo, hi, a, b) && FreeRun(st, lo, hi, c, d)
    ensures (a == c && b == d) || b < c || d < a
  {
  }

  method FindLow(st: seq<Status>, free: seq<nat>, lo: nat, hi: nat, n: nat) returns (r: Option<nat>)
    requires Counted(st, free) && lo <= hi <= |st| && 0 < n
    ensures BestFit(st, lo, hi, n, r)
  {
    r := None;
    var bestLen := 0;
    var i := lo;
    while i < hi
      invariant lo <= i <= hi && (i == lo || i == hi || st[i] != StFree || st[i - 1] != StFree)
      invariant r == None ==> forall c: nat, d: nat | FreeRun(st, lo, hi, c, d) && c < i :: d - c < n
      invariant r.Some? ==>
                  && 0 < bestLen && r.value + bestLen <= i && FreeRun(st, lo, hi, r.value, r.value + bestLen) && n <= bestLen
                  && forall c: nat, d: nat | FreeRun(st, lo, hi, c, d) && c < i && n <= d - c ::
                       bestLen < d - c || (bestLen == d - c && r.value <= c)
    {
      if st[i] == StFree {
        var j := RunFrom(st, free, lo, hi, i);
        forall c: nat, d: nat | FreeRun(st, lo, hi, c, d) && i <= c < j ensures c == i && d == j {
          RunUnique(st, lo, hi, i, j, c, d);
        }
        if j - i >= n && (r == None || j - i < bestLen) {
          r, bestLen := Some(i), j - i;
        }
        i := j;
      } else {
        var step := 1;
        if WholeGroup(i, lo, hi) {
          GroupSays(st, free, i);
          if free[i / GROUP_PAGES] == 0 {
            step := GROUP_PAGES;
          }
        }
        forall c: nat, d: nat | FreeRun(st, lo, hi, c, d) && c < i + step ensures c < i {
          assert st[c] == StFree;
        }
        assert st[i + step - 1] != StFree;
        i := i + step;
      }
    }
    if r.Some? {
      assert FreeRun(st, lo, hi, r.value, r.value + bestLen);
    }
  }

  /** find_free_pages: the group counts only shorten the walk, they never
      change where memory lands. */
  method FindFreePages(st: seq<Status>, free: seq<nat>, lo: nat, hi: nat, n: nat) returns (r: Option<nat>)
    requires Counted(st, free) && lo <= hi <= |st| && 0 < n
    ensures Placement(st, lo, hi, n, r)
    ensures r.Some? ==> lo <= r.value && Room(st, hi, n, r.value)
    ensures r == None <==> forall s: nat | lo <= s :: !Room(st, hi, n, s)
  {
    if n >= BIG_REQUEST_PAGES {
      r := FindHigh(st, free, lo, hi, n);
    } else {
      r := FindLow(st, free, lo, hi, n);
      BestFitRoom(st, lo, hi, n, r);
    }
  }
}
