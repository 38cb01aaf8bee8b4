/** What the tokenizer makes of a whole document: every member's key is a child
    of its object, its value a child of the key, every element a child of its
    array, and the sizes are what that comes to. */
module JsonDocs {
  import opened Pages
  import opened Jsmn

  datatype Json = Bare(text: seq<byte>) | Quoted(text: seq<byte>) | List(items: Items) | Record(members: Members)
  datatype Items = NoItems | Item(head: Json, tail: Items)
  datatype Members = NoMembers | Member(key: seq<byte>, val: Json, rest: Members)

  // ---- written ----

  /** A number, a literal: something that starts and goes on as a primitive. */
  predicate BareOk(t: seq<byte>) {
    t != [] && t[0] != QUOTE && !OneChar(t[0]) && forall k | 0 <= k < |t| :: 32 < t[k] < 127 && !EndsPrimitive(t[k])
  }

  /** A string with nothing in it that needs an escape. */
  predicate QuotedOk(t: seq<byte>) {
    forall k | 0 <= k < |t| :: t[k] != QUOTE && t[k] != BACKSLASH && t[k] != 0
  }

  predicate Ok(j: Json) {
    match j
    case Bare(t) => BareOk(t)
    case Quoted(t) => QuotedOk(t)
    case List(items) => ItemsOk(items)
    case Record(ms) => MembersOk(ms)
  }

  predicate ItemsOk(items: Items) {
    items.Item? ==> Ok(items.head) && ItemsOk(items.tail)
  }

  predicate MembersOk(ms: Members) {
    ms.Member? ==> QuotedOk(ms.key) && Ok(ms.val) && MembersOk(ms.rest)
  }

  function InQuotes(t: seq<byte>): seq<byte> {
    [QUOTE] + t + [QUOTE]
  }

  function Written(j: Json): seq<byte> {
    match j
    case Bare(t) => t
    case Quoted(t) => InQuotes(t)
    case List(items) => [91] + ItemsWritten(items) + [93]
    case Record(ms) => [123] + MembersWritten(ms) + [125]
  }

  function ItemsWritten(items: Items): seq<byte> {
    match items
    case NoItems => []
    case Item(j, tail) => Written(j) + (if tail.NoItems? then [] else [44] + ItemsWritten(tail))
  }

  function MembersWritten(ms: Members): seq<byte> {
    match ms
    case NoMembers => []
    case Member(k, v, rest) => InQuotes(k) + [58] + Written(v) + (if rest.NoMembers? then [] else [44] + MembersWritten(rest))
  }

  // ---- its tokens ----

  function KindsOf(j: Json): seq<Type> {
    match j
    case Bare(_) => [Primitive]
    case Quoted(_) => [Text]
    case List(items) => [Array] + ItemsKinds(items)
    case Record(ms) => [Object] + MembersKinds(ms)
  }

  function ItemsKinds(items: Items): seq<Type> {
    if items.NoItems? then [] else KindsOf(items.head) + ItemsKinds(items.tail)
  }

  function MembersKinds(ms: Members): seq<Type> {
    if ms.NoMembers? then [] else [Text] + KindsOf(ms.val) + MembersKinds(ms.rest)
  }

  /** Whose child each token is, the first of them being the n-th of the text. */
  function ParentsOf(j: Json, n: nat, above: int): seq<int> {
    match j
    case Bare(_) => [above]
    case Quoted(_) => [above]
    case List(items) => [above] + ItemsParents(items, n + 1, n)
    case Record(ms) => [above] + MembersParents(ms, n + 1, n)
  }

  function ItemsParents(items: Items, n: nat, above: int): seq<int> {
    if items.NoItems? then []
    else ParentsOf(items.head, n, above) + ItemsParents(items.tail, n + |KindsOf(items.head)|, above)
  }

  function MembersParents(ms: Members, n: nat, above: int): seq<int> {
    if ms.NoMembers? then []
    else [above] + ParentsOf(ms.val, n + 1, n) + MembersParents(ms.rest, n + 1 + |KindsOf(ms.val)|, above)
  }

  // ---- read ----

  predicate At(js: seq<byte>, p: nat, s: seq<byte>) {
    p + |s| <= |js| && js[p..p + |s|] == s
  }

  lemma AtParts(js: seq<byte>, p: nat, a: seq<byte>, b: seq<byte>)
    requires At(js, p, a + b)
    ensures At(js, p, a) && At(js, p + |a|, b)
  {
    var s := js[p..p + |a + b|];
    assert s[..|a|] == a && s[|a|..] == b;
    assert js[p..p + |a|] == s[..|a|] && js[p + |a|..p + |a| + |b|] == s[|a|..];
  }

  lemma AtOne(js: seq<byte>, p: nat, c: byte)
    requires At(js, p, [c])
    ensures p < |js| && js[p] == c
  {
    assert js[p..p + 1][0] == c;
  }

  predicate Stops(js: seq<byte>, p: nat) {
    AtEnd(js, p) || EndsPrimitive(js[p])
  }

  lemma {:induction false} PassesString(js: seq<byte>, p: nat, t: seq<byte>)
    requires At(js, p, t + [QUOTE]) && QuotedOk(t)
    ensures StringEnd(js, p) == Upto(p + |t|)
    decreases |t|
  {
    AtParts(js, p, t, [QUOTE]);
    AtOne(js, p + |t|, QUOTE);
    if t != [] {
      assert t + [QUOTE] == [t[0]] + (t[1..] + [QUOTE]);
      AtParts(js, p, [t[0]], t[1..] + [QUOTE]);
      AtOne(js, p, t[0]);
      PassesString(js, p + 1, t[1..]);
    }
  }

  lemma {:induction false} PassesBare(js: seq<byte>, p: nat, t: seq<byte>)
    requires At(js, p, t) && Stops(js, p + |t|) && forall k | 0 <= k < |t| :: 32 < t[k] < 127 && !EndsPrimitive(t[k])
    ensures PrimitiveEnd(js, p) == Upto(p + |t|)
    decreases |t|
  {
    if t != [] {
      assert t == [t[0]] + t[1..];
      AtParts(js, p, [t[0]], t[1..]);
      AtOne(js, p, t[0]);
      PassesBare(js, p + 1, t[1..]);
    }
  }

  /** Where a document leaves reading: its tokens made, nothing of it open. */
  function Past(j: Json, w: Place): Place {
    Place(w.kinds + KindsOf(j), w.unclosed, if j.Bare? || j.Quoted? then w.above else Innermost(w.unclosed))
  }

  /** From p, this token, then the rest. */
  lemma ReadsBare(js: seq<byte>, p: nat, t: seq<byte>, w: Place)
    requires At(js, p, t) && BareOk(t) && Stops(js, p + |t|)
    ensures ParentsFrom(js, p, w) == [w.above] + ParentsFrom(js, p + |t|, Place(w.kinds + [Primitive], w.unclosed, w.above))
  {
    assert t == [t[0]] + t[1..];
    AtParts(js, p, [t[0]], t[1..]);
    AtOne(js, p, t[0]);
    PassesBare(js, p + 1, t[1..]);
  }

  lemma ReadsQuoted(js: seq<byte>, p: nat, t: seq<byte>, w: Place)
    requires At(js, p, InQuotes(t)) && QuotedOk(t)
    ensures ParentsFrom(js, p, w) == [w.above] + ParentsFrom(js, p + |t| + 2, Place(w.kinds + [Text], w.unclosed, w.above))
  {
    assert InQuotes(t) == [QUOTE] + (t + [QUOTE]);
    AtParts(js, p, [QUOTE], t + [QUOTE]);
    AtOne(js, p, QUOTE);
    PassesString(js, p + 1, t);
  }

  lemma ReadsOpen(js: seq<byte>, p: nat, c: byte, w: Place)
    requires At(js, p, [c]) && (c == 91 || c == 123)
    ensures ParentsFrom(js, p, w) ==
              [w.above] + ParentsFrom(js, p + 1, Place(w.kinds + [Bracket(c)], w.unclosed + [|w.kinds|], |w.kinds|))
  {
    AtOne(js, p, c);
  }

  lemma ReadsClose(js: seq<byte>, p: nat, c: byte, w: Place, outer: seq<nat>, n: nat)
    requires At(js, p, [c]) && (c == 93 || c == 125) && w.unclosed == outer + [n]
    ensures ParentsFrom(js, p, w) == ParentsFrom(js, p + 1, Place(w.kinds, outer, Innermost(outer)))
  {
    AtOne(js, p, c);
    assert w.unclosed[..|w.unclosed| - 1] == outer;
  }

  lemma ReadsColon(js: seq<byte>, p: nat, w: Place)
    requires At(js, p, [58])
    ensures ParentsFrom(js, p, w) == ParentsFrom(js, p + 1, w.(above := |w.kinds| - 1))
  {
    AtOne(js, p, 58);
  }

  /** Back to the container, from a value that was a key's or was not. */
  lemma ReadsComma(js: seq<byte>, p: nat, w: Place, n: nat)
    requires At(js, p, [44]) && w.unclosed != [] && Innermost(w.unclosed) == n < |w.kinds| && Container(w.kinds[n])
    requires w.above == n || (0 <= w.above < |w.kinds| && !Container(w.kinds[w.above]))
    ensures ParentsFrom(js, p, w) == ParentsFrom(js, p + 1, w.(above := n))
  {
    AtOne(js, p, 44);
    assert w.above == n ==> w.(above := n) == w;
  }

  lemma Regroup<T>(a: seq<T>, b: seq<T>, c: seq<T>)
    ensures a + (b + c) == a + b + c
  {
  }

  /** A document read: its tokens are whose they should be. */
  lemma {:induction false} Reads(js: seq<byte>, p: nat, j: Json, w: Place)
    requires At(js, p, Written(j)) && Ok(j) && Stops(js, p + |Written(j)|)
    ensures ParentsFrom(js, p, w) == ParentsOf(j, |w.kinds|, w.above) + ParentsFrom(js, p + |Written(j)|, Past(j, w))
    decreases j, 1
  {
    hide ParentsFrom, Stops, At, BareOk, QuotedOk;
    match j {
      case Bare(t) => ReadsBare(js, p, t, w);
      case Quoted(t) => ReadsQuoted(js, p, t, w);
      case List(items) => ReadsList(js, p, items, w);
      case Record(ms) => ReadsRecord(js, p, ms, w);
    }
  }

  lemma {:induction false} ReadsList(js: seq<byte>, p: nat, items: Items, w: Place)
    requires At(js, p, [91] + ItemsWritten(items) + [93]) && ItemsOk(items)
    ensures ParentsFrom(js, p, w) == [w.above] + ItemsParents(items, |w.kinds| + 1, |w.kinds|)
              + ParentsFrom(js, p + |ItemsWritten(items)| + 2, Place(w.kinds + ([Array] + ItemsKinds(items)), w.unclosed, Innermost(w.unclosed)))
    decreases items, 1
  {
    hide ParentsFrom, ItemsWritten, ItemsParents, ItemsKinds, ItemsOk, At;
    var inside, n := ItemsWritten(items), |w.kinds|;
    AtParts(js, p, [91] + inside, [93]);
    AtParts(js, p, [91], inside);
    ReadsOpen(js, p, 91, w);
    var v := Place(w.kinds + [Array], w.unclosed + [n], n);
    var q := p + 1 + |inside|;
    AtOne(js, q, 93);
    ReadsItems(js, p + 1, items, v, n);
    ReadsClose(js, q, 93, Place(v.kinds + ItemsKinds(items), v.unclosed, n), w.unclosed, n);
    Regroup(w.kinds, [Array], ItemsKinds(items));
    Regroup([w.above], ItemsParents(items, n + 1, n), ParentsFrom(js, q, Place(v.kinds + ItemsKinds(items), v.unclosed, n)));
  }

  lemma {:induction false} ReadsRecord(js: seq<byte>, p: nat, ms: Members, w: Place)
    requires At(js, p, [123] + MembersWritten(ms) + [125]) && MembersOk(ms)
    ensures ParentsFrom(js, p, w) == [w.above] + MembersParents(ms, |w.kinds| + 1, |w.kinds|)
              + ParentsFrom(js, p + |MembersWritten(ms)| + 2, Place(w.kinds + ([Object] + MembersKinds(ms)), w.unclosed, Innermost(w.unclosed)))
    decreases ms, 2
  {
    hide ParentsFrom, MembersWritten, MembersParents, MembersKinds, MembersOk, At;
    var inside, n := MembersWritten(ms), |w.kinds|;
    AtParts(js, p, [123] + inside, [125]);
    AtParts(js, p, [123], inside);
    ReadsOpen(js, p, 123, w);
    var v := Place(w.kinds + [Object], w.unclosed + [n], n);
    var q := p + 1 + |inside|;
    AtOne(js, q, 125);
    var above := ReadsMembers(js, p + 1, ms, v, n);
    ReadsClose(js, q, 125, Place(v.kinds + MembersKinds(ms), v.unclosed, above), w.unclosed, n);
    Regroup(w.kinds, [Object], MembersKinds(ms));
    Regroup([w.above], MembersParents(ms, n + 1, n), ParentsFrom(js, q, Place(v.kinds + MembersKinds(ms), v.unclosed, above)));
  }

  /** The elements of the n-th token, up to its closing bracket. */
  lemma {:induction false} ReadsItems(js: seq<byte>, p: nat, items: Items, w: Place, n: nat)
    requires At(js, p, ItemsWritten(items)) && ItemsOk(items) && Stops(js, p + |ItemsWritten(items)|)
    requires w.unclosed != [] && Innermost(w.unclosed) == n == w.above < |w.kinds| && Container(w.kinds[n])
    ensures ParentsFrom(js, p, w) ==
              ItemsParents(items, |w.kinds|, n) + ParentsFrom(js, p + |ItemsWritten(items)|, Place(w.kinds + ItemsKinds(items), w.unclosed, n))
    decreases items, 0
  {
    hide ParentsFrom, ParentsOf, KindsOf, Written, Ok, At;
    if items.NoItems? {
      assert w.kinds + [] == w.kinds;
    } else {
      var j, tail := items.head, items.tail;
      var v := Past(j, w);
      if tail.NoItems? {
        assert Written(j) + [] == Written(j);
        Reads(js, p, j, w);
        assert ItemsKinds(items) == KindsOf(j) + [] == KindsOf(j);
        assert ItemsParents(items, |w.kinds|, n) == ParentsOf(j, |w.kinds|, n) + [];
      } else {
        AtParts(js, p, Written(j), [44] + ItemsWritten(tail));
        var q := p + |Written(j)|;
        AtParts(js, q, [44], ItemsWritten(tail));
        AtOne(js, q, 44);
        Reads(js, p, j, w);
        ReadsComma(js, q, v, n);
        ReadsItems(js, q + 1, tail, v.(above := n), n);
        assert w.kinds + ItemsKinds(items) == v.kinds + ItemsKinds(tail);
      }
    }
  }

  /** One member: its key a child of the n-th token, its value of the key. */
  lemma {:induction false} ReadsMember(js: seq<byte>, p: nat, ms: Members, w: Place, n: nat)
    requires ms.Member? && At(js, p, InQuotes(ms.key) + [58] + Written(ms.val)) && QuotedOk(ms.key) && Ok(ms.val)
    requires Stops(js, p + |ms.key| + 3 + |Written(ms.val)|) && w.above == n
    ensures var k := |w.kinds|;
            ParentsFrom(js, p, w) == [n] + ParentsOf(ms.val, k + 1, k)
              + ParentsFrom(js, p + |ms.key| + 3 + |Written(ms.val)|, Past(ms.val, Place(w.kinds + [Text], w.unclosed, k)))
    decreases ms, 0
  {
    hide ParentsFrom, ParentsOf, Written, Ok, At, Stops, QuotedOk, Past;
    var key, j, k, q := ms.key, ms.val, |w.kinds|, p + |ms.key| + 2;
    AtParts(js, p, InQuotes(key) + [58], Written(j));
    AtParts(js, p, InQuotes(key), [58]);
    ReadsQuoted(js, p, key, w);
    var atKey := Place(w.kinds + [Text], w.unclosed, n);
    ReadsColon(js, q, atKey);
    var v := atKey.(above := k);
    Reads(js, q + 1, j, v);
    Regroup([n], ParentsOf(j, k + 1, k), ParentsFrom(js, q + 1 + |Written(j)|, Past(j, v)));
  }

  /** The members of the n-th token, up to its closing bracket. */
  lemma {:induction false} ReadsMembers(js: seq<byte>, p: nat, ms: Members, w: Place, n: nat) returns (above: int)
    requires At(js, p, MembersWritten(ms)) && MembersOk(ms) && Stops(js, p + |MembersWritten(ms)|)
    requires w.unclosed != [] && Innermost(w.unclosed) == n == w.above < |w.kinds| && Container(w.kinds[n])
    ensures ParentsFrom(js, p, w) ==
              MembersParents(ms, |w.kinds|, n) + ParentsFrom(js, p + |MembersWritten(ms)|, Place(w.kinds + MembersKinds(ms), w.unclosed, above))
    decreases ms, 1
  {
    hide ParentsFrom, ParentsOf, KindsOf, Written, Ok, At, QuotedOk;
    if ms.NoMembers? {
      assert w.kinds + [] == w.kinds;
      above := n;
    } else {
      var j, rest, k := ms.val, ms.rest, |w.kinds|;
      var one := InQuotes(ms.key) + [58] + Written(j);
      var e := p + |one|;
      var u := Past(j, Place(w.kinds + [Text], w.unclosed, k));
      var mine := [n] + ParentsOf(j, k + 1, k);
      assert u.kinds[n] == w.kinds[n] && u.kinds[k] == Text;
      if rest.NoMembers? {
        assert one + [] == one;
        ReadsMember(js, p, ms, w, n);
        above := u.above;
        assert w.kinds + MembersKinds(ms) == u.kinds;
        assert MembersParents(ms, k, n) == mine;
      } else {
        AtParts(js, p, one, [44] + MembersWritten(rest));
        AtParts(js, e, [44], MembersWritten(rest));
        AtOne(js, e, 44);
        ReadsMember(js, p, ms, w, n);
        ReadsComma(js, e, u, n);
        above := ReadsMembers(js, e + 1, rest, u.(above := n), n);
        assert w.kinds + MembersKinds(ms) == u.kinds + MembersKinds(rest);
        Regroup(mine, MembersParents(rest, |u.kinds|, n), ParentsFrom(js, p + |MembersWritten(ms)|, Place(u.kinds + MembersKinds(rest), w.unclosed, above)));
      }
    }
  }

  /** The whole text a document. */
  lemma DocumentParents(j: Json)
    requires Ok(j)
    ensures Parents(Written(j)) == ParentsOf(j, 0, -1)
  {
    var js, w := Written(j), Place([], [], -1);
    assert js[0..|js|] == js;
    Reads(js, 0, j, w);
    assert ParentsFrom(js, |js|, Past(j, w)) == [];
  }

  // ---- sizes ----

  function CountItems(items: Items): nat {
    if items.NoItems? then 0 else 1 + CountItems(items.tail)
  }

  function CountMembers(ms: Members): nat {
    if ms.NoMembers? then 0 else 1 + CountMembers(ms.rest)
  }

  /** An array's size is its elements, an object's its members, a key's one, and
      anything else's none. */
  function SizesOf(j: Json): (r: seq<nat>)
    ensures |r| == |KindsOf(j)|
  {
    match j
    case Bare(_) => [0]
    case Quoted(_) => [0]
    case List(items) => [CountItems(items)] + ItemsSizes(items)
    case Record(ms) => [CountMembers(ms)] + MembersSizes(ms)
  }

  function ItemsSizes(items: Items): (r: seq<nat>)
    ensures |r| == |ItemsKinds(items)|
  {
    if items.NoItems? then [] else SizesOf(items.head) + ItemsSizes(items.tail)
  }

  function MembersSizes(ms: Members): (r: seq<nat>)
    ensures |r| == |MembersKinds(ms)|
  {
    if ms.NoMembers? then [] else [1] + SizesOf(ms.val) + MembersSizes(ms.rest)
  }

  lemma {:induction false} TimesBoth(a: seq<int>, b: seq<int>, x: int)
    ensures Times(a + b, x) == Times(a, x) + Times(b, x)
    decreases |b|
  {
    if b == [] {
      assert a + b == a;
    } else {
      var n := |b| - 1;
      assert a + b == (a + b[..n]) + [b[n]] && b == b[..n] + [b[n]];
      TimesMore(a + b[..n], b[n], x);
      TimesMore(b[..n], b[n], x);
      TimesBoth(a, b[..n], x);
    }
  }

  lemma TimesOnce(y: int, x: int)
    ensures Times([y], x) == if y == x then 1 else 0
  {
    assert [y][..0] == [];
  }

  /** How many children each token has, those of the document's own tokens and the
      one more of the token above it. */
  lemma {:induction false} TimesOf(j: Json, n: nat, above: int, k: int)
    requires above < n
    ensures Times(ParentsOf(j, n, above), k) ==
              if n <= k < n + |KindsOf(j)| then SizesOf(j)[k - n] else if k == above then 1 else 0
    decreases j
  {
    hide Times;
    TimesOnce(above, k);
    match j {
      case Bare(_) =>
      case Quoted(_) =>
      case List(items) =>
        TimesBoth([above], ItemsParents(items, n + 1, n), k);
        TimesItems(items, n + 1, n, k);
      case Record(ms) =>
        TimesBoth([above], MembersParents(ms, n + 1, n), k);
        TimesMembers(ms, n + 1, n, k);
    }
  }

  lemma {:induction false} TimesItems(items: Items, n: nat, above: int, k: int)
    requires above < n
    ensures Times(ItemsParents(items, n, above), k) ==
              if n <= k < n + |ItemsKinds(items)| then ItemsSizes(items)[k - n] else if k == above then CountItems(items) else 0
    decreases items
  {
    hide KindsOf, SizesOf, ParentsOf;
    if items.Item? {
      hide Times;
      var j, tail := items.head, items.tail;
      var next := n + |KindsOf(j)|;
      TimesBoth(ParentsOf(j, n, above), ItemsParents(tail, next, above), k);
      TimesOf(j, n, above, k);
      TimesItems(tail, next, above, k);
    }
  }

  lemma {:induction false} TimesMembers(ms: Members, n: nat, above: int, k: int)
    requires above < n
    ensures Times(MembersParents(ms, n, above), k) ==
              if n <= k < n + |MembersKinds(ms)| then MembersSizes(ms)[k - n] else if k == above then CountMembers(ms) else 0
    decreases ms
  {
    hide KindsOf, SizesOf, ParentsOf;
    if ms.Member? {
      hide Times;
      var j, rest := ms.val, ms.rest;
      var next := n + 1 + |KindsOf(j)|;
      TimesOnce(above, k);
      TimesBoth([above], ParentsOf(j, n + 1, n), k);
      TimesBoth([above] + ParentsOf(j, n + 1, n), MembersParents(rest, next, above), k);
      TimesOf(j, n + 1, n, k);
      TimesMembers(rest, next, above, k);
    }
  }

  lemma {:induction false} ParentsCount(j: Json, n: nat, above: int)
    ensures |ParentsOf(j, n, above)| == |KindsOf(j)|
    decreases j
  {
    match j {
      case Bare(_) =>
      case Quoted(_) =>
      case List(items) => ItemsCount(items, n + 1, n);
      case Record(ms) => MembersCount(ms, n + 1, n);
    }
  }

  lemma {:induction false} ItemsCount(items: Items, n: nat, above: int)
    ensures |ItemsParents(items, n, above)| == |ItemsKinds(items)|
    decreases items
  {
    if items.Item? {
      ParentsCount(items.head, n, above);
      ItemsCount(items.tail, n + |KindsOf(items.head)|, above);
    }
  }

  lemma {:induction false} MembersCount(ms: Members, n: nat, above: int)
    ensures |MembersParents(ms, n, above)| == |MembersKinds(ms)|
    decreases ms
  {
    if ms.Member? {
      ParentsCount(ms.val, n + 1, n);
      MembersCount(ms.rest, n + 1 + |KindsOf(ms.val)|, above);
    }
  }

  /** A document parsed: as many tokens as it has, each with its own size. */
  lemma DocumentSizes(j: Json, ts: seq<Token>)
    requires Ok(j) && SizesRight(Written(j), ts)
    ensures |ts| == |KindsOf(j)| && forall k | 0 <= k < |ts| :: ts[k].size == SizesOf(j)[k]
  {
    hide Written, Parents, ParentsOf, Times, KindsOf, SizesOf;
    DocumentParents(j);
    ParentsCount(j, 0, -1);
    forall k | 0 <= k < |ts| ensures ts[k].size == SizesOf(j)[k] { TimesOf(j, 0, -1, k); }
  }
}
