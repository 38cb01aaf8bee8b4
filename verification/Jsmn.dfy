/** The JSON tokenizer: what a parse that succeeds has filled in, and why the
    pass that only counts agrees with it. */
module Jsmn {
  import opened Pages

  datatype Type = Undefined | Object | Array | Text | Primitive

  /** jsmntok_t: a span of the text; -1 for an end still to come. */
  datatype Token = Token(kind: Type, start: int, end: int, size: nat)

  const NO_ROOM: int := -1
  const BAD_TEXT: int := -2
  const CUT_SHORT: int := -3

  const NO_TOKEN: Token := Token(Undefined, -1, -1, 0)

  // ---- the text ----

  const QUOTE: byte := 34
  const BACKSLASH: byte := 92

  predicate AtEnd(js: seq<byte>, p: nat) {
    p >= |js| || js[p] == 0
  }

  predicate Blank(c: byte) {
    c == 9 || c == 13 || c == 10 || c == 32
  }

  /** What ends a primitive: blanks, a comma, a closing bracket - and a colon. */
  predicate EndsPrimitive(c: byte) {
    Blank(c) || c == 44 || c == 93 || c == 125 || c == 58
  }

  predicate Hex(c: byte) {
    (48 <= c <= 57) || (65 <= c <= 70) || (97 <= c <= 102)
  }

  /** Escapes of one letter. */
  predicate Escape(c: byte) {
    c == QUOTE || c == 47 || c == BACKSLASH || c == 98 || c == 102 || c == 114 || c == 110 || c == 116
  }

  datatype Scan = Upto(end: nat) | Bad(error: int)

  /** Past at most n hexadecimal digits, or none where something else stands. */
  function HexEnd(js: seq<byte>, p: nat, n: nat): (r: Option<nat>)
    ensures r.Some? ==> p <= r.value && (p <= |js| ==> r.value <= |js|)
    decreases n
  {
    if n == 0 || AtEnd(js, p) then Some(p) else if !Hex(js[p]) then None else HexEnd(js, p + 1, n - 1)
  }

  /** Where the string whose inside starts at p has its closing quote. */
  function StringEnd(js: seq<byte>, p: nat): (r: Scan)
    ensures r.Upto? ==> p <= r.end < |js|
    ensures r.Bad? ==> r.error < 0
    decreases |js| - p
  {
    if AtEnd(js, p) then Bad(CUT_SHORT)
    else if js[p] == QUOTE then Upto(p)
    else if js[p] == BACKSLASH && p + 1 < |js| then
      if Escape(js[p + 1]) then StringEnd(js, p + 2)
      else if js[p + 1] == 117 then
        (match HexEnd(js, p + 2, 4) case None => Bad(BAD_TEXT) case Some(q) => StringEnd(js, q))
      else Bad(BAD_TEXT)
    else StringEnd(js, p + 1)
  }

  /** Where the primitive that reaches p ends. */
  function PrimitiveEnd(js: seq<byte>, p: nat): (r: Scan)
    requires p <= |js|
    ensures r.Upto? ==> p <= r.end <= |js|
    ensures r.Bad? ==> r.error < 0
    decreases |js| - p
  {
    if AtEnd(js, p) || EndsPrimitive(js[p]) then Upto(p)
    else if js[p] < 32 || js[p] >= 127 then Bad(BAD_TEXT)
    else PrimitiveEnd(js, p + 1)
  }

  /** Brackets, a colon, a comma and blanks take one character. */
  predicate OneChar(c: byte) {
    Blank(c) || c == 123 || c == 91 || c == 125 || c == 93 || c == 58 || c == 44
  }

  /** What stands at p: where it ends, or what is wrong with it. */
  function Lexeme(js: seq<byte>, p: nat): (r: Scan)
    requires !AtEnd(js, p)
    ensures r.Upto? ==> p < r.end <= |js|
    ensures r.Bad? ==> r.error < 0
  {
    if OneChar(js[p]) then Upto(p + 1)
    else if js[p] == QUOTE then
      (match StringEnd(js, p + 1) case Bad(e) => Bad(e) case Upto(q) => Upto(q + 1))
    else if js[p] < 32 || js[p] >= 127 then Bad(BAD_TEXT)
    else PrimitiveEnd(js, p + 1)
  }

  /** Whether what stands there is a token. */
  predicate Counts(c: byte) {
    c == 123 || c == 91 || !OneChar(c)
  }

  /** How many tokens the text from p on has: the whole answer of a pass with no
      token array. */
  function CountFrom(js: seq<byte>, p: nat): int
    decreases |js| - p
  {
    if AtEnd(js, p) then 0
    else
      match Lexeme(js, p)
      case Bad(e) => e
      case Upto(q) =>
        var rest := CountFrom(js, q);
        if rest < 0 then rest else rest + (if Counts(js[p]) then 1 else 0)
  }

  /** Whether the brackets match from p on, with these still open. */
  function Matches(js: seq<byte>, p: nat, stack: seq<Type>): bool
    decreases |js| - p
  {
    if AtEnd(js, p) then stack == []
    else
      match Lexeme(js, p)
      case Bad(_) => false
      case Upto(q) =>
        if js[p] == 123 || js[p] == 91 then Matches(js, q, stack + [Bracket(js[p])])
        else if js[p] == 125 || js[p] == 93 then
          stack != [] && stack[|stack| - 1] == Bracket(js[p]) && Matches(js, q, stack[..|stack| - 1])
        else Matches(js, q, stack)
  }

  function Bracket(c: byte): Type {
    if c == 123 || c == 125 then Object else Array
  }

  /** The kind and the start of the token that stands at p. */
  function HeadAt(js: seq<byte>, p: nat): (Type, int)
    requires !AtEnd(js, p)
  {
    if js[p] == 123 || js[p] == 91 then (Bracket(js[p]), p) else if js[p] == QUOTE then (Text, p + 1) else (Primitive, p)
  }

  /** The tokens of the text from p on, in order. */
  function HeadsFrom(js: seq<byte>, p: nat): seq<(Type, int)>
    decreases |js| - p
  {
    if AtEnd(js, p) || Lexeme(js, p).Bad? then []
    else (if Counts(js[p]) then [HeadAt(js, p)] else []) + HeadsFrom(js, Lexeme(js, p).end)
  }

  function Heads(ts: seq<Token>): (r: seq<(Type, int)>) {
    seq(|ts|, k requires 0 <= k < |ts| => (ts[k].kind, ts[k].start))
  }

  /** Just past the bracket that closes the outermost of `depth` brackets open
      at p. */
  function ClosedAt(js: seq<byte>, p: nat, depth: nat): (r: Option<nat>)
    ensures r.Some? ==> p < r.value <= |js|
    decreases |js| - p
  {
    if depth == 0 || AtEnd(js, p) || Lexeme(js, p).Bad? then None
    else if js[p] == 123 || js[p] == 91 then ClosedAt(js, p + 1, depth + 1)
    else if js[p] == 125 || js[p] == 93 then (if depth == 1 then Some(p + 1) else ClosedAt(js, p + 1, depth - 1))
    else ClosedAt(js, Lexeme(js, p).end, depth)
  }

  /** A closed token ends where the text ends it: a string at its closing quote,
      a primitive where it stops, a container past the bracket that matches its
      own. */
  predicate EndsRight(js: seq<byte>, t: Token) {
    t.end != -1 ==>
      && 0 <= t.start <= t.end <= |js|
      && match t.kind
         case Text => StringEnd(js, t.start) == Upto(t.end)
         case Primitive => !AtEnd(js, t.start) && Lexeme(js, t.start) == Upto(t.end)
         case Object => ClosedAt(js, t.start + 1, 1) == Some(t.end) && js[t.end - 1] == 125
         case Array => ClosedAt(js, t.start + 1, 1) == Some(t.end) && js[t.end - 1] == 93
         case Undefined => false
  }

  // ---- spans ----

  predicate Open(t: Token) {
    t.start != -1 && t.end == -1
  }

  /** A token in the text as far as it has been read. */
  predicate InText(t: Token, pos: nat) {
    0 <= t.start <= pos && (t.end == -1 || t.start <= t.end <= pos)
  }

  /** Of two tokens in the order they were made: the later lies after the
      earlier, or inside it. */
  predicate Apart(a: Token, b: Token) {
    && a.start <= b.start
    && (a.end != -1 ==> a.end <= b.start || (b.end != -1 && b.end <= a.end))
  }

  predicate Nested(ts: seq<Token>, pos: nat) {
    && (forall k | 0 <= k < |ts| :: InText(ts[k], pos))
    && forall a, b | 0 <= a < b < |ts| :: Apart(ts[a], ts[b])
  }

  /** A token that starts where reading has got to. */
  lemma NestedMore(ts: seq<Token>, pos: nat, t: Token, pos': nat)
    requires Nested(ts, pos) && pos <= t.start <= pos' && (t.end == -1 || t.start <= t.end <= pos')
    ensures Nested(ts + [t], pos')
  {
    var now := ts + [t];
    forall k | 0 <= k < |now| ensures InText(now[k], pos') {
      if k < |ts| { assert InText(ts[k], pos); }
    }
    forall a, b | 0 <= a < b < |now| ensures Apart(now[a], now[b]) {
      assert InText(ts[a], pos);
    }
  }

  lemma NestedOn(ts: seq<Token>, pos: nat, pos': nat)
    requires Nested(ts, pos) && pos <= pos'
    ensures Nested(ts, pos')
  {
    forall k | 0 <= k < |ts| ensures InText(ts[k], pos') { assert InText(ts[k], pos); }
  }

  /** The last open token closed: whatever came after it lies inside. */
  lemma NestedClose(ts: seq<Token>, pos: nat, i: nat, t: Token)
    requires Nested(ts, pos) && i < |ts| && Open(ts[i]) && (forall k | i < k < |ts| :: !Open(ts[k]))
    requires t == ts[i].(end := pos + 1)
    ensures Nested(ts[i := t], pos + 1)
  {
    var now := ts[i := t];
    forall k | 0 <= k < |now| ensures InText(now[k], pos + 1) { assert InText(ts[k], pos); }
    forall a, b | 0 <= a < b < |now| ensures Apart(now[a], now[b]) {
      assert Apart(ts[a], ts[b]) && InText(ts[a], pos) && InText(ts[b], pos);
    }
  }

  /** One more child noted: no span changes. */
  lemma NestedSize(ts: seq<Token>, pos: nat, i: nat)
    requires Nested(ts, pos) && i < |ts|
    ensures Nested(ts[i := ts[i].(size := ts[i].size + 1)], pos)
  {
    var now := ts[i := ts[i].(size := ts[i].size + 1)];
    forall k | 0 <= k < |now| ensures InText(now[k], pos) { assert InText(ts[k], pos); }
    forall a, b | 0 <= a < b < |now| ensures Apart(now[a], now[b]) { assert Apart(ts[a], ts[b]); }
  }

  /** What a successful parse leaves: every span in the text and closed, and any
      two of them apart or one inside the other. */
  predicate Spans(ts: seq<Token>, n: nat) {
    && (forall k | 0 <= k < |ts| :: 0 <= ts[k].start <= ts[k].end <= n)
    && forall a, b | 0 <= a < b < |ts| ::
         ts[a].start <= ts[b].start && (ts[a].end <= ts[b].start || ts[b].end <= ts[a].end)
  }

  lemma AllClosed(ts: seq<Token>, n: nat)
    requires Nested(ts, n) && forall k | 0 <= k < |ts| :: !Open(ts[k])
    ensures Spans(ts, n)
  {
    forall k | 0 <= k < |ts| ensures 0 <= ts[k].start <= ts[k].end <= n { assert InText(ts[k], n); }
    forall a, b | 0 <= a < b < |ts|
      ensures ts[a].start <= ts[b].start && (ts[a].end <= ts[b].start || ts[b].end <= ts[a].end)
    {
      assert Apart(ts[a], ts[b]);
    }
  }

  /** What is open, outermost first. */
  function Stack(ts: seq<Token>): (r: seq<Type>) {
    if ts == [] then []
    else Stack(ts[..|ts| - 1]) + (if Open(ts[|ts| - 1]) then [ts[|ts| - 1].kind] else [])
  }

  lemma StackMore(ts: seq<Token>, t: Token)
    ensures Stack(ts + [t]) == Stack(ts) + (if Open(t) then [t.kind] else [])
  {
    assert (ts + [t])[..|ts|] == ts;
  }

  lemma {:induction false} StackNone(ts: seq<Token>)
    ensures Stack(ts) == [] <==> forall k | 0 <= k < |ts| :: !Open(ts[k])
    decreases |ts|
  {
    if ts != [] {
      StackNone(ts[..|ts| - 1]);
    }
  }

  /** The last open token is what closes. */
  lemma {:induction false} StackClose(ts: seq<Token>, i: nat, t: Token)
    requires i < |ts| && Open(ts[i]) && !Open(t) && forall k | i < k < |ts| :: !Open(ts[k])
    ensures Stack(ts) != [] && Stack(ts)[|Stack(ts)| - 1] == ts[i].kind && Stack(ts[i := t]) == Stack(ts)[..|Stack(ts)| - 1]
    decreases |ts|
  {
    var n := |ts| - 1;
    if i == n {
      assert ts[i := t][..n] == ts[..n];
    } else {
      StackClose(ts[..n], i, t);
      assert ts[i := t][..n] == ts[..n][i := t];
    }
  }

  lemma {:induction false} StackSize(ts: seq<Token>, i: nat, t: Token)
    requires i < |ts| && Open(t) == Open(ts[i]) && t.kind == ts[i].kind
    ensures Stack(ts[i := t]) == Stack(ts)
    decreases |ts|
  {
    var n := |ts| - 1;
    if i == n {
      assert ts[i := t][..n] == ts[..n];
    } else {
      StackSize(ts[..n], i, t);
      assert ts[i := t][..n] == ts[..n][i := t];
    }
  }

  // ---- which bracket closes which token ----

  /** How many tokens from the k-th on are open. */
  function OpenFrom(ts: seq<Token>, k: nat): (n: nat)
    ensures k < |ts| && Open(ts[k]) ==> n > 0
  {
    if |ts| <= k then 0
    else OpenFrom(ts[..|ts| - 1], k) + (if Open(ts[|ts| - 1]) then 1 else 0)
  }

  lemma OpenMore(ts: seq<Token>, t: Token, k: nat)
    requires k <= |ts|
    ensures OpenFrom(ts + [t], k) == OpenFrom(ts, k) + (if Open(t) then 1 else 0)
  {
    assert (ts + [t])[..|ts|] == ts;
  }

  lemma {:induction false} OpenClose(ts: seq<Token>, i: nat, t: Token, k: nat)
    requires i < |ts| && k <= i
    ensures OpenFrom(ts[i := t], k) + (if Open(ts[i]) then 1 else 0) == OpenFrom(ts, k) + (if Open(t) then 1 else 0)
    decreases |ts|
  {
    var n := |ts| - 1;
    if i == n {
      assert ts[i := t][..n] == ts[..n];
    } else {
      OpenClose(ts[..n], i, t, k);
      assert ts[i := t][..n] == ts[..n][i := t];
    }
  }

  /** With none open after it, the i-th is the only one from there on. */
  lemma {:induction false} OpenLast(ts: seq<Token>, i: nat)
    requires i < |ts| && Open(ts[i]) && forall k | i < k < |ts| :: !Open(ts[k])
    ensures OpenFrom(ts, i) == 1
    decreases |ts|
  {
    var n := |ts| - 1;
    if i < n { OpenLast(ts[..n], i); }
  }

  lemma {:induction false} OpenSize(ts: seq<Token>, i: nat, t: Token, k: nat)
    requires i < |ts| && Open(t) == Open(ts[i])
    ensures OpenFrom(ts[i := t], k) == OpenFrom(ts, k)
    decreases |ts|
  {
    if k < |ts| {
      var n := |ts| - 1;
      if i == n {
        assert ts[i := t][..n] == ts[..n];
      } else {
        OpenSize(ts[..n], i, t, k);
        assert ts[i := t][..n] == ts[..n][i := t];
      }
    }
  }

  /** What will close the k-th token, if it is open, is what closes as many
      brackets as are open from it on. */
  predicate Awaits(js: seq<byte>, ts: seq<Token>, pos: nat, k: nat)
    requires k < |ts|
  {
    Open(ts[k]) ==> 0 <= ts[k].start && ClosedAt(js, ts[k].start + 1, 1) == ClosedAt(js, pos, OpenFrom(ts, k))
  }

  predicate AllAwait(js: seq<byte>, ts: seq<Token>, pos: nat) {
    forall k | 0 <= k < |ts| :: Awaits(js, ts, pos, k)
  }

  lemma AwaitToken(js: seq<byte>, ts: seq<Token>, pos: nat, t: Token)
    requires AllAwait(js, ts, pos) && !AtEnd(js, pos) && Counts(js[pos]) && Lexeme(js, pos).Upto?
    requires if js[pos] == 123 || js[pos] == 91 then Open(t) && t.start == pos else !Open(t)
    ensures AllAwait(js, ts + [t], Lexeme(js, pos).end)
  {
    hide StringEnd, PrimitiveEnd;
    forall k | 0 <= k < |ts| + 1 ensures Awaits(js, ts + [t], Lexeme(js, pos).end, k) {
      OpenMore(ts, t, k);
      if k < |ts| {
        assert Awaits(js, ts, pos, k);
      } else {
        assert OpenFrom(ts, k) == 0;
      }
    }
  }

  lemma AwaitPast(js: seq<byte>, ts: seq<Token>, pos: nat)
    requires AllAwait(js, ts, pos) && !AtEnd(js, pos) && (Blank(js[pos]) || js[pos] == 58 || js[pos] == 44)
    ensures AllAwait(js, ts, pos + 1)
  {
    var next := pos + 1;
    forall k | 0 <= k < |ts| ensures Awaits(js, ts, next, k) {
      assert Awaits(js, ts, pos, k);
    }
  }

  lemma AwaitClose(js: seq<byte>, ts: seq<Token>, pos: nat, i: nat, t: Token)
    requires AllAwait(js, ts, pos) && !AtEnd(js, pos) && (js[pos] == 125 || js[pos] == 93)
    requires i < |ts| && Open(ts[i]) && !Open(t) && (forall k | i < k < |ts| :: !Open(ts[k]))
    ensures AllAwait(js, ts[i := t], pos + 1)
    ensures 0 <= ts[i].start && ClosedAt(js, ts[i].start + 1, 1) == Some(pos + 1)
  {
    assert Awaits(js, ts, pos, i);
    OpenLast(ts, i);
    var us, next := ts[i := t], pos + 1;
    forall k | 0 <= k < |us| ensures Awaits(js, us, next, k) {
      if k < i {
        assert Awaits(js, ts, pos, k);
        OpenClose(ts, i, t, k);
      }
    }
  }

  lemma AwaitSize(js: seq<byte>, ts: seq<Token>, pos: nat, i: nat, t: Token)
    requires AllAwait(js, ts, pos) && i < |ts| && t.start == ts[i].start && t.end == ts[i].end
    ensures AllAwait(js, ts[i := t], pos)
  {
    var us := ts[i := t];
    forall k | 0 <= k < |us| ensures Awaits(js, us, pos, k) {
      assert Awaits(js, ts, pos, k);
      OpenSize(ts, i, t, k);
    }
  }

  // ---- whose child each token is ----

  predicate Container(kind: Type) {
    kind == Object || kind == Array
  }

  /** Where reading stands in the text: the kinds of the tokens so far, which of
      them are open, outermost first, and which the next is a child of, or -1. */
  datatype Place = Place(kinds: seq<Type>, unclosed: seq<nat>, above: int)

  function Innermost(unclosed: seq<nat>): int {
    if unclosed == [] then -1 else unclosed[|unclosed| - 1]
  }

  /** Past what stands at p. A bracket opened takes what follows; one closed gives
      back to the one around it; a colon gives what follows to the token before
      it; and a comma gives back to the innermost bracket what a colon took. */
  function PlaceAfter(js: seq<byte>, p: nat, w: Place): Place
    requires !AtEnd(js, p)
  {
    var c, n := js[p], |w.kinds|;
    if c == 123 || c == 91 then Place(w.kinds + [Bracket(c)], w.unclosed + [n], n)
    else if c == 125 || c == 93 then
      var left := if w.unclosed == [] then [] else w.unclosed[..|w.unclosed| - 1];
      w.(unclosed := left, above := Innermost(left))
    else if c == 58 then w.(above := n - 1)
    else if c == 44 then
      if 0 <= w.above < n && !Container(w.kinds[w.above]) && w.unclosed != [] then w.(above := Innermost(w.unclosed)) else w
    else if Blank(c) then w
    else w.(kinds := w.kinds + [if c == QUOTE then Text else Primitive])
  }

  /** For each token of the text from p on, the token it is a child of, or -1. */
  function ParentsFrom(js: seq<byte>, p: nat, w: Place): seq<int>
    decreases |js| - p
  {
    if AtEnd(js, p) || Lexeme(js, p).Bad? then []
    else (if Counts(js[p]) then [w.above] else []) + ParentsFrom(js, Lexeme(js, p).end, PlaceAfter(js, p, w))
  }

  function Parents(js: seq<byte>): seq<int> {
    ParentsFrom(js, 0, Place([], [], -1))
  }

  /** How often x is among them. */
  function Times(s: seq<int>, x: int): nat {
    if s == [] then 0 else Times(s[..|s| - 1], x) + (if s[|s| - 1] == x then 1 else 0)
  }

  lemma TimesMore(s: seq<int>, y: int, x: int)
    ensures Times(s + [y], x) == Times(s, x) + (if y == x then 1 else 0)
  {
    assert (s + [y])[..|s|] == s;
  }

  lemma {:induction false} TimesNone(s: seq<int>, x: int)
    requires forall k | 0 <= k < |s| :: s[k] != x
    ensures Times(s, x) == 0
  {
    if s != [] { TimesNone(s[..|s| - 1], x); }
  }

  function Kinds(ts: seq<Token>): (r: seq<Type>) {
    seq(|ts|, k requires 0 <= k < |ts| => ts[k].kind)
  }

  function OpenOnes(ts: seq<Token>): (r: seq<nat>)
    ensures forall k | 0 <= k < |r| :: r[k] < |ts|
  {
    if ts == [] then []
    else OpenOnes(ts[..|ts| - 1]) + (if Open(ts[|ts| - 1]) then [|ts| - 1] else [])
  }

  lemma OnesMore(ts: seq<Token>, t: Token)
    ensures OpenOnes(ts + [t]) == OpenOnes(ts) + (if Open(t) then [|ts|] else [])
  {
    assert (ts + [t])[..|ts|] == ts;
  }

  lemma {:induction false} OnesSize(ts: seq<Token>, i: nat, t: Token)
    requires i < |ts| && Open(t) == Open(ts[i])
    ensures OpenOnes(ts[i := t]) == OpenOnes(ts)
    decreases |ts|
  {
    var n := |ts| - 1;
    if i == n {
      assert ts[i := t][..n] == ts[..n];
    } else {
      OnesSize(ts[..n], i, t);
      assert ts[i := t][..n] == ts[..n][i := t];
    }
  }

  /** The last open token is the innermost, and goes first. */
  lemma {:induction false} OnesClose(ts: seq<Token>, i: nat, t: Token)
    requires i < |ts| && Open(ts[i]) && !Open(t) && forall k | i < k < |ts| :: !Open(ts[k])
    ensures OpenOnes(ts) != [] && Innermost(OpenOnes(ts)) == i && OpenOnes(ts[i := t]) == OpenOnes(ts)[..|OpenOnes(ts)| - 1]
    decreases |ts|
  {
    var n := |ts| - 1;
    if i == n {
      assert ts[i := t][..n] == ts[..n];
    } else {
      OnesClose(ts[..n], i, t);
      assert ts[i := t][..n] == ts[..n][i := t];
    }
  }

  lemma {:induction false} OnesNone(ts: seq<Token>)
    requires forall k | 0 <= k < |ts| :: !Open(ts[k])
    ensures OpenOnes(ts) == []
    decreases |ts|
  {
    if ts != [] { OnesNone(ts[..|ts| - 1]); }
  }

  lemma InnermostIs(ts: seq<Token>, i: int)
    requires -1 <= i < |ts| && (i >= 0 ==> Open(ts[i])) && forall k | i < k < |ts| :: !Open(ts[k])
    ensures Innermost(OpenOnes(ts)) == i && (OpenOnes(ts) == [] <==> i == -1)
  {
    if i == -1 { OnesNone(ts); } else { OnesClose(ts, i, NO_TOKEN); }
  }

  function PlaceOf(ts: seq<Token>, above: int): Place {
    Place(Kinds(ts), OpenOnes(ts), above)
  }

  /** The tokens made have the children the text so far gives them, and what is
      to come will be whose the text says. */
  predicate Sized(js: seq<byte>, ts: seq<Token>, pos: nat, above: int) {
    var ps, n := Parents(js), |ts|;
    && n <= |ps| && ps[n..] == ParentsFrom(js, pos, PlaceOf(ts, above)) && -1 <= above < n
    && (forall j | 0 <= j < n :: ps[j] < n) && (forall k | 0 <= k < n && Open(ts[k]) :: Container(ts[k].kind))
    && forall k | 0 <= k < n :: ts[k].size == Times(ps[..n], k)
  }

  lemma SizedStart(js: seq<byte>)
    ensures Sized(js, [], 0, -1)
  {
    assert Kinds([]) == [];
    assert Parents(js)[0..] == Parents(js);
  }

  /** One more token, counted where it belongs. */
  function WithChild(ts: seq<Token>, t: Token, above: int): seq<Token>
    requires -1 <= above < |ts|
  {
    var us := ts + [t];
    if above == -1 then us else us[above := us[above].(size := us[above].size + 1)]
  }

  lemma ChildIs(ts: seq<Token>, t: Token, above: int)
    requires -1 <= above < |ts|
    ensures var us := WithChild(ts, t, above);
            && |us| == |ts| + 1 && us[|ts|] == t && Kinds(us) == Kinds(ts) + [t.kind]
            && OpenOnes(us) == OpenOnes(ts) + (if Open(t) then [|ts|] else [])
            && (forall k | 0 <= k < |ts| :: us[k] == ts[k].(size := ts[k].size + if k == above then 1 else 0))
  {
    OnesMore(ts, t);
    if above != -1 {
      var us := ts + [t];
      OnesSize(us, above, us[above].(size := us[above].size + 1));
    }
    assert Kinds(WithChild(ts, t, above)) == Kinds(ts) + [t.kind];
  }

  lemma SizedToken(js: seq<byte>, ts: seq<Token>, pos: nat, above: int, t: Token)
    requires Sized(js, ts, pos, above) && !AtEnd(js, pos) && Counts(js[pos]) && Lexeme(js, pos).Upto?
    requires t.kind == HeadAt(js, pos).0 && t.size == 0 && (Open(t) <==> js[pos] == 123 || js[pos] == 91)
    ensures var opens := js[pos] == 123 || js[pos] == 91;
            Sized(js, WithChild(ts, t, above), Lexeme(js, pos).end, if opens then |ts| else above)
  {
    hide Lexeme, OpenOnes, Kinds, WithChild;
    var ps, n := Parents(js), |ts|;
    var us := WithChild(ts, t, above);
    ChildIs(ts, t, above);
    var w := PlaceOf(ts, above);
    assert ps[n..] == [above] + ParentsFrom(js, Lexeme(js, pos).end, PlaceAfter(js, pos, w));
    assert ps[n] == ps[n..][0] && ps[n + 1..] == ps[n..][1..] && ps[..n + 1] == ps[..n] + [above];
    assert PlaceAfter(js, pos, w) == PlaceOf(us, if js[pos] == 123 || js[pos] == 91 then n else above) by { NewPlace(js, ts, pos, above, t); }
    forall k | 0 <= k <= n ensures us[k].size == Times(ps[..n + 1], k) {
      TimesMore(ps[..n], above, k);
      if k == n { TimesNone(ps[..n], n); }
    }
  }

  lemma NewPlace(js: seq<byte>, ts: seq<Token>, pos: nat, above: int, t: Token)
    requires -1 <= above < |ts| && !AtEnd(js, pos) && Counts(js[pos])
    requires t.kind == HeadAt(js, pos).0 && (Open(t) <==> js[pos] == 123 || js[pos] == 91)
    ensures PlaceAfter(js, pos, PlaceOf(ts, above)) == PlaceOf(WithChild(ts, t, above), if js[pos] == 123 || js[pos] == 91 then |ts| else above)
  {
    hide WithChild, OpenOnes;
    ChildIs(ts, t, above);
    assert OpenOnes(ts) + [] == OpenOnes(ts);
  }

  /** A character that is no token: the same tokens, another one above perhaps. */
  lemma SizedPast(js: seq<byte>, ts: seq<Token>, pos: nat, above: int, us: seq<Token>, above': int)
    requires Sized(js, ts, pos, above) && !AtEnd(js, pos) && OneChar(js[pos]) && !Counts(js[pos])
    requires |us| == |ts| && -1 <= above' < |us| && PlaceAfter(js, pos, PlaceOf(ts, above)) == PlaceOf(us, above')
    requires forall k | 0 <= k < |ts| :: us[k].size == ts[k].size && (Open(us[k]) ==> Open(ts[k]) && us[k].kind == ts[k].kind)
    ensures Sized(js, us, pos + 1, above')
  {
    hide OpenOnes, Kinds, PlaceAfter, StringEnd, PrimitiveEnd;
  }

  lemma SizedClose(js: seq<byte>, ts: seq<Token>, pos: nat, above: int, i: nat, us: seq<Token>, above': int)
    requires Sized(js, ts, pos, above) && !AtEnd(js, pos) && (js[pos] == 125 || js[pos] == 93)
    requires i < |ts| && Open(ts[i]) && (forall k | i < k < |ts| :: !Open(ts[k]))
    requires us == ts[i := ts[i].(end := pos + 1)] && LastIs(us[..i + 1], above')
    ensures Sized(js, us, pos + 1, above')
  {
    hide OpenOnes, PlaceAfter;
    OnesClose(ts, i, us[i]);
    forall k | 0 <= k <= i ensures us[k] == us[..i + 1][k] {
    }
    InnermostIs(us, above');
    assert Kinds(us) == Kinds(ts);
    assert PlaceAfter(js, pos, PlaceOf(ts, above)) == PlaceOf(us, above') by { ClosedPlace(js, pos, PlaceOf(ts, above)); }
    SizedPast(js, ts, pos, above, us, above');
  }

  lemma ClosedPlace(js: seq<byte>, pos: nat, w: Place)
    requires !AtEnd(js, pos) && (js[pos] == 125 || js[pos] == 93) && w.unclosed != []
    ensures var left := w.unclosed[..|w.unclosed| - 1]; PlaceAfter(js, pos, w) == Place(w.kinds, left, Innermost(left))
  {
  }

  /** What a comma leaves above: the innermost bracket, if something else was. */
  function AfterComma(ts: seq<Token>, above: int): int
    requires -1 <= above < |ts|
  {
    if above == -1 || Container(ts[above].kind) || OpenOnes(ts) == [] then above else Innermost(OpenOnes(ts))
  }

  predicate LastIs(ts: seq<Token>, i: int) {
    -1 <= i < |ts| && (i >= 0 ==> Open(ts[i])) && forall k | i < k < |ts| :: !Open(ts[k])
  }

  lemma SizedComma(js: seq<byte>, ts: seq<Token>, pos: nat, above: int)
    requires Sized(js, ts, pos, above) && !AtEnd(js, pos) && js[pos] == 44
    ensures Sized(js, ts, pos + 1, AfterComma(ts, above))
  {
    hide OpenOnes, Parents, ParentsFrom;
    SizedPast(js, ts, pos, above, ts, AfterComma(ts, above));
  }

  lemma SizedRange(js: seq<byte>, ts: seq<Token>, pos: nat, above: int)
    requires Sized(js, ts, pos, above)
    ensures -1 <= above < |ts| && forall k | 0 <= k < |ts| && Open(ts[k]) :: Container(ts[k].kind)
  {
  }

  lemma SizedOther(js: seq<byte>, ts: seq<Token>, pos: nat, above: int)
    requires Sized(js, ts, pos, above) && !AtEnd(js, pos) && (Blank(js[pos]) || js[pos] == 58)
    ensures Sized(js, ts, pos + 1, if js[pos] == 58 then |ts| - 1 else above)
  {
    hide OpenOnes, Parents, ParentsFrom;
    SizedPast(js, ts, pos, above, ts, if js[pos] == 58 then |ts| - 1 else above);
  }

  /** Each token's size is how many of the text's tokens are its children. */
  predicate SizesRight(js: seq<byte>, ts: seq<Token>) {
    |Parents(js)| == |ts| && forall k | 0 <= k < |ts| :: ts[k].size == Times(Parents(js), k)
  }

  lemma SizedEnd(js: seq<byte>, ts: seq<Token>, pos: nat, above: int)
    requires Sized(js, ts, pos, above) && AtEnd(js, pos)
    ensures SizesRight(js, ts)
  {
    assert Parents(js)[..|ts|] == Parents(js);
  }

  /** What a parser knows between two characters of the text. */
  ghost predicate Stands(js: seq<byte>, ts: seq<Token>, pos: nat, above: int) {
    Reached(js, ts, pos) && Sized(js, ts, pos, above)
  }

  // ---- where a parse stands ----

  /** With these tokens made and `pos` reached: they nest, they are the tokens
      the text so far has, and what is open is what the text has open. */
  ghost predicate Reached(js: seq<byte>, ts: seq<Token>, pos: nat) {
    && pos <= |js| && Nested(ts, pos)
    && CountFrom(js, 0) == (if CountFrom(js, pos) < 0 then CountFrom(js, pos) else |ts| + CountFrom(js, pos))
    && Matches(js, 0, []) == Matches(js, pos, Stack(ts))
    && HeadsFrom(js, 0) == Heads(ts) + HeadsFrom(js, pos) && (forall k | 0 <= k < |ts| :: EndsRight(js, ts[k]))
    && AllAwait(js, ts, pos)
  }

  lemma ReachedStart(js: seq<byte>)
    ensures Reached(js, [], 0)
  {
    assert Heads([]) == [];
  }

  lemma HeadsMore(js: seq<byte>, ts: seq<Token>, pos: nat, t: Token)
    requires !AtEnd(js, pos) && Counts(js[pos]) && Lexeme(js, pos).Upto? && (t.kind, t.start) == HeadAt(js, pos)
    ensures Heads(ts) + HeadsFrom(js, pos) == Heads(ts + [t]) + HeadsFrom(js, Lexeme(js, pos).end)
  {
    hide Lexeme, HeadAt, Counts;
    assert Heads(ts + [t]) == Heads(ts) + [HeadAt(js, pos)];
  }

  lemma EndedRight(js: seq<byte>, pos: nat, t: Token)
    requires !AtEnd(js, pos) && Counts(js[pos]) && Lexeme(js, pos).Upto? && (t.kind, t.start) == HeadAt(js, pos)
    requires var q := Lexeme(js, pos).end;
             t.end == if js[pos] == 123 || js[pos] == 91 then -1 else if js[pos] == QUOTE then q - 1 else q
    ensures EndsRight(js, t)
  {
    hide StringEnd, PrimitiveEnd;
  }

  /** A bracket opened, or a string or primitive read. */
  lemma ReachedToken(js: seq<byte>, ts: seq<Token>, pos: nat, t: Token)
    requires Reached(js, ts, pos) && !AtEnd(js, pos) && Counts(js[pos]) && Lexeme(js, pos).Upto?
    requires (t.kind, t.start) == HeadAt(js, pos)
    requires var q := Lexeme(js, pos).end;
             t.end == if js[pos] == 123 || js[pos] == 91 then -1 else if js[pos] == QUOTE then q - 1 else q
    ensures Reached(js, ts + [t], Lexeme(js, pos).end)
  {
    hide Heads, HeadsFrom, EndsRight, StringEnd, PrimitiveEnd, AllAwait;
    var q := Lexeme(js, pos).end;
    NestedMore(ts, pos, t, q);
    StackMore(ts, t);
    assert Stack(ts) + [] == Stack(ts);
    HeadsMore(js, ts, pos, t);
    EndedRight(js, pos, t);
    AwaitToken(js, ts, pos, t);
  }

  /** A blank, a colon or a comma passed. */
  lemma ReachedPast(js: seq<byte>, ts: seq<Token>, pos: nat)
    requires Reached(js, ts, pos) && !AtEnd(js, pos) && (Blank(js[pos]) || js[pos] == 58 || js[pos] == 44)
    ensures Reached(js, ts, pos + 1)
  {
    hide AllAwait, EndsRight;
    NestedOn(ts, pos, pos + 1);
    AwaitPast(js, ts, pos);
    assert HeadsFrom(js, pos) == HeadsFrom(js, pos + 1);
  }

  lemma ReachedClose(js: seq<byte>, ts: seq<Token>, pos: nat, i: nat, t: Token)
    requires Reached(js, ts, pos) && !AtEnd(js, pos) && (js[pos] == 125 || js[pos] == 93)
    requires i < |ts| && Open(ts[i]) && (forall k | i < k < |ts| :: !Open(ts[k]))
    requires ts[i].kind == Bracket(js[pos]) && t == ts[i].(end := pos + 1)
    ensures Reached(js, ts[i := t], pos + 1)
  {
    hide AllAwait, ClosedAt, StringEnd, PrimitiveEnd;
    NestedClose(ts, pos, i, t);
    StackClose(ts, i, t);
    AwaitClose(js, ts, pos, i, t);
    assert InText(ts[i], pos);
    assert Heads(ts[i := t]) == Heads(ts) && HeadsFrom(js, pos) == HeadsFrom(js, pos + 1);
  }

  lemma ReachedSize(js: seq<byte>, ts: seq<Token>, pos: nat, i: nat)
    requires Reached(js, ts, pos) && i < |ts|
    ensures Reached(js, ts[i := ts[i].(size := ts[i].size + 1)], pos)
  {
    hide AllAwait, ClosedAt, StringEnd, PrimitiveEnd, Lexeme;
    NestedSize(ts, pos, i);
    AwaitSize(js, ts, pos, i, ts[i].(size := ts[i].size + 1));
    StackSize(ts, i, ts[i].(size := ts[i].size + 1));
    assert Heads(ts[i := ts[i].(size := ts[i].size + 1)]) == Heads(ts);
  }

  /** A closing bracket that matches nothing open, or the wrong thing. */
  lemma Mismatched(js: seq<byte>, ts: seq<Token>, pos: nat, i: int)
    requires Reached(js, ts, pos) && !AtEnd(js, pos) && (js[pos] == 125 || js[pos] == 93)
    requires -1 <= i < |ts| && (forall k | i < k < |ts| :: !Open(ts[k])) && (i >= 0 ==> Open(ts[i]) && ts[i].kind != Bracket(js[pos]))
    ensures !Matches(js, 0, [])
  {
    if i == -1 {
      StackNone(ts);
    } else {
      StackClose(ts, i, ts[i].(end := 0));
    }
  }

  /** What the text and the array allow. */
  predicate Parses(js: seq<byte>, room: nat) {
    0 <= CountFrom(js, 0) <= room && Matches(js, 0, [])
  }

  lemma NoRoomLeft(js: seq<byte>, ts: seq<Token>, pos: nat, room: nat)
    requires Reached(js, ts, pos) && !AtEnd(js, pos) && Counts(js[pos]) && |ts| == room
    ensures !Parses(js, room)
  {
  }

  lemma BadLexeme(js: seq<byte>, ts: seq<Token>, pos: nat, room: nat)
    requires Reached(js, ts, pos) && !AtEnd(js, pos) && Lexeme(js, pos).Bad?
    ensures !Parses(js, room)
  {
  }

  // ---- the parser ----

  class Parser {
    var pos: nat
    var toknext: nat
    /** The token new ones are children of, or -1. */
    var toksuper: int

    /** jsmn_init */
    constructor ()
      ensures pos == 0 && toknext == 0 && toksuper == -1
    {
      pos, toknext, toksuper := 0, 0, -1;
    }

    /** The hexadecimal digits of an escape. */
    static method PassHex(js: seq<byte>, p: nat) returns (q: Option<nat>)
      ensures q == HexEnd(js, p, 4)
    {
      var at: nat, i := p, 0;
      while i < 4 && at < |js| && js[at] != 0
        invariant 0 <= i <= 4 && HexEnd(js, p, 4) == HexEnd(js, at, 4 - i)
      {
        if !Hex(js[at]) { return None; }
        at, i := at + 1, i + 1;
      }
      return Some(at);
    }

    /** jsmn_parse_string up to its closing quote, which `pos` is left at. */
    method PassString(js: seq<byte>) returns (r: int)
      requires !AtEnd(js, pos) && js[pos] == QUOTE
      modifies `pos
      ensures match StringEnd(js, old(pos) + 1)
              case Bad(e) => r == e && pos == old(pos)
              case Upto(q) => r == 0 && pos == q
    {
      var start := pos;
      pos := pos + 1;
      while pos < |js| && js[pos] != 0
        invariant pos <= |js| && StringEnd(js, start + 1) == StringEnd(js, pos)
        decreases |js| - pos
      {
        var c := js[pos];
        if c == QUOTE { return 0; }
        if c == BACKSLASH && pos + 1 < |js| {
          if Escape(js[pos + 1]) {
            pos := pos + 2;
          } else if js[pos + 1] == 117 {
            var q := PassHex(js, pos + 2);
            if q == None { pos := start; return BAD_TEXT; }
            pos := q.value;
          } else {
            pos := start;
            return BAD_TEXT;
          }
        } else {
          pos := pos + 1;
        }
      }
      pos := start;
      return CUT_SHORT;
    }

    /** jsmn_parse_primitive up to its end, one before which `pos` is left. */
    method PassPrimitive(js: seq<byte>) returns (r: int, end: nat)
      requires !AtEnd(js, pos) && !OneChar(js[pos]) && js[pos] != QUOTE
      modifies `pos
      ensures match Lexeme(js, old(pos))
              case Bad(e) => r == e && pos == old(pos)
              case Upto(q) => r == 0 && end == q && pos + 1 == q
    {
      var start := pos;
      while pos < |js| && js[pos] != 0 && !EndsPrimitive(js[pos])
        invariant start <= pos <= |js| && PrimitiveEnd(js, start) == PrimitiveEnd(js, pos)
      {
        if js[pos] < 32 || js[pos] >= 127 {
          pos := start;
          return BAD_TEXT, start;
        }
        pos := pos + 1;
      }
      end := pos;
      pos := pos - 1;
      return 0, end;
    }

    /** The pass with no token array: what the array would have to hold. */
    method Count(js: seq<byte>) returns (r: int)
      requires pos == 0 && toknext == 0 && toksuper == -1
      modifies `pos
      ensures r == CountFrom(js, 0)
    {
      r := 0;
      while pos < |js| && js[pos] != 0
        invariant pos <= |js| && r >= 0
        invariant CountFrom(js, 0) == if CountFrom(js, pos) < 0 then CountFrom(js, pos) else r + CountFrom(js, pos)
        decreases |js| - pos
      {
        var c := js[pos];
        if c == 123 || c == 91 {
          r := r + 1;
        } else if c == QUOTE {
          var e := PassString(js);
          if e < 0 { return e; }
          r := r + 1;
        } else if !OneChar(c) {
          var e, _ := PassPrimitive(js);
          if e < 0 { return e; }
          r := r + 1;
        }
        pos := pos + 1;
      }
    }

    /** jsmn_alloc_token and the token filled in. */
    method Put(tokens: array<Token>, t: Token) returns (ok: bool)
      requires toknext <= tokens.Length
      modifies `toknext, tokens
      ensures ok == (old(toknext) < tokens.Length)
      ensures if ok then toknext == old(toknext) + 1 && tokens[..toknext] == old(tokens[..toknext]) + [t]
              else toknext == old(toknext) && tokens[..] == old(tokens[..])
    {
      if toknext >= tokens.Length { return false; }
      tokens[toknext] := t;
      toknext := toknext + 1;
      return true;
    }

    /** One more child for the token above. */
    method Grow(tokens: array<Token>, n: nat)
      requires n <= toknext <= tokens.Length && -1 <= toksuper < n
      modifies tokens
      ensures tokens[..toknext] == if toksuper == -1 then old(tokens[..toknext])
                                   else old(tokens[..toknext])[toksuper := old(tokens[toksuper]).(size := old(tokens[toksuper]).size + 1)]
    {
      if toksuper != -1 {
        tokens[toksuper] := tokens[toksuper].(size := tokens[toksuper].size + 1);
      }
    }

    /** The last open token below n, -1 for none. */
    method LastOpen(tokens: array<Token>, n: nat) returns (i: int)
      requires n <= tokens.Length
      ensures -1 <= i < n && (i >= 0 ==> Open(tokens[i])) && forall k | i < k < n :: !Open(tokens[k])
    {
      i := n - 1;
      while i >= 0 && !Open(tokens[i])
        invariant -1 <= i < n && forall k | i < k < n :: !Open(tokens[k])
      {
        i := i - 1;
      }
    }

    /** An opening bracket. */
    method OpenOne(js: seq<byte>, tokens: array<Token>) returns (r: int)
      requires toknext <= tokens.Length && Stands(js, tokens[..toknext], pos, toksuper)
      requires !AtEnd(js, pos) && (js[pos] == 123 || js[pos] == 91)
      modifies `toknext, `toksuper, tokens
      ensures toknext <= tokens.Length
      ensures if r < 0 then r == NO_ROOM && !Parses(js, tokens.Length) else Stands(js, tokens[..toknext], pos + 1, toksuper)
    {
      hide Reached, Sized, Parses, Matches, CountFrom, Nested, Stack, Heads, HeadsFrom;
      ghost var ts := tokens[..toknext];
      SizedRange(js, ts, pos, toksuper);
      var t := Token(Bracket(js[pos]), pos, -1, 0);
      var ok := Put(tokens, t);
      if !ok {
        NoRoomLeft(js, ts, pos, tokens.Length);
        return NO_ROOM;
      }
      ReachedToken(js, ts, pos, t);
      if toksuper != -1 { ReachedSize(js, ts + [t], pos + 1, toksuper); }
      SizedToken(js, ts, pos, toksuper, t);
      Grow(tokens, toknext - 1);
      assert tokens[..toknext] == WithChild(ts, t, toksuper);
      toksuper := toknext - 1;
      return 0;
    }

    /** A closing bracket: for the last token still open, if that is its kind. */
    method CloseOne(js: seq<byte>, tokens: array<Token>) returns (r: int)
      requires toknext <= tokens.Length && Stands(js, tokens[..toknext], pos, toksuper)
      requires !AtEnd(js, pos) && (js[pos] == 125 || js[pos] == 93)
      modifies `toksuper, tokens
      ensures if r < 0 then r == BAD_TEXT && !Parses(js, tokens.Length) else Stands(js, tokens[..toknext], pos + 1, toksuper)
    {
      hide Reached, Sized, Matches, CountFrom, Nested, Stack, Heads, HeadsFrom;
      ghost var ts := tokens[..toknext];
      var i := LastOpen(tokens, toknext);
      if i == -1 || tokens[i].kind != Bracket(js[pos]) {
        Mismatched(js, ts, pos, i);
        return BAD_TEXT;
      }
      var t := tokens[i].(end := pos + 1);
      ReachedClose(js, ts, pos, i, t);
      tokens[i] := t;
      assert tokens[..toknext] == ts[i := t];
      ghost var above := toksuper;
      toksuper := LastOpen(tokens, i + 1);
      assert ts[i := t][..i + 1] == tokens[..i + 1];
      SizedClose(js, ts, pos, above, i, ts[i := t], toksuper);
      return 0;
    }

    /** A string or a primitive, which `pos` is left at the end of. */
    method TextOne(js: seq<byte>, tokens: array<Token>) returns (r: int)
      requires toknext <= tokens.Length && Stands(js, tokens[..toknext], pos, toksuper)
      requires !AtEnd(js, pos) && !OneChar(js[pos])
      modifies `pos, `toknext, tokens
      ensures toknext <= tokens.Length
      ensures if r < 0 then r in {NO_ROOM, BAD_TEXT, CUT_SHORT} && !Parses(js, tokens.Length)
              else old(pos) <= pos < |js| && Stands(js, tokens[..toknext], pos + 1, toksuper)
    {
      hide Reached, Sized, Parses, Matches, CountFrom, Nested, Stack, Heads, HeadsFrom, StringEnd, PrimitiveEnd;
      ghost var ts := tokens[..toknext];
      SizedRange(js, ts, pos, toksuper);
      var start := pos;
      var t := NO_TOKEN;
      if js[pos] == QUOTE {
        r := PassString(js);
        t := Token(Text, start + 1, pos, 0);
      } else {
        var end;
        r, end := PassPrimitive(js);
        t := Token(Primitive, start, end, 0);
      }
      if r < 0 {
        ErrorKinds(js, start);
        BadLexeme(js, ts, start, tokens.Length);
        return;
      }
      var ok := Put(tokens, t);
      if !ok {
        NoRoomLeft(js, ts, start, tokens.Length);
        pos := start;
        return NO_ROOM;
      }
      ReachedToken(js, ts, start, t);
      if toksuper != -1 { ReachedSize(js, ts + [t], pos + 1, toksuper); }
      SizedToken(js, ts, start, toksuper, t);
      Grow(tokens, toknext - 1);
      assert tokens[..toknext] == WithChild(ts, t, toksuper);
    }

    /** A comma: back to the container, from a key's value. */
    method Comma(tokens: array<Token>)
      requires toknext <= tokens.Length && -1 <= toksuper < toknext
      requires forall k | 0 <= k < toknext && Open(tokens[k]) :: Container(tokens[k].kind)
      modifies `toksuper
      ensures toksuper == AfterComma(tokens[..toknext], old(toksuper))
    {
      if toksuper != -1 && tokens[toksuper].kind != Array && tokens[toksuper].kind != Object {
        var i := toknext - 1;
        while i >= 0
          invariant -1 <= i < toknext && toksuper == old(toksuper) && forall k | i < k < toknext :: !Open(tokens[k])
        {
          if (tokens[i].kind == Array || tokens[i].kind == Object) && Open(tokens[i]) {
            InnermostIs(tokens[..toknext], i);
            toksuper := i;
            return;
          }
          i := i - 1;
        }
        InnermostIs(tokens[..toknext], -1);
      }
    }

    /** A blank, a colon or a comma. */
    method PassOne(js: seq<byte>, tokens: array<Token>)
      requires toknext <= tokens.Length && Stands(js, tokens[..toknext], pos, toksuper)
      requires !AtEnd(js, pos) && (Blank(js[pos]) || js[pos] == 58 || js[pos] == 44)
      modifies `toksuper
      ensures Stands(js, tokens[..toknext], pos + 1, toksuper)
    {
      hide Reached, Sized, AfterComma;
      ghost var ts, above := tokens[..toknext], toksuper;
      ReachedPast(js, ts, pos);
      SizedRange(js, ts, pos, above);
      if js[pos] == 44 {
        SizedComma(js, ts, pos, above);
        Comma(tokens);
      } else {
        SizedOther(js, ts, pos, above);
        if js[pos] == 58 { toksuper := toknext - 1; }
      }
    }

    /** jsmn_parse from the start of a text. It succeeds exactly when the text
        has no bad character, no unfinished string, no bracket out of place and
        no more tokens than there is room for; and then the answer is the number
        of tokens, the pass that only counts would have said the same, the
        tokens are those of the text, in order and each where it starts and
        ends, and the spans nest. */
    method Parse(js: seq<byte>, tokens: array<Token>) returns (r: int)
      requires pos == 0 && toknext == 0 && toksuper == -1
      modifies this, tokens
      ensures r >= 0 <==> Parses(js, tokens.Length)
      ensures r < 0 ==> r in {NO_ROOM, BAD_TEXT, CUT_SHORT}
      ensures r >= 0 ==> r == toknext == CountFrom(js, 0) && toknext <= tokens.Length && Spans(tokens[..toknext], |js|)
      ensures r >= 0 ==> Heads(tokens[..toknext]) == HeadsFrom(js, 0) && forall k | 0 <= k < toknext :: EndsRight(js, tokens[k])
      ensures r >= 0 ==> SizesRight(js, tokens[..toknext])
    {
      hide Reached, Sized, SizesRight, Matches, CountFrom, Nested, Stack, Spans, Heads, HeadsFrom, EndsRight;
      ReachedStart(js);
      SizedStart(js);
      assert tokens[..0] == [];
      while pos < |js| && js[pos] != 0
        invariant toknext <= tokens.Length && pos <= |js| && Stands(js, tokens[..toknext], pos, toksuper)
        decreases |js| - pos
      {
        var c := js[pos];
        if c == 123 || c == 91 {
          r := OpenOne(js, tokens);
          if r < 0 { return; }
        } else if c == 125 || c == 93 {
          r := CloseOne(js, tokens);
          if r < 0 { return; }
        } else if !OneChar(c) {
          r := TextOne(js, tokens);
          if r < 0 { return; }
        } else {
          PassOne(js, tokens);
        }
        pos := pos + 1;
      }
      var i := LastOpen(tokens, toknext);
      Finished(js, tokens[..toknext], pos);
      SizedEnd(js, tokens[..toknext], pos, toksuper);
      if i >= 0 { return CUT_SHORT; }
      return toknext;
    }
  }

  lemma {:induction false} StringErrors(js: seq<byte>, p: nat)
    ensures StringEnd(js, p).Bad? ==> StringEnd(js, p).error in {BAD_TEXT, CUT_SHORT}
    decreases |js| - p
  {
    if !AtEnd(js, p) && js[p] != QUOTE {
      if js[p] == BACKSLASH && p + 1 < |js| {
        if Escape(js[p + 1]) {
          StringErrors(js, p + 2);
        } else if js[p + 1] == 117 && HexEnd(js, p + 2, 4).Some? {
          StringErrors(js, HexEnd(js, p + 2, 4).value);
        }
      } else {
        StringErrors(js, p + 1);
      }
    }
  }

  lemma {:induction false} PrimitiveErrors(js: seq<byte>, p: nat)
    requires p <= |js|
    ensures PrimitiveEnd(js, p).Bad? ==> PrimitiveEnd(js, p).error == BAD_TEXT
    decreases |js| - p
  {
    if !AtEnd(js, p) && !EndsPrimitive(js[p]) && 32 <= js[p] < 127 { PrimitiveErrors(js, p + 1); }
  }

  lemma ErrorKinds(js: seq<byte>, p: nat)
    requires !AtEnd(js, p)
    ensures Lexeme(js, p).Bad? ==> Lexeme(js, p).error in {BAD_TEXT, CUT_SHORT}
  {
    StringErrors(js, p + 1);
    PrimitiveErrors(js, p + 1);
  }

  lemma Finished(js: seq<byte>, ts: seq<Token>, pos: nat)
    requires Reached(js, ts, pos) && AtEnd(js, pos)
    ensures CountFrom(js, 0) == |ts| && (Matches(js, 0, []) <==> forall k | 0 <= k < |ts| :: !Open(ts[k]))
    ensures (forall k | 0 <= k < |ts| :: !Open(ts[k])) ==> Spans(ts, |js|)
    ensures Heads(ts) == HeadsFrom(js, 0) && forall k | 0 <= k < |ts| :: EndsRight(js, ts[k])
  {
    StackNone(ts);
    if forall k | 0 <= k < |ts| :: !Open(ts[k]) {
      NestedOn(ts, pos, |js|);
      AllClosed(ts, |js|);
    }
  }
}
