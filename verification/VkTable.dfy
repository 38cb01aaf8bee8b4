/** The Vulkan bridge's handle table: what a guest's handle names, over every
    run of makes, destroys and pool resets. */
module VkTable {
  import opened Pages

  // ---- handles ----

  /** Slots are 24 bits of a handle, a slot's generation the next 8, and the
      context's ordinal the rest. */
  const SLOTS: nat := 0x100_0000
  const GENERATIONS: nat := 256
  const PER_CONTEXT: nat := 0x1_0000_0000

  function Handle(ordinal: nat, gen: nat, slot: nat): nat {
    ordinal * PER_CONTEXT + gen * SLOTS + slot
  }

  function SlotOf(id: nat): nat {
    id % SLOTS
  }

  function GenOf(id: nat): nat {
    id / SLOTS % GENERATIONS
  }

  function OrdinalOf(id: nat): nat {
    id / PER_CONTEXT
  }

  lemma HandleParts(ordinal: nat, gen: nat, slot: nat)
    requires gen < GENERATIONS && slot < SLOTS
    ensures var id := Handle(ordinal, gen, slot); SlotOf(id) == slot && GenOf(id) == gen && OrdinalOf(id) == ordinal
  {
    var id := Handle(ordinal, gen, slot);
    assert id == (ordinal * GENERATIONS + gen) * SLOTS + slot;
    assert id / SLOTS == ordinal * GENERATIONS + gen;
  }

  // ---- the table ----

  /** struct entry: `host` is 0 once destroyed; `first` and `next` link a pool's
      children, newest first, 0 ending the list. */
  datatype Entry = Entry(host: nat, kind: nat, parent: nat, first: nat, next: nat, gen: nat)

  /** The table as a value. `ages` says how often each slot was given back, and
      `kids` which children each pool has. */
  datatype Table = Table(entries: seq<Entry>, free: seq<nat>, ordinal: nat, ages: seq<nat>, kids: seq<seq<nat>>)

  const NO_ENTRY: Entry := Entry(0, 0, 0, 0, 0, 0)
  const NEW_TABLE: Table := Table([NO_ENTRY], [], 1, [0], [[]])

  /** vkb_entry: the slot a handle names, if it names a live object of the kind. */
  function Resolve(t: Table, id: nat, kind: nat): (r: Option<nat>)
    ensures r.Some? ==> 0 < r.value < |t.entries| && r.value == SlotOf(id) && t.entries[r.value].host != 0
  {
    var s := SlotOf(id);
    if OrdinalOf(id) != t.ordinal || s == 0 || s >= |t.entries| then None
    else if t.entries[s].gen != GenOf(id) then None
    else if t.entries[s].host != 0 && t.entries[s].kind == kind then Some(s) else None
  }

  function Named(t: Table, slot: nat): nat
    requires slot < |t.entries|
  {
    Handle(t.ordinal, t.entries[slot].gen, slot)
  }

  /** A new object in a slot, linked to its pool. */
  function Seat(t: Table, slot: nat, kind: nat, host: nat, parent: nat): Table
    requires slot < |t.entries| == |t.kids| && parent < |t.entries|
  {
    var e := Entry(host, kind, parent, 0, if parent != 0 then t.entries[parent].first else 0, t.entries[slot].gen);
    var seated := t.(entries := t.entries[slot := e], kids := t.kids[slot := []]);
    if parent == 0 then seated
    else seated.(entries := seated.entries[parent := seated.entries[parent].(first := slot)],
                 kids := seated.kids[parent := [slot] + seated.kids[parent]])
  }

  /** vkb_register: the newest slot given back, or one never used. */
  function Register(t: Table, kind: nat, host: nat, parent: nat): (r: (Table, nat))
    requires |t.entries| == |t.kids| == |t.ages| && parent < |t.entries|
    requires forall k | 0 <= k < |t.free| :: t.free[k] < |t.entries|
  {
    if host == 0 then (t, 0)
    else if t.free != [] then
      var slot := t.free[|t.free| - 1];
      var u := Seat(t.(free := t.free[..|t.free| - 1]), slot, kind, host, parent);
      (u, Named(u, slot))
    else if |t.entries| >= SLOTS then (t, 0)
    else
      var slot := |t.entries|;
      var grown := t.(entries := t.entries + [NO_ENTRY], ages := t.ages + [0], kids := t.kids + [[]]);
      var u := Seat(grown, slot, kind, host, parent);
      (u, Named(u, slot))
  }

  /** A slot given back: the next object there is of another generation. */
  function Retire(t: Table, slot: nat): Table
    requires slot < |t.entries| == |t.ages|
  {
    t.(entries := t.entries[slot := t.entries[slot].(host := 0, gen := (t.entries[slot].gen + 1) % GENERATIONS)],
       free := t.free + [slot], ages := t.ages[slot := t.ages[slot] + 1])
  }

  /** vkb_forget: a child stays on its pool's list until the pool resets. */
  function Forget(t: Table, id: nat, kind: nat): Table
    requires |t.entries| == |t.ages|
  {
    match Resolve(t, id, kind)
    case None => t
    case Some(s) =>
      if t.entries[s].parent == 0 && t.entries[s].first == 0 then Retire(t, s)
      else t.(entries := t.entries[s := t.entries[s].(host := 0)])
  }

  /** One child of a pool that takes it along. */
  function DropKid(t: Table, c: nat): Table
    requires c < |t.entries| == |t.ages|
  {
    Retire(t.(entries := t.entries[c := t.entries[c].(next := 0)]), c)
  }

  function DropAll(t: Table, list: seq<nat>): (r: Table)
    requires |t.entries| == |t.ages| && forall k | 0 <= k < |list| :: list[k] < |t.entries|
    decreases |list|
  {
    if list == [] then t else DropAll(DropKid(t, list[0]), list[1..])
  }

  /** The pool's list taken off it. */
  function Unpooled(t: Table, parent: nat): Table
    requires parent < |t.entries| == |t.kids|
  {
    t.(entries := t.entries[parent := t.entries[parent].(first := 0)], kids := t.kids[parent := []])
  }

  /** vkb_forget_children */
  function ForgetChildren(t: Table, parent: nat): Table
    requires TableOk(t)
  {
    if parent == 0 || parent >= |t.entries| then t
    else
      KidsBound(t, parent);
      DropAll(Unpooled(t, parent), t.kids[parent])
  }

  /** forget_device_entries: everything but what `kept` says stays. */
  function ForgetDevice(t: Table, kept: set<nat>): Table {
    t.(entries := seq(|t.entries|, i requires 0 <= i < |t.entries| =>
                        if i == 0 || t.entries[i].kind in kept then t.entries[i] else t.entries[i].(host := 0)))
  }

  /** destroy_context: the slots start again under another ordinal. */
  function NewContext(t: Table): Table
    requires |t.entries| > 0
  {
    Table(t.entries[..1], [], t.ordinal + 1, [0], [[]])
  }

  // ---- what stays true ----

  /** The list that starts at slot i. */
  predicate Linked(entries: seq<Entry>, i: nat, list: seq<nat>)
    decreases |list|
  {
    if list == [] then i == 0
    else i == list[0] && 0 < i < |entries| && Linked(entries, entries[i].next, list[1..])
  }

  predicate Distinct(list: seq<nat>) {
    forall a, b | 0 <= a < b < |list| :: list[a] != list[b]
  }

  /** A slot waiting to be given out: no object, no children. */
  predicate Spare(t: Table, s: nat)
    requires |t.entries| == |t.kids|
  {
    0 < s < |t.entries| && t.entries[s].host == 0 && t.entries[s].first == 0 && t.kids[s] == []
  }

  predicate FreeOk(t: Table)
    requires |t.entries| == |t.kids|
  {
    Distinct(t.free) && forall k | 0 <= k < |t.free| :: Spare(t, t.free[k])
  }

  /** A child: on one pool's list only, and neither spare nor a pool itself. */
  predicate KidOk(t: Table, p: nat, c: nat)
    requires |t.entries| == |t.kids|
  {
    0 < c < |t.entries| && 0 < p && t.entries[c].parent == p && t.kids[c] == [] && t.entries[c].first == 0 && c !in t.free
  }

  predicate KidsOk(t: Table, p: nat)
    requires |t.entries| == |t.kids| && p < |t.kids|
  {
    && Linked(t.entries, t.entries[p].first, t.kids[p]) && Distinct(t.kids[p])
    && forall k | 0 <= k < |t.kids[p]| :: KidOk(t, p, t.kids[p][k])
  }

  /** The free list has no duplicates and is disjoint from live slots and from
      every child list; child lists are the ones the links spell, end, and share
      nothing. */
  predicate TableOk(t: Table) {
    && 0 < |t.entries| == |t.ages| == |t.kids| <= SLOTS
    && (forall i | 0 <= i < |t.entries| :: t.entries[i].gen == t.ages[i] % GENERATIONS)
    && t.entries[0] == NO_ENTRY && t.kids[0] == []
    && FreeOk(t) && forall p | 0 <= p < |t.kids| :: KidsOk(t, p)
  }

  lemma {:induction false} LinkedSame(a: seq<Entry>, b: seq<Entry>, i: nat, list: seq<nat>)
    requires Linked(a, i, list) && |a| <= |b|
    requires forall k | 0 <= k < |list| :: list[k] < |a| && b[list[k]].next == a[list[k]].next
    ensures Linked(b, i, list)
    decreases |list|
  {
    if list != [] {
      forall k | 0 <= k < |list| - 1 ensures list[1..][k] < |a| && b[list[1..][k]].next == a[list[1..][k]].next {
        assert list[1..][k] == list[k + 1];
      }
      LinkedSame(a, b, a[i].next, list[1..]);
    }
  }

  /** Two pools share no child: a child knows its pool. */
  lemma KidsApart(t: Table, p: nat, q: nat, c: nat)
    requires TableOk(t) && p < |t.kids| && q < |t.kids| && c in t.kids[p] && c in t.kids[q]
    ensures p == q
  {
    assert KidsOk(t, p) && KidsOk(t, q);
  }

  /** Whoever may have children: a live entry of no pool. */
  predicate MayParent(t: Table, p: nat) {
    p == 0 || (p < |t.entries| && t.entries[p].host != 0 && t.entries[p].parent == 0)
  }

  /** An entry that is on no list, changed in place. */
  lemma TouchKeeps(t: Table, s: nat, e: Entry)
    requires TableOk(t) && 0 < s < |t.entries| && e.gen == t.entries[s].gen && e.first == t.entries[s].first
    requires e.parent == t.entries[s].parent && e.next == t.entries[s].next && (s in t.free ==> e.host == 0)
    ensures TableOk(t.(entries := t.entries[s := e]))
  {
    var u := t.(entries := t.entries[s := e]);
    forall p | 0 <= p < |u.kids| ensures KidsOk(u, p) {
      assert KidsOk(t, p);
      assert forall k | 0 <= k < |t.kids[p]| :: KidOk(t, p, t.kids[p][k]);
      LinkedSame(t.entries, u.entries, t.entries[p].first, t.kids[p]);
    }
    assert FreeOk(u) by {
      forall k | 0 <= k < |u.free| ensures Spare(u, u.free[k]) { assert Spare(t, t.free[k]); }
    }
  }

  /** A slot that is nobody's child, nor spare, nor a pool with children. */
  predicate Loose(t: Table, s: nat) {
    && 0 < s < |t.entries| == |t.kids| && s !in t.free && t.kids[s] == [] && t.entries[s].first == 0
    && forall p | 0 <= p < |t.kids| :: s !in t.kids[p]
  }

  lemma RetireKeeps(t: Table, s: nat)
    requires TableOk(t) && Loose(t, s)
    ensures TableOk(Retire(t, s))
  {
    var u := Retire(t, s);
    forall p | 0 <= p < |u.kids| ensures KidsOk(u, p) {
      assert KidsOk(t, p);
      forall k | 0 <= k < |t.kids[p]| ensures KidOk(u, p, u.kids[p][k]) && t.kids[p][k] != s {
        assert KidOk(t, p, t.kids[p][k]) && t.kids[p][k] in t.kids[p];
      }
      LinkedSame(t.entries, u.entries, t.entries[p].first, t.kids[p]);
    }
    assert FreeOk(u) by {
      forall k | 0 <= k < |u.free| ensures Spare(u, u.free[k]) {
        if k < |t.free| { assert Spare(t, t.free[k]); }
      }
      assert forall k | 0 <= k < |t.free| :: t.free[k] in t.free;
    }
    assert (t.entries[s].gen + 1) % GENERATIONS == (t.ages[s] + 1) % GENERATIONS;
  }

  lemma UnlinkKeeps(t: Table, s: nat)
    requires TableOk(t) && Loose(t, s)
    ensures TableOk(t.(entries := t.entries[s := t.entries[s].(next := 0)])) && Loose(t.(entries := t.entries[s := t.entries[s].(next := 0)]), s)
  {
    var u := t.(entries := t.entries[s := t.entries[s].(next := 0)]);
    forall p | 0 <= p < |u.kids| ensures KidsOk(u, p) {
      assert KidsOk(t, p);
      forall k | 0 <= k < |t.kids[p]| ensures KidOk(u, p, u.kids[p][k]) && t.kids[p][k] != s {
        assert KidOk(t, p, t.kids[p][k]) && t.kids[p][k] in t.kids[p];
      }
      LinkedSame(t.entries, u.entries, t.entries[p].first, t.kids[p]);
    }
    assert FreeOk(u) by {
      forall k | 0 <= k < |u.free| ensures Spare(u, u.free[k]) { assert Spare(t, t.free[k]); }
    }
  }

  lemma SeatFree(t: Table, s: nat, kind: nat, host: nat, parent: nat)
    requires TableOk(t) && Loose(t, s) && parent != s && MayParent(t, parent)
    ensures FreeOk(Seat(t, s, kind, host, parent)) && (parent != 0 ==> parent !in t.free)
  {
    hide KidsOk;
    var u := Seat(t, s, kind, host, parent);
    forall k | 0 <= k < |u.free| ensures Spare(u, u.free[k]) && (parent != 0 ==> t.free[k] != parent) {
      assert Spare(t, t.free[k]) && t.free[k] in t.free;
    }
  }

  lemma SeatKids(t: Table, s: nat, kind: nat, host: nat, parent: nat, p: nat)
    requires TableOk(t) && Loose(t, s) && parent != s && MayParent(t, parent) && p < |t.kids| && (parent != 0 ==> parent !in t.free)
    ensures KidsOk(Seat(t, s, kind, host, parent), p)
  {
    hide FreeOk;
    var u := Seat(t, s, kind, host, parent);
    assert KidsOk(t, p);
    forall k | 0 <= k < |t.kids[p]| ensures KidOk(t, p, t.kids[p][k]) && t.kids[p][k] != s && t.kids[p][k] != parent {
      assert t.kids[p][k] in t.kids[p];
    }
    LinkedSame(t.entries, u.entries, t.entries[p].first, t.kids[p]);
    if p == parent && p != 0 {
      assert u.kids[p] == [s] + t.kids[p] && u.kids[p][1..] == t.kids[p];
    }
  }

  /** A spare slot seated: linked to its pool, and everybody else as before. */
  lemma SeatKeeps(t: Table, s: nat, kind: nat, host: nat, parent: nat)
    requires TableOk(t) && Loose(t, s) && host != 0 && parent != s && MayParent(t, parent)
    ensures TableOk(Seat(t, s, kind, host, parent))
  {
    hide FreeOk, KidsOk;
    SeatFree(t, s, kind, host, parent);
    forall p | 0 <= p < |t.kids| ensures KidsOk(Seat(t, s, kind, host, parent), p) { SeatKids(t, s, kind, host, parent, p); }
  }

  lemma PopKeeps(t: Table)
    requires TableOk(t) && t.free != []
    ensures var u := t.(free := t.free[..|t.free| - 1]); TableOk(u) && Loose(u, t.free[|t.free| - 1])
  {
    var n := |t.free| - 1;
    var u, s := t.(free := t.free[..n]), t.free[n];
    assert Spare(t, s) && s in t.free;
    forall p | 0 <= p < |u.kids| ensures KidsOk(u, p) && s !in u.kids[p] {
      assert KidsOk(t, p);
      forall k | 0 <= k < |t.kids[p]| ensures KidOk(u, p, u.kids[p][k]) && t.kids[p][k] != s { assert KidOk(t, p, t.kids[p][k]); }
    }
    assert FreeOk(u) by {
      forall k | 0 <= k < |u.free| ensures Spare(u, u.free[k]) { assert Spare(t, t.free[k]); }
    }
  }

  lemma GrowKeeps(t: Table)
    requires TableOk(t) && |t.entries| < SLOTS
    ensures var u := t.(entries := t.entries + [NO_ENTRY], ages := t.ages + [0], kids := t.kids + [[]]);
            TableOk(u) && Loose(u, |t.entries|)
  {
    var s := |t.entries|;
    var u := t.(entries := t.entries + [NO_ENTRY], ages := t.ages + [0], kids := t.kids + [[]]);
    forall p | 0 <= p < |u.kids| ensures KidsOk(u, p) && s !in u.kids[p] {
      if p < s {
        assert KidsOk(t, p);
        forall k | 0 <= k < |t.kids[p]| ensures KidOk(u, p, u.kids[p][k]) && t.kids[p][k] < s { assert KidOk(t, p, t.kids[p][k]); }
        LinkedSame(t.entries, u.entries, t.entries[p].first, t.kids[p]);
      }
    }
    assert FreeOk(u) by {
      forall k | 0 <= k < |u.free| ensures Spare(u, u.free[k]) && u.free[k] != s { assert Spare(t, t.free[k]); }
    }
  }

  lemma RegisterKeeps(t: Table, kind: nat, host: nat, parent: nat)
    requires TableOk(t) && MayParent(t, parent)
    ensures forall k | 0 <= k < |t.free| :: t.free[k] < |t.entries|
    ensures TableOk(Register(t, kind, host, parent).0)
  {
    forall k | 0 <= k < |t.free| ensures t.free[k] < |t.entries| { assert Spare(t, t.free[k]); }
    if host != 0 {
      if t.free != [] {
        PopKeeps(t);
        assert Spare(t, t.free[|t.free| - 1]);
        SeatKeeps(t.(free := t.free[..|t.free| - 1]), t.free[|t.free| - 1], kind, host, parent);
      } else if |t.entries| < SLOTS {
        GrowKeeps(t);
        SeatKeeps(t.(entries := t.entries + [NO_ENTRY], ages := t.ages + [0], kids := t.kids + [[]]), |t.entries|, kind, host, parent);
      }
    }
  }

  lemma ForgetKeeps(t: Table, id: nat, kind: nat)
    requires TableOk(t)
    ensures TableOk(Forget(t, id, kind))
  {
    var r := Resolve(t, id, kind);
    if r.Some? {
      var s := r.value;
      forall k | 0 <= k < |t.free| ensures t.free[k] != s { assert Spare(t, t.free[k]); }
      if t.entries[s].parent == 0 && t.entries[s].first == 0 {
        assert KidsOk(t, s);
        forall p | 0 <= p < |t.kids| ensures s !in t.kids[p] { assert KidsOk(t, p); }
        RetireKeeps(t, s);
      } else {
        TouchKeeps(t, s, t.entries[s].(host := 0));
      }
    }
  }

  /** The slots of a list, each loose and each once. */
  predicate AllLoose(t: Table, list: seq<nat>) {
    Distinct(list) && forall k | 0 <= k < |list| :: Loose(t, list[k])
  }

  lemma UnpooledKeeps(t: Table, parent: nat)
    requires TableOk(t) && 0 < parent < |t.entries|
    ensures TableOk(Unpooled(t, parent)) && AllLoose(Unpooled(t, parent), t.kids[parent])
    ensures Linked(Unpooled(t, parent).entries, t.entries[parent].first, t.kids[parent])
  {
    var u, list := Unpooled(t, parent), t.kids[parent];
    assert KidsOk(t, parent);
    forall p | 0 <= p < |u.kids| ensures KidsOk(u, p) && (forall k | 0 <= k < |list| :: list[k] !in u.kids[p]) {
      assert KidsOk(t, p);
      forall k | 0 <= k < |t.kids[p]| ensures KidOk(t, p, t.kids[p][k]) && t.kids[p][k] in t.kids[p] {
      }
      if p != parent {
        LinkedSame(t.entries, u.entries, t.entries[p].first, t.kids[p]);
        forall k | 0 <= k < |list| ensures list[k] !in u.kids[p] {
          if list[k] in t.kids[p] { KidsApart(t, p, parent, list[k]); }
        }
      }
    }
    LinkedSame(t.entries, u.entries, t.entries[parent].first, list);
    forall k | 0 <= k < |list| ensures Loose(u, list[k]) { assert KidOk(t, parent, list[k]); }
    assert FreeOk(u) by {
      forall k | 0 <= k < |u.free| ensures Spare(u, u.free[k]) { assert Spare(t, t.free[k]); }
    }
  }

  lemma DropKidKeeps(t: Table, list: seq<nat>)
    requires TableOk(t) && list != [] && AllLoose(t, list)
    ensures TableOk(DropKid(t, list[0])) && AllLoose(DropKid(t, list[0]), list[1..])
  {
    var c := list[0];
    assert Loose(t, c);
    UnlinkKeeps(t, c);
    var u := t.(entries := t.entries[c := t.entries[c].(next := 0)]);
    RetireKeeps(u, c);
    var w := DropKid(t, c);
    forall k | 0 <= k < |list| - 1 ensures Loose(w, list[1..][k]) {
      assert Loose(t, list[k + 1]) && list[k + 1] != c;
    }
    assert Distinct(list[1..]) by {
      forall a, b | 0 <= a < b < |list| - 1 ensures list[1..][a] != list[1..][b] { assert list[a + 1] != list[b + 1]; }
    }
  }

  lemma {:induction false} DropAllKeeps(t: Table, list: seq<nat>)
    requires TableOk(t) && AllLoose(t, list)
    ensures |t.entries| == |t.ages| && (forall k | 0 <= k < |list| :: list[k] < |t.entries|) && TableOk(DropAll(t, list))
    decreases |list|
  {
    forall k | 0 <= k < |list| ensures list[k] < |t.entries| { assert Loose(t, list[k]); }
    if list != [] {
      DropKidKeeps(t, list);
      DropAllKeeps(DropKid(t, list[0]), list[1..]);
    }
  }

  lemma ForgetChildrenKeeps(t: Table, parent: nat)
    requires TableOk(t)
    ensures TableOk(ForgetChildren(t, parent))
  {
    if 0 < parent < |t.entries| {
      UnpooledKeeps(t, parent);
      DropAllKeeps(Unpooled(t, parent), t.kids[parent]);
    }
  }

  lemma ForgetDeviceKeeps(t: Table, kept: set<nat>)
    requires TableOk(t)
    ensures TableOk(ForgetDevice(t, kept))
  {
    var u := ForgetDevice(t, kept);
    forall p | 0 <= p < |u.kids| ensures KidsOk(u, p) {
      assert KidsOk(t, p);
      forall k | 0 <= k < |t.kids[p]| ensures KidOk(u, p, u.kids[p][k]) { assert KidOk(t, p, t.kids[p][k]); }
      LinkedSame(t.entries, u.entries, t.entries[p].first, t.kids[p]);
    }
    assert FreeOk(u) by {
      forall k | 0 <= k < |u.free| ensures Spare(u, u.free[k]) { assert Spare(t, t.free[k]); }
    }
  }

  lemma KidsBound(t: Table, p: nat)
    requires TableOk(t) && p < |t.kids|
    ensures forall k | 0 <= k < |t.kids[p]| :: t.kids[p][k] < |t.entries|
  {
    assert KidsOk(t, p);
    forall k | 0 <= k < |t.kids[p]| ensures t.kids[p][k] < |t.entries| { assert KidOk(t, p, t.kids[p][k]); }
  }

  lemma FreeBound(t: Table)
    requires TableOk(t)
    ensures forall k | 0 <= k < |t.free| :: 0 < t.free[k] < |t.entries|
  {
    forall k | 0 <= k < |t.free| ensures 0 < t.free[k] < |t.entries| { assert Spare(t, t.free[k]); }
  }

  // ---- runs ----

  /** What the bridge does with the table. */
  datatype Step =
    | Make(kind: nat, host: nat, parent: nat)
    | Destroy(id: nat, kind: nat)
    | ResetPool(parent: nat)
    | DropDevice(kept: set<nat>)
    | DropContext

  predicate Enabled(t: Table, s: Step) {
    s.Make? ==> MayParent(t, s.parent)
  }

  function Next(t: Table, s: Step): (u: Table)
    requires TableOk(t) && Enabled(t, s)
    ensures TableOk(u)
  {
    match s
    case Make(kind, host, parent) =>
      RegisterKeeps(t, kind, host, parent);
      Register(t, kind, host, parent).0
    case Destroy(id, kind) =>
      ForgetKeeps(t, id, kind);
      Forget(t, id, kind)
    case ResetPool(parent) =>
      ForgetChildrenKeeps(t, parent);
      ForgetChildren(t, parent)
    case DropDevice(kept) =>
      ForgetDeviceKeeps(t, kept);
      ForgetDevice(t, kept)
    case DropContext => NewContext(t)
  }

  predicate CanRun(t: Table, steps: seq<Step>)
    requires TableOk(t)
    decreases |steps|
  {
    steps == [] || (Enabled(t, steps[0]) && CanRun(Next(t, steps[0]), steps[1..]))
  }

  function Run(t: Table, steps: seq<Step>): (u: Table)
    requires TableOk(t) && CanRun(t, steps)
    ensures TableOk(u)
    decreases |steps|
  {
    if steps == [] then t else Run(Next(t, steps[0]), steps[1..])
  }

  // ---- what a handle names ----

  /** A handle given out: its context, its slot and how often the slot had been
      given back, and the object it was made for. */
  datatype Issue = Issue(ordinal: nat, slot: nat, age: nat, kind: nat, host: nat)

  function IdOf(i: Issue): nat {
    Handle(i.ordinal, i.age % GENERATIONS, i.slot)
  }

  /** Its slot has not been given back since, in its own context. */
  predicate Current(t: Table, i: Issue) {
    i.ordinal == t.ordinal && i.slot < |t.ages| && t.ages[i.slot] == i.age
  }

  /** Where a handle stands: in a context that is over, in a slot given back
      since, or with its own object or none in its slot. */
  predicate Follows(t: Table, i: Issue)
    requires TableOk(t)
  {
    && i.ordinal <= t.ordinal && 0 < i.slot < SLOTS && i.host != 0
    && (i.ordinal == t.ordinal ==> i.slot < |t.ages| && i.age <= t.ages[i.slot])
    && (Current(t, i) ==> i.slot !in t.free)
    && (Current(t, i) && t.entries[i.slot].host != 0 ==> t.entries[i.slot].host == i.host && t.entries[i.slot].kind == i.kind)
  }

  /** The object has been destroyed. */
  predicate Gone(t: Table, i: Issue)
    requires TableOk(t) && Follows(t, i)
  {
    Current(t, i) ==> t.entries[i.slot].host == 0
  }

  /** What one step may do to a slot: nothing, destroy what is there, give it
      back, or put a new object where it was spare. */
  predicate SlotStep(t: Table, u: Table, s: nat)
    requires TableOk(t) && TableOk(u) && s < |t.entries| <= |u.entries|
  {
    || (u.ages[s] == t.ages[s] && (s !in t.free ==> s !in u.free)
        && ((u.entries[s].host == t.entries[s].host && u.entries[s].kind == t.entries[s].kind) || u.entries[s].host == 0))
    || u.ages[s] > t.ages[s]
    || (s in t.free && u.ages[s] == t.ages[s])
  }

  predicate TableStep(t: Table, u: Table)
    requires TableOk(t) && TableOk(u)
  {
    || u.ordinal > t.ordinal
    || (u.ordinal == t.ordinal && |t.entries| <= |u.entries| && forall s | 0 < s < |t.entries| :: SlotStep(t, u, s))
  }

  lemma DropKidIs(t: Table, c: nat)
    requires c < |t.entries| == |t.ages|
    ensures var w := DropKid(t, c);
            && w.ordinal == t.ordinal && |w.entries| == |t.entries| == |w.ages| && w.kids == t.kids
            && w.ages[c] == t.ages[c] + 1 && w.entries[c].host == 0
            && (forall s | 0 <= s < |t.entries| && s != c :: w.entries[s] == t.entries[s] && w.ages[s] == t.ages[s])
            && c in w.free && (forall s | s != c :: s in w.free <==> s in t.free)
  {
  }

  /** What a pool takes along, slot by slot: each given back once, its object
      gone, and no other slot changed. */
  predicate Taken(t: Table, u: Table, list: seq<nat>) {
    && u.ordinal == t.ordinal && u.kids == t.kids && |u.entries| == |t.entries| == |u.ages| == |t.ages|
    && (forall s | 0 <= s < |t.entries| && s in list :: u.entries[s].host == 0 && u.ages[s] == t.ages[s] + 1 && s in u.free)
    && (forall s | 0 <= s < |t.entries| && s !in list ::
          u.entries[s] == t.entries[s] && u.ages[s] == t.ages[s] && (s in u.free <==> s in t.free))
  }

  lemma TakenFirst(t: Table, w: Table, u: Table, list: seq<nat>)
    requires list != [] && Distinct(list) && list[0] < |t.entries| == |t.ages|
    requires w == DropKid(t, list[0]) && Taken(w, u, list[1..])
    ensures Taken(t, u, list)
  {
    hide DropKid;
    var c := list[0];
    DropKidIs(t, c);
    assert list == [c] + list[1..];
    forall k | 0 <= k < |list| - 1 ensures list[1..][k] != c { assert list[k + 1] != list[0]; }
  }

  lemma {:induction false} DropAllTakes(t: Table, list: seq<nat>)
    requires TableOk(t) && AllLoose(t, list)
    ensures |t.entries| == |t.ages| && (forall k | 0 <= k < |list| :: list[k] < |t.entries|) && TableOk(DropAll(t, list))
    ensures Taken(t, DropAll(t, list), list)
    decreases |list|
  {
    hide TableOk, AllLoose, DropKid, Taken;
    DropAllKeeps(t, list);
    if list == [] {
      TakenNone(t);
    } else {
      DropKidKeeps(t, list);
      DropAllTakes(DropKid(t, list[0]), list[1..]);
      AllLooseOnce(t, list);
      TakenFirst(t, DropKid(t, list[0]), DropAll(t, list), list);
    }
  }

  lemma TakenNone(t: Table)
    requires TableOk(t)
    ensures Taken(t, t, [])
  {
  }

  lemma AllLooseOnce(t: Table, list: seq<nat>)
    requires AllLoose(t, list)
    ensures Distinct(list)
  {
  }

  /** A pool emptied: every child's object is gone, its slot given back and of
      the next generation; every other slot keeps its object, kind and
      generation; and the pool has no child any more. */
  predicate PoolEmptied(t: Table, u: Table, p: nat)
    requires 0 < p < |t.kids|
  {
    && u.ordinal == t.ordinal && |u.entries| == |t.entries| == |u.ages| == |t.ages| && u.kids == t.kids[p := []]
    && (forall k | 0 <= k < |t.kids[p]| ::
          var c := t.kids[p][k];
          c < |t.ages| && u.entries[c].host == 0 && u.ages[c] == t.ages[c] + 1 && c in u.free)
    && (forall s | 0 <= s < |t.entries| && s !in t.kids[p] ::
          && u.entries[s].host == t.entries[s].host && u.entries[s].kind == t.entries[s].kind
          && u.ages[s] == t.ages[s] && (s in u.free <==> s in t.free))
  }

  lemma PoolReset(t: Table, p: nat)
    requires TableOk(t)
    ensures TableOk(ForgetChildren(t, p))
    ensures 0 < p < |t.kids| ==> PoolEmptied(t, ForgetChildren(t, p), p)
    ensures p == 0 || p >= |t.kids| ==> ForgetChildren(t, p) == t
  {
    ForgetChildrenKeeps(t, p);
    if 0 < p < |t.kids| {
      UnpooledKeeps(t, p);
      KidsBound(t, p);
      DropAllTakes(Unpooled(t, p), t.kids[p]);
      forall k | 0 <= k < |t.kids[p]| ensures t.kids[p][k] in t.kids[p] {
      }
    }
  }

  lemma ResetSteps(t: Table, parent: nat)
    requires TableOk(t)
    ensures TableOk(ForgetChildren(t, parent)) && TableStep(t, ForgetChildren(t, parent))
  {
    hide ForgetChildren, FreeOk, KidsOk;
    PoolReset(t, parent);
  }

  lemma MakeSteps(t: Table, kind: nat, host: nat, parent: nat)
    requires TableOk(t) && MayParent(t, parent)
    ensures (forall k | 0 <= k < |t.free| :: t.free[k] < |t.entries|) && TableOk(Register(t, kind, host, parent).0)
    ensures TableStep(t, Register(t, kind, host, parent).0)
  {
    RegisterKeeps(t, kind, host, parent);
    var u := Register(t, kind, host, parent).0;
    if host != 0 && t.free != [] {
      var n := |t.free| - 1;
      assert t.free == t.free[..n] + [t.free[n]];
      assert u.free == t.free[..n];
    }
  }

  lemma NextSteps(t: Table, s: Step)
    requires TableOk(t) && Enabled(t, s)
    ensures TableStep(t, Next(t, s))
  {
    match s
    case Make(kind, host, parent) => MakeSteps(t, kind, host, parent);
    case Destroy(id, kind) =>
    case ResetPool(parent) => ResetSteps(t, parent);
    case DropDevice(kept) =>
    case DropContext =>
  }

  lemma FollowsStep(t: Table, u: Table, i: Issue)
    requires TableOk(t) && TableOk(u) && TableStep(t, u) && Follows(t, i)
    ensures Follows(u, i) && (Gone(t, i) ==> Gone(u, i))
  {
    if u.ordinal == i.ordinal {
      assert SlotStep(t, u, i.slot);
    }
  }

  /** Over every run a handle names its own object or nothing while its slot is
      not given back, and never its object again once that is destroyed. */
  lemma {:induction false} RunFollows(t: Table, steps: seq<Step>, i: Issue)
    requires TableOk(t) && CanRun(t, steps) && Follows(t, i)
    ensures Follows(Run(t, steps), i) && (Gone(t, i) ==> Gone(Run(t, steps), i))
    decreases |steps|
  {
    if steps != [] {
      NextSteps(t, steps[0]);
      FollowsStep(t, Next(t, steps[0]), i);
      RunFollows(Next(t, steps[0]), steps[1..], i);
    }
  }

  /** The handle vkb_register answers with, and the object it is for. */
  function IssueOf(t: Table, kind: nat, host: nat, slot: nat): Issue
    requires slot < |t.ages|
  {
    Issue(t.ordinal, slot, t.ages[slot], kind, host)
  }

  lemma MadeResolves(t: Table, kind: nat, host: nat, parent: nat)
    requires TableOk(t) && MayParent(t, parent)
    ensures (forall k | 0 <= k < |t.free| :: t.free[k] < |t.entries|) && TableOk(Register(t, kind, host, parent).0)
    ensures var (u, id) := Register(t, kind, host, parent);
            id != 0 ==>
              var s := SlotOf(id);
              && 0 < s < |u.ages| && id == IdOf(IssueOf(u, kind, host, s)) && Follows(u, IssueOf(u, kind, host, s))
              && !Gone(u, IssueOf(u, kind, host, s)) && Resolve(u, id, kind) == Some(s)
    ensures var (u, id) := Register(t, kind, host, parent);
            id == 0 <==> host == 0 || (t.free == [] && |t.entries| == SLOTS)
  {
    RegisterKeeps(t, kind, host, parent);
    FreeBound(t);
    var (u, id) := Register(t, kind, host, parent);
    if host != 0 && (t.free != [] || |t.entries| < SLOTS) {
      var s := if t.free != [] then t.free[|t.free| - 1] else |t.entries|;
      assert u.entries[s].host == host && u.entries[s].kind == kind && id == Named(u, s);
      HandleParts(u.ordinal, u.entries[s].gen, s);
      forall k | 0 <= k < |u.free| ensures u.free[k] != s { assert Spare(u, u.free[k]); }
    }
  }

  /** What a handle resolves to, for every handle ever given out and whatever
      has happened since: its own object, exactly while that lives - unless its
      slot has been given back a multiple of 256 times, when it may name another
      of the kind. */
  lemma ResolvesExactly(t: Table, i: Issue, kind: nat)
    requires TableOk(t) && Follows(t, i)
    ensures Resolve(t, IdOf(i), kind).Some? <==>
              && i.ordinal == t.ordinal && (t.ages[i.slot] - i.age) % GENERATIONS == 0
              && t.entries[i.slot].host != 0 && t.entries[i.slot].kind == kind
    ensures Current(t, i) ==> (Resolve(t, IdOf(i), kind).Some? <==> !Gone(t, i) && kind == i.kind)
    ensures Current(t, i) && Resolve(t, IdOf(i), kind).Some? ==> t.entries[i.slot].host == i.host
    ensures i.ordinal != t.ordinal ==> Resolve(t, IdOf(i), kind) == None
    ensures i.ordinal == t.ordinal && i.age < t.ages[i.slot] < i.age + GENERATIONS ==> Resolve(t, IdOf(i), kind) == None
  {
    HandleParts(i.ordinal, i.age % GENERATIONS, i.slot);
    if i.ordinal == t.ordinal {
      SameRest(t.ages[i.slot], i.age);
    }
  }

  lemma SameRest(a: nat, b: nat)
    requires b <= a
    ensures (a - b) % GENERATIONS == 0 <==> a % GENERATIONS == b % GENERATIONS
    ensures b < a < b + GENERATIONS ==> a % GENERATIONS != b % GENERATIONS
  {
  }

  /** The handle names nothing, unless its slot has been given back 256 times. */
  predicate Dead(t: Table, i: Issue, kind: nat)
    requires TableOk(t)
  {
    (t.ordinal == i.ordinal ==> i.slot < |t.ages| && t.ages[i.slot] < i.age + GENERATIONS) ==> Resolve(t, IdOf(i), kind) == None
  }

  lemma GoneStaysDead(t: Table, i: Issue, steps: seq<Step>, kind: nat)
    requires TableOk(t) && Follows(t, i) && Gone(t, i) && CanRun(t, steps)
    ensures Dead(Run(t, steps), i, kind)
  {
    RunFollows(t, steps, i);
    ResolvesExactly(Run(t, steps), i, kind);
  }

  /** A handle destroyed names nothing, until its slot has been given back 256
      times: over every run. */
  lemma DestroyedStaysDead(t: Table, i: Issue, steps: seq<Step>, kind: nat)
    requires TableOk(t) && Follows(t, i) && CanRun(Next(t, Destroy(IdOf(i), i.kind)), steps) && Current(t, i)
    ensures Dead(Run(Next(t, Destroy(IdOf(i), i.kind)), steps), i, kind)
  {
    var s := Destroy(IdOf(i), i.kind);
    ResolvesExactly(t, i, i.kind);
    HandleParts(i.ordinal, i.age % GENERATIONS, i.slot);
    NextSteps(t, s);
    FollowsStep(t, Next(t, s), i);
    GoneStaysDead(Next(t, s), i, steps, kind);
  }

  /** So does every handle of a pool that was reset. */
  lemma ResetStaysDead(t: Table, p: nat, i: Issue, steps: seq<Step>, kind: nat)
    requires TableOk(t) && Follows(t, i) && CanRun(Next(t, ResetPool(p)), steps)
    requires 0 < p < |t.kids| && i.slot in t.kids[p] && Current(t, i)
    ensures Dead(Run(Next(t, ResetPool(p)), steps), i, kind)
  {
    hide ForgetChildren, FreeOk, KidsOk, Run, CanRun;
    PoolReset(t, p);
    NextSteps(t, ResetPool(p));
    FollowsStep(t, Next(t, ResetPool(p)), i);
    assert exists k | 0 <= k < |t.kids[p]| :: t.kids[p][k] == i.slot;
    GoneStaysDead(Next(t, ResetPool(p)), i, steps, kind);
  }

  /** Of a device that ended, every handle of a kind that goes with it. */
  lemma DeviceStaysDead(t: Table, kept: set<nat>, i: Issue, steps: seq<Step>, kind: nat)
    requires TableOk(t) && Follows(t, i) && CanRun(Next(t, DropDevice(kept)), steps) && i.kind !in kept
    ensures Dead(Run(Next(t, DropDevice(kept)), steps), i, kind)
  {
    hide FreeOk, KidsOk, Run, CanRun;
    NextSteps(t, DropDevice(kept));
    FollowsStep(t, Next(t, DropDevice(kept)), i);
    GoneStaysDead(Next(t, DropDevice(kept)), i, steps, kind);
  }

  /** Of a context that ended, every handle, for good. */
  lemma ContextStaysDead(t: Table, i: Issue, steps: seq<Step>, kind: nat)
    requires TableOk(t) && Follows(t, i) && CanRun(Next(t, DropContext), steps)
    ensures Resolve(Run(Next(t, DropContext), steps), IdOf(i), kind) == None
  {
    hide Run, CanRun;
    HandleParts(i.ordinal, i.age % GENERATIONS, i.slot);
    LaterContext(Next(t, DropContext), steps);
  }

  lemma {:induction false} LaterContext(t: Table, steps: seq<Step>)
    requires TableOk(t) && CanRun(t, steps)
    ensures Run(t, steps).ordinal >= t.ordinal
    decreases |steps|
  {
    if steps != [] {
      NextSteps(t, steps[0]);
      LaterContext(Next(t, steps[0]), steps[1..]);
    }
  }

  // ---- and lives until then ----

  /** The slot vkb_register fills: the one given back last, or a new one. */
  function SlotFor(t: Table): nat {
    if t.free != [] then t.free[|t.free| - 1] else |t.entries|
  }

  /** A new object is on its pool's list, ahead of the others, has no children
      of its own, and changes nobody else's slot, kind, generation or list. */
  lemma MadeInPool(t: Table, kind: nat, host: nat, parent: nat)
    requires TableOk(t) && MayParent(t, parent) && host != 0 && (t.free != [] || |t.entries| < SLOTS)
    ensures (forall k | 0 <= k < |t.free| :: t.free[k] < |t.entries|) && TableOk(Register(t, kind, host, parent).0)
    ensures var (u, id) := Register(t, kind, host, parent);
            && SlotOf(id) == SlotFor(t) < |u.kids| && u.ordinal == t.ordinal && |t.entries| <= |u.entries|
            && (parent != 0 ==> u.kids[parent] == [SlotFor(t)] + t.kids[parent]) && u.kids[SlotFor(t)] == []
            && (forall s | 0 <= s < |t.entries| && s != SlotFor(t) ::
                  && u.entries[s].host == t.entries[s].host && u.entries[s].kind == t.entries[s].kind && u.ages[s] == t.ages[s]
                  && (s in u.free <==> s in t.free) && (s != parent || s == 0 ==> u.kids[s] == t.kids[s]))
            && SlotFor(t) !in u.free
  {
    RegisterKeeps(t, kind, host, parent);
    FreeBound(t);
    var (u, id) := Register(t, kind, host, parent);
    var s := SlotFor(t);
    HandleParts(u.ordinal, u.entries[s].gen, s);
    if t.free != [] {
      assert t.free == t.free[..|t.free| - 1] + [s];
      assert Spare(t, s);
    }
    forall k | 0 <= k < |u.free| ensures u.free[k] != s { assert Spare(u, u.free[k]); }
  }

  /** A destroyed object's slot is the next one given out, with the next
      generation, unless a pool's list still goes through it. */
  lemma DestroyGivesBack(t: Table, id: nat, kind: nat)
    requires TableOk(t) && Resolve(t, id, kind).Some?
    ensures var s, u := SlotOf(id), Next(t, Destroy(id, kind));
            if t.entries[s].parent == 0 && t.kids[s] == [] then SlotFor(u) == s && u.ages[s] == t.ages[s] + 1 && s in u.free
            else u.ages == t.ages && u.free == t.free && u.kids == t.kids
  {
    var s := SlotOf(id);
    assert KidsOk(t, s);
  }

  /** A step that ends what the slot holds. */
  predicate Ends(t: Table, step: Step, s: nat)
    requires TableOk(t) && s < |t.entries|
  {
    match step
    case Make(_, _, _) => false
    case Destroy(id, kind) => Resolve(t, id, kind) == Some(s)
    case ResetPool(p) => 0 < p < |t.kids| && s in t.kids[p]
    case DropDevice(kept) => t.entries[s].kind !in kept
    case DropContext => true
  }

  /** No step of the run ends what the slot held when it began. */
  predicate Spared(t: Table, steps: seq<Step>, s: nat)
    requires TableOk(t) && CanRun(t, steps)
    decreases |steps|
  {
    steps == [] || (s < |t.entries| && !Ends(t, steps[0], s) && Spared(Next(t, steps[0]), steps[1..], s))
  }

  lemma MakeSpares(t: Table, step: Step, s: nat)
    requires TableOk(t) && step.Make? && Enabled(t, step) && 0 < s < |t.entries| && t.entries[s].host != 0
    ensures var u := Next(t, step);
            u.ordinal == t.ordinal && s < |u.entries| && u.entries[s].host == t.entries[s].host && u.entries[s].kind == t.entries[s].kind
            && u.ages[s] == t.ages[s]
  {
    if step.host != 0 && (t.free != [] || |t.entries| < SLOTS) {
      if t.free != [] { assert Spare(t, SlotFor(t)); }
      hide Register, FreeOk, KidsOk;
      MadeInPool(t, step.kind, step.host, step.parent);
    }
  }

  /** A step ends an object exactly when it is one of those that do. */
  lemma StepEnds(t: Table, step: Step, i: Issue)
    requires TableOk(t) && Enabled(t, step) && Follows(t, i) && Current(t, i) && !Gone(t, i)
    ensures TableStep(t, Next(t, step))
    ensures var u := Next(t, step); Follows(u, i) && (Ends(t, step, i.slot) <==> !Current(u, i) || Gone(u, i))
  {
    hide FreeOk, KidsOk;
    NextSteps(t, step);
    FollowsStep(t, Next(t, step), i);
    match step {
      case Make(_, _, _) => MakeSpares(t, step, i.slot);
      case Destroy(id, kind) =>
      case ResetPool(p) => StepResets(t, p, i);
      case DropDevice(kept) =>
      case DropContext =>
    }
  }

  lemma StepResets(t: Table, p: nat, i: Issue)
    requires TableOk(t) && Follows(t, i) && Current(t, i) && !Gone(t, i) && Follows(Next(t, ResetPool(p)), i)
    ensures var u := Next(t, ResetPool(p)); Ends(t, ResetPool(p), i.slot) <==> !Current(u, i) || Gone(u, i)
  {
    hide ForgetChildren, FreeOk, KidsOk;
    PoolReset(t, p);
    if 0 < p < |t.kids| && i.slot in t.kids[p] {
      assert exists k | 0 <= k < |t.kids[p]| :: t.kids[p][k] == i.slot;
    }
  }

  /** Over every run a live handle resolves to its own object exactly when no
      step destroyed it, reset its pool, or ended its device or context. */
  lemma {:induction false} HandleLives(t: Table, steps: seq<Step>, i: Issue)
    requires TableOk(t) && CanRun(t, steps) && Follows(t, i) && Current(t, i) && !Gone(t, i)
    ensures Follows(Run(t, steps), i)
    ensures var u := Run(t, steps);
            Spared(t, steps, i.slot) <==>
              Current(u, i) && Resolve(u, IdOf(i), i.kind) == Some(i.slot) && u.entries[i.slot].host == i.host
    decreases |steps|
  {
    hide TableOk, Next, Ends, Follows, Gone;
    RunFollows(t, steps, i);
    if steps == [] {
      ResolvesExactly(t, i, i.kind);
      ResolvesOwn(t, i);
    } else {
      var u := Next(t, steps[0]);
      InTable(t, i);
      StepEnds(t, steps[0], i);
      if Ends(t, steps[0], i.slot) {
        GoneForGood(u, steps[1..], i);
      } else {
        HandleLives(u, steps[1..], i);
      }
    }
  }

  lemma InTable(t: Table, i: Issue)
    requires TableOk(t) && Follows(t, i) && Current(t, i)
    ensures i.slot < |t.entries|
  {
  }

  lemma ResolvesOwn(t: Table, i: Issue)
    requires TableOk(t) && Follows(t, i) && Current(t, i) && !Gone(t, i)
    ensures Resolve(t, IdOf(i), i.kind) == Some(i.slot) && t.entries[i.slot].host == i.host
  {
    ResolvesExactly(t, i, i.kind);
    HandleParts(i.ordinal, i.age % GENERATIONS, i.slot);
  }

  lemma GoneForGood(t: Table, steps: seq<Step>, i: Issue)
    requires TableOk(t) && CanRun(t, steps) && Follows(t, i) && (!Current(t, i) || Gone(t, i))
    ensures var u := Run(t, steps); Follows(u, i) && !(Current(u, i) && Resolve(u, IdOf(i), i.kind).Some?)
  {
    hide TableOk, Run, CanRun;
    RunFollows(t, steps, i);
    ResolvesExactly(Run(t, steps), i, i.kind);
  }

  /** Live handles are distinct, and each resolves to its own slot. */
  lemma LiveDistinct(t: Table, a: nat, b: nat)
    requires TableOk(t) && 0 < a < |t.entries| && 0 < b < |t.entries| && t.entries[a].host != 0
    ensures Resolve(t, Named(t, a), t.entries[a].kind) == Some(a)
    ensures Named(t, a) == Named(t, b) ==> a == b
  {
    HandleParts(t.ordinal, t.entries[a].gen, a);
    HandleParts(t.ordinal, t.entries[b].gen, b);
  }

  // ---- and when it names another ----

  /** A table whose one slot has been used and given back n times. */
  function Worn(kind: nat, n: nat): Table {
    Table([NO_ENTRY, Entry(0, kind, 0, 0, 0, n % GENERATIONS)], [1], 1, [0, n], [[], []])
  }

  function WornUsed(kind: nat, host: nat, n: nat): Table {
    Table([NO_ENTRY, Entry(host, kind, 0, 0, 0, n % GENERATIONS)], [], 1, [0, n], [[], []])
  }

  lemma WornOk(kind: nat, host: nat, n: nat)
    requires host != 0
    ensures TableOk(Worn(kind, n)) && TableOk(WornUsed(kind, host, n))
  {
    var t, u := Worn(kind, n), WornUsed(kind, host, n);
    assert KidsOk(t, 0) && KidsOk(t, 1) && KidsOk(u, 0) && KidsOk(u, 1);
    assert Spare(t, 1);
  }

  lemma WornMakes(kind: nat, host: nat, n: nat)
    requires host != 0
    ensures TableOk(Worn(kind, n)) && Register(Worn(kind, n), kind, host, 0) == (WornUsed(kind, host, n), Handle(1, n % GENERATIONS, 1))
  {
    WornOk(kind, host, n);
    var t := Worn(kind, n);
    var u := Register(t, kind, host, 0).0;
    assert t.free[..0] == [];
    assert u.entries == WornUsed(kind, host, n).entries && u.kids == [[], []];
  }

  lemma WornDrops(kind: nat, host: nat, n: nat)
    requires host != 0
    ensures Forget(WornUsed(kind, host, n), Handle(1, n % GENERATIONS, 1), kind) == Worn(kind, n + 1)
  {
    HandleParts(1, n % GENERATIONS, 1);
    var t := WornUsed(kind, host, n);
    assert Resolve(t, Handle(1, n % GENERATIONS, 1), kind) == Some(1);
    var u := Retire(t, 1);
    assert u.entries == Worn(kind, n + 1).entries && u.ages == [0, n + 1] && u.free == [1];
  }

  lemma Then(t: Table, steps: seq<Step>, s: Step)
    requires TableOk(t) && CanRun(t, steps) && Enabled(Run(t, steps), s)
    ensures CanRun(t, steps + [s]) && Run(t, steps + [s]) == Next(Run(t, steps), s)
    decreases |steps|
  {
    if steps == [] {
      assert [s][1..] == [] && steps + [s] == [s];
    } else {
      assert (steps + [s])[1..] == steps[1..] + [s];
      Then(Next(t, steps[0]), steps[1..], s);
    }
  }

  lemma WornFirst(kind: nat, host: nat)
    requires host != 0
    ensures TableOk(NEW_TABLE) && CanRun(NEW_TABLE, [] + [Make(kind, host, 0)])
    ensures Run(NEW_TABLE, [] + [Make(kind, host, 0)]) == WornUsed(kind, host, 0)
  {
    assert KidsOk(NEW_TABLE, 0);
    var u := Next(NEW_TABLE, Make(kind, host, 0));
    assert u.entries == WornUsed(kind, host, 0).entries && u.kids == [[], []];
    Then(NEW_TABLE, [], Make(kind, host, 0));
  }

  /** Such a table is reached by making and destroying one object after another. */
  lemma {:induction false} WornReached(kind: nat, host: nat, n: nat) returns (steps: seq<Step>)
    requires host != 0
    ensures TableOk(NEW_TABLE) && CanRun(NEW_TABLE, steps + [Make(kind, host, 0)])
    ensures Run(NEW_TABLE, steps + [Make(kind, host, 0)]) == WornUsed(kind, host, n)
    decreases n
  {
    hide Register, Forget, Run, CanRun, TableOk;
    WornFirst(kind, host);
    if n == 0 {
      steps := [];
    } else {
      var before := WornReached(kind, host, n - 1);
      var drop := Destroy(Handle(1, (n - 1) % GENERATIONS, 1), kind);
      WornDrops(kind, host, n - 1);
      Then(NEW_TABLE, before + [Make(kind, host, 0)], drop);
      WornMakes(kind, host, n);
      steps := before + [Make(kind, host, 0)] + [drop];
      Then(NEW_TABLE, steps, Make(kind, host, 0));
    }
  }

  /** The first handle a guest got, its object long destroyed, names the object
      its slot holds when it has been given back 256 times. */
  lemma NamesAnother(kind: nat, host: nat) returns (steps: seq<Step>)
    requires host != 0
    ensures TableOk(NEW_TABLE) && CanRun(NEW_TABLE, steps)
    ensures var first := Handle(1, 0, 1);
            var t := Run(NEW_TABLE, steps);
            && Register(NEW_TABLE, kind, host, 0).1 == first && t.ages == [0, GENERATIONS]
            && Resolve(t, first, kind) == Some(1)
  {
    var before := WornReached(kind, host, GENERATIONS);
    steps := before + [Make(kind, host, 0)];
    HandleParts(1, 0, 1);
  }

  // ---- what a driver hands out again and again ----

  /** The first entry with this object, the table's length when there is none. */
  function FirstWith(entries: seq<Entry>, kind: nat, host: nat, from: nat): (i: nat)
    requires from <= |entries|
    ensures from <= i <= |entries| && (i < |entries| ==> entries[i].host == host && entries[i].kind == kind)
    ensures forall k | from <= k < i :: !(entries[k].host == host && entries[k].kind == kind)
    decreases |entries| - from
  {
    if from == |entries| || (entries[from].host == host && entries[from].kind == kind) then from
    else FirstWith(entries, kind, host, from + 1)
  }

  /** vkb_intern */
  function Intern(t: Table, kind: nat, host: nat): (Table, nat)
    requires TableOk(t)
  {
    var i := FirstWith(t.entries, kind, host, 1);
    FreeBound(t);
    if i < |t.entries| then (t, Named(t, i)) else Register(t, kind, host, 0)
  }

  /** Asked for again, the guest gets the same handle, and the table stays. */
  lemma InternAgain(t: Table, kind: nat, host: nat)
    requires TableOk(t)
    ensures var (u, id) := Intern(t, kind, host);
            TableOk(u) && (id != 0 ==> Intern(u, kind, host) == (u, id) && (host != 0 ==> Resolve(u, id, kind) == Some(SlotOf(id))))
  {
    var i := FirstWith(t.entries, kind, host, 1);
    if i < |t.entries| {
      if host != 0 { LiveDistinct(t, i, i); HandleParts(t.ordinal, t.entries[i].gen, i); }
    } else {
      RegisterKeeps(t, kind, host, 0);
      MadeResolves(t, kind, host, 0);
      var (u, id) := Register(t, kind, host, 0);
      if id != 0 {
        var s := SlotOf(id);
        forall k | 1 <= k < |u.entries| && k != s ensures !(u.entries[k].host == host && u.entries[k].kind == kind) {
          assert u.entries[k] == t.entries[k];
        }
        assert FirstWith(u.entries, kind, host, 1) == s;
      }
    }
  }

  // ---- the table in place ----

  class Handles {
    var entries: seq<Entry>
    /** Slots given back, newest last. */
    var free: seq<nat>
    var ordinal: nat
    ghost var ages: seq<nat>
    ghost var kids: seq<seq<nat>>

    ghost function Abs(): Table
      reads this
    {
      Table(entries, free, ordinal, ages, kids)
    }

    ghost predicate Valid()
      reads this
    {
      TableOk(Abs())
    }

    constructor ()
      ensures Valid() && Abs() == NEW_TABLE
    {
      entries, free, ordinal := [NO_ENTRY], [], 1;
      ages, kids := [0], [[]];
      new;
      assert KidsOk(Abs(), 0);
    }

    /** vkb_entry */
    method Lookup(id: nat, kind: nat) returns (s: Option<nat>)
      ensures s == Resolve(Abs(), id, kind)
    {
      var index := id % SLOTS;
      if id / PER_CONTEXT != ordinal || index == 0 || index >= |entries| { return None; }
      if entries[index].gen != id / SLOTS % GENERATIONS { return None; }
      return if entries[index].host != 0 && entries[index].kind == kind then Some(index) else None;
    }

    /** vkb_register */
    method New(kind: nat, host: nat, parent: nat) returns (id: nat)
      requires Valid() && MayParent(Abs(), parent)
      modifies this
      ensures (forall k | 0 <= k < |old(free)| :: old(free)[k] < |old(entries)|)
      ensures Valid() && (Abs(), id) == Register(old(Abs()), kind, host, parent)
    {
      hide FreeOk, KidsOk;
      RegisterKeeps(Abs(), kind, host, parent);
      FreeBound(Abs());
      if host == 0 { return 0; }
      var slot, gen := 0, 0;
      if |free| > 0 {
        slot := free[|free| - 1];
        free := free[..|free| - 1];
        gen := entries[slot].gen;
      } else {
        if |entries| >= SLOTS { return 0; }
        slot := |entries|;
        entries, ages, kids := entries + [NO_ENTRY], ages + [0], kids + [[]];
      }
      ghost var t := Abs();
      entries := entries[slot := Entry(host, kind, parent, 0, if parent != 0 then entries[parent].first else 0, gen)];
      kids := kids[slot := []];
      if parent != 0 {
        entries := entries[parent := entries[parent].(first := slot)];
        kids := kids[parent := [slot] + kids[parent]];
      }
      assert Abs() == Seat(t, slot, kind, host, parent);
      id := ordinal * PER_CONTEXT + gen * SLOTS + slot;
    }

    /** vkb_intern */
    method Again(kind: nat, host: nat) returns (id: nat)
      requires Valid()
      modifies this
      ensures Valid() && (Abs(), id) == Intern(old(Abs()), kind, host)
    {
      var i := 1;
      while i < |entries|
        invariant 1 <= i <= |entries| && Abs() == old(Abs()) && FirstWith(entries, kind, host, 1) == FirstWith(entries, kind, host, i)
      {
        if entries[i].host == host && entries[i].kind == kind {
          return ordinal * PER_CONTEXT + entries[i].gen * SLOTS + i;
        }
        i := i + 1;
      }
      id := New(kind, host, 0);
    }

    /** vkb_give_back, after the generation went up. */
    method GiveBack(slot: nat)
      requires slot < |entries| == |ages|
      modifies this
      ensures Abs() == Retire(old(Abs()), slot)
    {
      entries := entries[slot := entries[slot].(host := 0, gen := (entries[slot].gen + 1) % GENERATIONS)];
      ages := ages[slot := ages[slot] + 1];
      free := free + [slot];
    }

    /** vkb_forget */
    method Drop(id: nat, kind: nat)
      requires Valid()
      modifies this
      ensures Valid() && Abs() == Forget(old(Abs()), id, kind)
      ensures |entries| == |old(entries)| && forall k | 0 < k < |entries| ::
                entries[k].host == if Resolve(old(Abs()), id, kind) == Some(k) then 0 else old(entries[k]).host
    {
      ForgetKeeps(Abs(), id, kind);
      var s := Lookup(id, kind);
      if s == None { return; }
      if entries[s.value].parent == 0 && entries[s.value].first == 0 {
        GiveBack(s.value);
      } else {
        entries := entries[s.value := entries[s.value].(host := 0)];
      }
    }

    /** vkb_forget_children: the pool's list walked link by link, each slot given
        back on the way. */
    method DropPool(parent: nat)
      requires Valid()
      modifies this
      ensures Valid() && Abs() == ForgetChildren(old(Abs()), parent)
      ensures 0 < parent < |old(kids)| ==> PoolEmptied(old(Abs()), Abs(), parent)
    {
      hide TableOk, AllLoose, DropAll, Retire, PoolEmptied;
      Sized(Abs());
      PoolReset(Abs(), parent);
      if parent == 0 || parent >= |entries| { return; }
      UnpooledKeeps(Abs(), parent);
      KidsBound(Abs(), parent);
      ghost var t := Unpooled(Abs(), parent);
      ghost var rest: seq<nat> := kids[parent];
      var i := entries[parent].first;
      entries, kids := entries[parent := entries[parent].(first := 0)], kids[parent := []];
      ghost var end := DropAll(t, rest);
      while i != 0
        invariant Valid() && |entries| == |ages| && AllLoose(Abs(), rest) && Linked(entries, i, rest)
        invariant (forall k | 0 <= k < |rest| :: rest[k] < |entries|) && DropAll(Abs(), rest) == end
        decreases |rest|
      {
        ghost var was := Abs();
        var next := entries[i].next;
        DropKidKeeps(was, rest);
        DropStep(was, rest);
        entries := entries[i := entries[i].(next := 0)];
        GiveBack(i);
        rest := rest[1..];
        Sized(Abs());
        i := next;
      }
      DropNone(Abs());
    }

    /** forget_device_entries */
    method DropDevice(kept: set<nat>)
      requires Valid()
      modifies this
      ensures Valid() && Abs() == ForgetDevice(old(Abs()), kept)
      ensures |entries| == |old(entries)| && ages == old(ages) && free == old(free)
      ensures forall k | 0 < k < |entries| :: entries[k].host == if old(entries[k]).kind in kept then old(entries[k]).host else 0
    {
      ForgetDeviceKeeps(Abs(), kept);
      ghost var t := Abs();
      var i := 1;
      while i < |entries|
        invariant 1 <= i <= |entries| == |t.entries| && Abs() == t.(entries := entries)
        invariant forall k | 0 <= k < |entries| :: entries[k] == if k < i then ForgetDevice(t, kept).entries[k] else t.entries[k]
      {
        if entries[i].kind !in kept { entries := entries[i := entries[i].(host := 0)]; }
        i := i + 1;
      }
      assert entries == ForgetDevice(t, kept).entries;
    }

    /** destroy_context, the driver's side apart. */
    method DropContext()
      requires Valid()
      modifies this
      ensures Valid() && Abs() == NewContext(old(Abs())) && ordinal != old(ordinal) && |entries| == 1
    {
      entries, free, ordinal := entries[..1], [], ordinal + 1;
      ages, kids := [0], [[]];
      assert KidsOk(Abs(), 0);
    }
  }

  lemma Sized(t: Table)
    requires TableOk(t)
    ensures 0 < |t.entries| == |t.ages| == |t.kids|
  {
  }

  lemma DropStep(t: Table, list: seq<nat>)
    requires TableOk(t) && list != [] && AllLoose(t, list) && Linked(t.entries, list[0], list)
    ensures |t.entries| == |t.ages| && forall k | 0 <= k < |list| :: list[k] < |t.entries|
    ensures DropAll(t, list) == DropAll(DropKid(t, list[0]), list[1..])
    ensures Linked(DropKid(t, list[0]).entries, t.entries[list[0]].next, list[1..])
    ensures forall k | 0 <= k < |list| - 1 :: list[1..][k] < |DropKid(t, list[0]).entries|
  {
    forall k | 0 <= k < |list| ensures list[k] < |t.entries| { assert Loose(t, list[k]); }
    var c, rest := list[0], list[1..];
    forall k | 0 <= k < |rest| ensures rest[k] != c && DropKid(t, c).entries[rest[k]].next == t.entries[rest[k]].next {
      assert rest[k] == list[k + 1] && list[0] != list[k + 1];
    }
    LinkedSame(t.entries, DropKid(t, c).entries, t.entries[c].next, rest);
  }

  lemma DropNone(t: Table)
    requires |t.entries| == |t.ages|
    ensures DropAll(t, []) == t
  {
  }
}
