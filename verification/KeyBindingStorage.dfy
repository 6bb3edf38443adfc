/** Overrides as they are stored and read back, and edits over whole sessions. */
module KeyBindingStorage {
  import opened Wrappers
  import opened KeyCombos
  import opened KeyBindings
  import opened KeyBindingsTheorems
  import opened KeyBindingEdits

  /** A stored value as it is parsed: only objects of lists of texts mean anything. */
  datatype Element = Text(text: string) | Other

  datatype Item = NotAList | List(elements: seq<Element>)

  datatype Stored = NotAnObject | Object(entries: map<string, Item>)

  /** The normal forms of the texts among these elements, each once, in order of appearance. */
  function Cleaned(elements: seq<Element>): seq<string> {
    if elements == [] then []
    else
      var before, last := Cleaned(elements[..|elements| - 1]), elements[|elements| - 1];
      if last.Text? && Normalize(last.text).Some? && Normalize(last.text).value !in before
      then before + [Normalize(last.text).value]
      else before
  }

  /** Whether an entry names an action that may have overrides, with a list that says something new. */
  predicate Counts(table: seq<Action>, id: string, item: Item) {
    var a := Find(table, id);
    a.Some? && !a.value.fixed && item.List? && Cut(Cleaned(item.elements), a.value.slots) != a.value.defaults
  }

  function Sanitized(table: seq<Action>, stored: Stored): Overrides {
    if stored.NotAnObject? then map[]
    else
      map id | id in stored.entries && Counts(table, id, stored.entries[id]) ::
        Cut(Cleaned(stored.entries[id].elements), Find(table, id).value.slots)
  }

  method CleanElements(elements: seq<Element>) returns (cleaned: seq<string>)
    ensures cleaned == Cleaned(elements)
  {
    cleaned := [];
    for n := 0 to |elements|
      invariant cleaned == Cleaned(elements[..n])
    {
      assert elements[..n + 1][..n] == elements[..n];
      match elements[n] {
        case Other =>
        case Text(text) =>
          var normalized := NormalizeCombo(text);
          if normalized.Some? && normalized.value !in cleaned {
            cleaned := cleaned + [normalized.value];
          }
      }
    }
    assert elements[..|elements|] == elements;
  }

  method SanitizeOverrides(table: seq<Action>, stored: Stored) returns (overrides: Overrides)
    ensures overrides == Sanitized(table, stored)
  {
    hide Cleaned, Find;
    overrides := map[];
    if stored.NotAnObject? {
      return;
    }
    var left := stored.entries.Keys;
    while left != {}
      invariant left <= stored.entries.Keys
      invariant overrides == SanitizedBut(table, stored.entries, left)
      decreases |left|
    {
      var id :| id in left;
      OneMoreSanitized(table, stored.entries, left, id);
      left := left - {id};
      var action := Find(table, id);
      if action.None? || action.value.fixed || stored.entries[id].NotAList? {
        continue;
      }
      var cleaned := CleanElements(stored.entries[id].elements);
      cleaned := Cut(cleaned, action.value.slots);
      if cleaned != action.value.defaults {
        overrides := overrides[id := cleaned];
      }
    }
    assert SanitizedBut(table, stored.entries, {}) == Sanitized(table, stored);
  }

  /** What sanitizing gives while the entries in `left` are still to be looked at. */
  function SanitizedBut(table: seq<Action>, entries: map<string, Item>, left: set<string>): Overrides {
    map id | id in entries && id !in left && Counts(table, id, entries[id]) ::
      Cut(Cleaned(entries[id].elements), Find(table, id).value.slots)
  }

  lemma {:induction false} OneMoreSanitized(table: seq<Action>, entries: map<string, Item>, left: set<string>,
      id: string)
    requires id in left && id in entries
    ensures SanitizedBut(table, entries, left - {id}) ==
      if Counts(table, id, entries[id])
      then SanitizedBut(table, entries, left)[id := Cut(Cleaned(entries[id].elements), Find(table, id).value.slots)]
      else SanitizedBut(table, entries, left)
  {
    hide Counts, Cleaned;
  }

  // Reading back what was stored.

  function AsElements(combos: seq<string>): seq<Element> {
    seq(|combos|, i requires 0 <= i < |combos| => Text(combos[i]))
  }

  function AsStored(o: Overrides): Stored {
    Object(map id | id in o :: List(AsElements(o[id])))
  }

  predicate InNormalForm(combo: string) {
    Normalize(combo) == Some(combo)
  }

  predicate AllInNormalForm(combos: seq<string>) {
    forall combo | combo in combos :: InNormalForm(combo)
  }

  ghost predicate NormalDefaults(table: seq<Action>) {
    forall a | a in table :: AllInNormalForm(a.defaults)
  }

  ghost predicate NormalOverrides(o: Overrides) {
    forall id | id in o :: AllInNormalForm(o[id])
  }

  lemma {:induction false} NormalFormIsSet(combo: string)
    requires InNormalForm(combo)
    ensures combo != []
  {
    var modifiers, key := NormalizeGivesNormal(combo);
    OrderedParts(modifiers, key);
    JoinEnds(Ordered(modifiers, key));
  }

  lemma {:induction false} NormalizedIsNormal(combo: string)
    requires Normalize(combo).Some?
    ensures InNormalForm(Normalize(combo).value) && Normalize(combo).value != []
  {
    NormalizeIsIdempotent(combo);
    NormalFormIsSet(Normalize(combo).value);
  }

  lemma {:induction false} CleanedIsGood(elements: seq<Element>)
    ensures GoodList(Cleaned(elements), |Cleaned(elements)|) && AllInNormalForm(Cleaned(elements))
  {
    hide InNormalForm, Normalize;
    if elements != [] {
      var last := elements[|elements| - 1];
      CleanedIsGood(elements[..|elements| - 1]);
      if last.Text? && Normalize(last.text).Some? {
        NormalizedIsNormal(last.text);
      }
    }
  }

  lemma {:induction false} CutIsGood(combos: seq<string>, slots: nat)
    requires GoodList(combos, |combos|) && AllInNormalForm(combos)
    ensures GoodList(Cut(combos, slots), slots) && AllInNormalForm(Cut(combos, slots))
  {
    hide InNormalForm;
  }

  lemma {:induction false} GoodListIsClean(combos: seq<string>, slots: nat)
    requires GoodList(combos, slots) && AllInNormalForm(combos)
    ensures Cleaned(AsElements(combos)) == combos
  {
    hide Normalize;
    if combos != [] {
      var n := |combos| - 1;
      GoodListIsClean(combos[..n], slots);
      assert AsElements(combos)[..n] == AsElements(combos[..n]);
      assert combos == combos[..n] + [combos[n]];
      assert InNormalForm(combos[n]);
    }
  }

  /**
   Whatever was stored, what is read back is made of good lists of editable actions that
   differ from their defaults,
   */
  lemma {:induction false} SanitizedIsGood(table: seq<Action>, stored: Stored, id: string)
    requires id in Sanitized(table, stored)
    ensures var o := Sanitized(table, stored); var a := Find(table, id);
      a.Some? && a.value in table && a.value.id == id && !a.value.fixed
      && GoodList(o[id], a.value.slots) && AllInNormalForm(o[id]) && o[id] != a.value.defaults
  {
    hide InNormalForm, Normalize, Cleaned;
    FindFinds(table, id);
    CleanedIsGood(stored.entries[id].elements);
    CutIsGood(Cleaned(stored.entries[id].elements), Find(table, id).value.slots);
  }

  /** and storing and reading that again changes nothing. */
  lemma {:induction false} SanitizingIsIdempotent(table: seq<Action>, stored: Stored)
    ensures Sanitized(table, AsStored(Sanitized(table, stored))) == Sanitized(table, stored)
  {
    var o := Sanitized(table, stored);
    forall id | id in o
      ensures Counts(table, id, AsStored(o).entries[id])
      ensures Cut(Cleaned(AsStored(o).entries[id].elements), Find(table, id).value.slots) == o[id]
    {
      SanitizedIsGood(table, stored, id);
      GoodListIsClean(o[id], Find(table, id).value.slots);
    }
  }

  /** An element is a text that is accepted as this combination. */
  predicate Reads(element: Element, combo: string) {
    element.Text? && Normalize(element.text) == Some(combo)
  }

  /** The combinations these elements are accepted as, each at the place where it is read first. */
  ghost predicate AreFirsts(elements: seq<Element>, list: seq<string>, places: seq<nat>) {
    && |places| == |list|
    && (forall k, l | 0 <= k < l < |places| :: places[k] < places[l])
    && (forall k | 0 <= k < |places| :: IsFirst(elements, list[k], places[k]))
    && (forall i, combo | 0 <= i < |elements| && Reads(elements[i], combo) :: combo in list)
  }

  ghost predicate IsFirst(elements: seq<Element>, combo: string, place: nat) {
    place < |elements| && Reads(elements[place], combo) && forall i | 0 <= i < place :: !Reads(elements[i], combo)
  }

  lemma {:induction false} OneMoreFirst(elements: seq<Element>, list: seq<string>, places: seq<nat>, last: Element)
    requires AreFirsts(elements, list, places)
    ensures var all := elements + [last];
      if exists combo :: Reads(last, combo) && combo !in list
      then forall combo | Reads(last, combo) :: AreFirsts(all, list + [combo], places + [|elements|])
      else AreFirsts(all, list, places)
  {
    var all := elements + [last];
    assert forall combo, place | IsFirst(elements, combo, place) :: IsFirst(all, combo, place);
    forall combo | Reads(last, combo) && combo !in list
      ensures AreFirsts(all, list + [combo], places + [|elements|])
    {
      assert IsFirst(all, combo, |elements|);
      hide Normalize, IsFirst;
    }
    hide Normalize, IsFirst;
  }

  lemma {:induction false} CleanedAreFirsts(elements: seq<Element>) returns (places: seq<nat>)
    ensures AreFirsts(elements, Cleaned(elements), places)
  {
    if elements == [] {
      places := [];
    } else {
      var n := |elements| - 1;
      var last, before := elements[n], Cleaned(elements[..n]);
      places := CleanedAreFirsts(elements[..n]);
      OneMoreFirst(elements[..n], before, places, last);
      assert elements[..n] + [last] == elements;
      hide Normalize, AreFirsts;
      if last.Text? && Normalize(last.text).Some? && Normalize(last.text).value !in before {
        assert Reads(last, Normalize(last.text).value);
        places := places + [n];
      } else {
        assert forall combo | Reads(last, combo) :: combo in before;
      }
    }
  }

  /**
   Of what was stored an editable action of the table gets the combinations its texts are
   accepted as, each once where it comes first, and no more than it has slots, unless that
   repeats its defaults; and nothing else is read.
   */
  lemma {:induction false} ReadBackIs(table: seq<Action>, entries: map<string, Item>, a: Action)
    returns (all: seq<string>, places: seq<nat>)
    requires (forall i, j | 0 <= i < j < |table| :: table[i].id != table[j].id) && a in table
    ensures a.id in entries && entries[a.id].List? ==> AreFirsts(entries[a.id].elements, all, places)
    ensures var o, list := Sanitized(table, Object(entries)), if |all| <= a.slots then all else all[..a.slots];
      && (a.id in o <==> a.id in entries && entries[a.id].List? && !a.fixed && list != a.defaults)
      && (a.id in o ==> o[a.id] == list)
      && (forall id | id in o :: exists b | b in table :: b.id == id)
    ensures Sanitized(table, NotAnObject) == map[]
  {
    all, places := [], [];
    if a.id in entries && entries[a.id].List? {
      all := Cleaned(entries[a.id].elements);
      places := CleanedAreFirsts(entries[a.id].elements);
    }
    hide Cleaned, AreFirsts;
    FindFinds(table, a.id);
    SameIdSameAction(table, a, Find(table, a.id).value);
    hide Find;
    forall id | id in Sanitized(table, Object(entries))
      ensures exists b | b in table :: b.id == id
    {
      FindFinds(table, id);
    }
  }

  /** The identifiers whose override repeats the action's defaults. */
  function Repeating(table: seq<Action>, o: Overrides): set<string> {
    set id | id in o && Find(table, id).Some? && o[id] == Find(table, id).value.defaults
  }

  lemma {:induction false} SanitizedIs(table: seq<Action>, o: Overrides)
    requires GoodTable(table) && Sane(table, o) && NormalOverrides(o)
    ensures Sanitized(table, AsStored(o)) == o - Repeating(table, o)
  {
    hide InNormalForm, Cleaned;
    var entries := AsStored(o).entries;
    forall id | id in o
      ensures Find(table, id).Some? && Cut(Cleaned(entries[id].elements), Find(table, id).value.slots) == o[id]
      ensures Counts(table, id, entries[id]) <==> id !in Repeating(table, o)
    {
      FindFinds(table, id);
      var b :| b in table && b.id == id && !b.fixed;
      SameIdSameAction(table, b, Find(table, id).value);
      GoodListIsClean(o[id], b.slots);
    }
  }

  lemma {:induction false} RepeatingIff(table: seq<Action>, o: Overrides, a: Action)
    requires UniqueIds(table) && a in table
    ensures a.id in Repeating(table, o) <==> a.id in o && o[a.id] == a.defaults
  {
    FindFinds(table, a.id);
    if Find(table, a.id).Some? {
      SameIdSameAction(table, a, Find(table, a.id).value);
    }
  }

  lemma {:induction false} DroppingRepeats(table: seq<Action>, o: Overrides, a: Action, combo: string)
    requires GoodTable(table) && Clean(table, o) && a in table
    ensures combo in BindingsFor(Resolve(table, o - Repeating(table, o)), a.id)
       <==> combo in BindingsFor(Resolve(table, o), a.id)
  {
    hide Resolve, BindingsFor, TakenByStrong, Repeating, GoodList;
    var next := o - Repeating(table, o);
    ResetKeepsClean(table, o, Repeating(table, o));
    RepeatingIff(table, o, a);
    if IsStrong(next, a) {
      StrongGetsAll(table, o, a);
      StrongGetsAll(table, next, a);
    } else {
      WeakGetsTheRest(table, next, a, combo);
      if IsStrong(o, a) {
        StrongGetsAll(table, o, a);
        if combo in a.defaults {
          NobodyElseWants(table, o, next, a, combo);
        }
      } else {
        WeakGetsTheRest(table, o, a, combo);
        if combo in a.defaults {
          SameAreTaken(table, o, a, combo);
        }
      }
    }
  }

  lemma {:induction false} SameMembersSameList(combos: seq<string>, p: string -> bool, q: string -> bool)
    requires forall c :: c in Keep(combos, p) <==> c in Keep(combos, q)
    ensures Keep(combos, p) == Keep(combos, q)
  {
    KeepKeeps(combos, p);
    KeepKeeps(combos, q);
    KeepAgrees(combos, p, q);
  }

  /** What an action gets is its wanted list with some combinations left out. */
  lemma {:induction false} GotIsKept(table: seq<Action>, o: Overrides, a: Action) returns (p: string -> bool)
    requires UniqueIds(table) && a in table
    ensures a.id in Resolve(table, o) && Resolve(table, o)[a.id] == Keep(Wanted(o, a), p)
  {
    var order := Order(table, o);
    var i := PlaceOf(table, o, a);
    var claims := Claimed(o, order[..i]);
    p := combo => !IsClaimed(claims, a.scope, combo);
  }

  lemma {:induction false} SameListAfterDropping(table: seq<Action>, o: Overrides, a: Action)
    requires GoodTable(table) && Clean(table, o) && a in table
    ensures BindingsFor(Resolve(table, o - Repeating(table, o)), a.id) == BindingsFor(Resolve(table, o), a.id)
  {
    var next := o - Repeating(table, o);
    RepeatingIff(table, o, a);
    assert Wanted(next, a) == Wanted(o, a);
    var p := GotIsKept(table, o, a);
    var q := GotIsKept(table, next, a);
    forall combo
      ensures combo in Keep(Wanted(o, a), p) <==> combo in Keep(Wanted(o, a), q)
    {
      DroppingRepeats(table, o, a, combo);
    }
    SameMembersSameList(Wanted(o, a), p, q);
  }

  lemma {:induction false} ResolvedKeys(o: Overrides, order: seq<Action>)
    ensures forall id :: id in ResolvedIn(o, order) <==> exists a | a in order :: a.id == id
  {
    if order != [] {
      var n := |order| - 1;
      ResolvedKeys(o, order[..n]);
      assert order == order[..n] + [order[n]];
    }
  }

  function Ids(table: seq<Action>): set<string> {
    set a | a in table :: a.id
  }

  lemma {:induction false} ResolveBindsAll(table: seq<Action>, o: Overrides)
    ensures Resolve(table, o).Keys == Ids(table)
  {
    ResolvedKeys(o, Order(table, o));
    OrderIsWhole(table, o);
  }

  /**
   Storing and reading back loses nothing: overrides that repeat the defaults are
   dropped and lose their priority, but every action is bound as before.
   */
  lemma {:induction false} RoundTrip(table: seq<Action>, o: Overrides)
    requires GoodTable(table) && Clean(table, o) && NormalOverrides(o)
    ensures Resolve(table, Sanitized(table, AsStored(o))) == Resolve(table, o)
    ensures Clean(table, Sanitized(table, AsStored(o)))
  {
    var next := o - Repeating(table, o);
    SanitizedIs(table, o);
    ResetKeepsClean(table, o, Repeating(table, o));
    ResolveBindsAll(table, o);
    ResolveBindsAll(table, next);
    hide Resolve, Sanitized, AsStored, Repeating, Clean, GoodTable;
    forall id | id in Resolve(table, o)
      ensures id in Resolve(table, next) && Resolve(table, next)[id] == Resolve(table, o)[id]
    {
      assert id in Resolve(table, o).Keys;
      var a :| a in table && a.id == id;
      SameListAfterDropping(table, o, a);
    }
    assert Resolve(table, next).Keys == Resolve(table, o).Keys;
  }

  lemma {:induction false} NobodyElseWants(table: seq<Action>, o: Overrides, next: Overrides, a: Action, combo: string)
    requires Clean(table, o) && a in table && IsStrong(o, a) && combo in Wanted(o, a)
    requires next.Keys <= o.Keys && forall id | id in next :: next[id] == o[id]
    ensures !TakenByStrong(table, next, a, combo)
  {
    forall b | b in table && b.id != a.id && IsStrong(next, b) && Overlap(b.scope, a.scope)
      ensures combo !in Wanted(next, b)
    {
      EarlierWantsOther(table, o, a, b, combo);
    }
  }

  lemma {:induction false} SameAreTaken(table: seq<Action>, o: Overrides, a: Action, combo: string)
    requires GoodTable(table) && a in table && combo in a.defaults
    ensures TakenByStrong(table, o - Repeating(table, o), a, combo) <==> TakenByStrong(table, o, a, combo)
  {
    var next := o - Repeating(table, o);
    if TakenByStrong(table, o, a, combo) {
      var b :| b in table && b.id != a.id && IsStrong(o, b) && Overlap(b.scope, a.scope) && combo in Wanted(o, b);
      RepeatingIff(table, o, b);
      assert Disjoint(b.defaults, a.defaults);
      assert IsStrong(next, b) && Wanted(next, b) == Wanted(o, b);
    }
    if TakenByStrong(table, next, a, combo) {
      var b :| b in table && b.id != a.id && IsStrong(next, b) && Overlap(b.scope, a.scope) && combo in Wanted(next, b);
      assert IsStrong(o, b) && Wanted(o, b) == Wanted(next, b);
    }
  }

  // Whole sessions.

  datatype Edit =
    | Assign(id: string, slot: nat, combo: string)
    | Clear(id: string, slot: nat)
    | Reset(id: string)
    | ResetAll
    | Reload

  /** What the provider makes of an edit; reloading reads back what every change stores. */
  function Edited(table: seq<Action>, o: Overrides, edit: Edit): Overrides {
    match edit
    case Assign(id, slot, combo) => Assigned(table, o, Resolve(table, o), id, slot, combo)
    case Clear(id, slot) => Cleared(table, o, Resolve(table, o), id, slot)
    case Reset(id) => o - {id}
    case ResetAll => map[]
    case Reload => Sanitized(table, AsStored(o))
  }

  function EditedBy(table: seq<Action>, edits: seq<Edit>): Overrides {
    if edits == [] then map[] else Edited(table, EditedBy(table, edits[..|edits| - 1]), edits[|edits| - 1])
  }

  lemma {:induction false} EditKeepsClean(table: seq<Action>, o: Overrides, edit: Edit)
    requires GoodTable(table) && Clean(table, o) && NormalOverrides(o)
    ensures Clean(table, Edited(table, o, edit))
  {
    hide Normalize, InNormalForm, Find, Resolve, Clean, GoodTable, Sanitized, AsStored;
    match edit {
      case Assign(id, slot, combo) =>
        AssignIs(table, o, Resolve(table, o), id, slot, combo);
        FindFinds(table, id);
        if Find(table, id).Some? && Normalize(combo).Some? {
          NormalizedIsNormal(combo);
          if Accepts(table, Resolve(table, o), Find(table, id).value, Normalize(combo).value) {
            AssignKeepsClean(table, o, Find(table, id).value, slot, Normalize(combo).value);
          }
        }
      case Clear(id, slot) =>
        FindFinds(table, id);
        if Find(table, id).Some? && !Find(table, id).value.fixed {
          ClearKeepsClean(table, o, Find(table, id).value, slot);
        }
      case Reset(id) => ResetKeepsClean(table, o, {id});
      case ResetAll => NothingIsClean(table);
      case Reload => RoundTrip(table, o);
    }
  }

  lemma {:induction false} NothingIsClean(table: seq<Action>)
    requires GoodTable(table)
    ensures Clean(table, map[])
  {
  }

  // Resetting.

  /** A fixed action, or one with an override, wants a combination in a scope that overlaps that of `a`. */
  ghost predicate IsWantedBeside(table: seq<Action>, o: Overrides, a: Action, combo: string) {
    exists b | b in table :: b.id != a.id && Overlap(b.scope, a.scope) &&
      ((b.fixed && combo in b.defaults) || (!b.fixed && b.id in o && combo in o[b.id]))
  }

  lemma {:induction false} TakenIffWantedBeside(table: seq<Action>, o: Overrides, a: Action, combo: string)
    ensures TakenByStrong(table, o, a, combo) <==> IsWantedBeside(table, o, a, combo)
  {
    if TakenByStrong(table, o, a, combo) {
      var b :| b in table && b.id != a.id && IsStrong(o, b) && Overlap(b.scope, a.scope) && combo in Wanted(o, b);
      assert IsWantedBeside(table, o, a, combo);
    }
    if IsWantedBeside(table, o, a, combo) {
      var b :| b in table && b.id != a.id && Overlap(b.scope, a.scope) &&
        ((b.fixed && combo in b.defaults) || (!b.fixed && b.id in o && combo in o[b.id]));
      assert TakenByStrong(table, o, a, combo);
    }
  }

  /**
   Resetting an action takes its override away, and no other; the action then has its
   defaults but for those that a fixed action or one with an override wants in an
   overlapping scope, and every such action keeps its list.
   */
  lemma {:induction false} ResetGivesDefaults(table: seq<Action>, o: Overrides, a: Action)
    requires GoodTable(table) && Clean(table, o) && a in table && !a.fixed
    ensures var next := Edited(table, o, Reset(a.id)); var r := Resolve(table, next);
      && a.id !in next && (forall id | id != a.id :: id in next <==> id in o)
      && (forall id | id in next :: id in o && next[id] == o[id])
      && BindingsFor(r, a.id) == Keep(a.defaults, combo => !IsWantedBeside(table, o, a, combo))
      && forall b | b in table && b.id != a.id ::
        (b.fixed ==> BindingsFor(r, b.id) == b.defaults) && (!b.fixed && b.id in o ==> BindingsFor(r, b.id) == o[b.id])
  {
    var next := Edited(table, o, Reset(a.id));
    ResetKeepsClean(table, o, {a.id});
    var p := GotIsKept(table, next, a);
    var q := (combo: string) => !IsWantedBeside(table, o, a, combo);
    assert Wanted(next, a) == a.defaults && !IsStrong(next, a);
    forall combo
      ensures combo in Keep(a.defaults, p) <==> combo in Keep(a.defaults, q)
    {
      WeakGetsTheRest(table, next, a, combo);
      TakenIffWantedBeside(table, next, a, combo);
      SameBeside(table, o, next, a, combo);
      KeepKeeps(a.defaults, q);
    }
    SameMembersSameList(a.defaults, p, q);
    forall b | b in table && b.id != a.id && (b.fixed || b.id in o)
      ensures BindingsFor(Resolve(table, next), b.id) == Wanted(o, b)
    {
      StrongGetsAll(table, next, b);
    }
  }

  lemma {:induction false} SameBeside(table: seq<Action>, o: Overrides, next: Overrides, a: Action, combo: string)
    requires next == o - {a.id}
    ensures IsWantedBeside(table, o, a, combo) <==> IsWantedBeside(table, next, a, combo)
  {
  }

  /** Resetting all gives every action exactly its defaults. */
  lemma {:induction false} ResetAllGivesDefaults(table: seq<Action>, o: Overrides, a: Action)
    requires GoodTable(table) && a in table
    ensures var next := Edited(table, o, ResetAll);
      next == map[] && BindingsFor(Resolve(table, next), a.id) == a.defaults
  {
    var next: Overrides := map[];
    NothingIsClean(table);
    if a.fixed {
      StrongGetsAll(table, next, a);
    } else {
      var p := GotIsKept(table, next, a);
      forall combo | combo in a.defaults
        ensures p(combo)
      {
        WeakGetsTheRest(table, next, a, combo);
        KeepKeeps(a.defaults, p);
        NobodyWantsDefaults(table, a, combo);
      }
      KeepsAll(a.defaults, p);
    }
  }

  lemma {:induction false} NobodyWantsDefaults(table: seq<Action>, a: Action, combo: string)
    requires GoodTable(table) && a in table && combo in a.defaults
    ensures !TakenByStrong(table, map[], a, combo)
  {
    forall b | b in table && b.id != a.id && Overlap(b.scope, a.scope)
      ensures combo !in b.defaults
    {
      assert Disjoint(b.defaults, a.defaults);
    }
  }

  lemma {:induction false} ResolvedAreNormal(table: seq<Action>, o: Overrides, id: string)
    requires GoodTable(table) && NormalDefaults(table) && NormalOverrides(o)
    ensures AllInNormalForm(BindingsFor(Resolve(table, o), id))
  {
    hide InNormalForm;
    ResolveBindsAll(table, o);
    if id in Resolve(table, o).Keys {
      var a :| a in table && a.id == id;
      var p := GotIsKept(table, o, a);
      KeepKeeps(Wanted(o, a), p);
    }
  }

  lemma {:induction false} AssignKeepsNormal(table: seq<Action>, o: Overrides, a: Action, slot: nat, combo: string)
    requires GoodTable(table) && NormalDefaults(table) && NormalOverrides(o) && a in table && InNormalForm(combo)
    ensures NormalOverrides(AfterAssign(table, o, Resolve(table, o), a, slot, combo))
  {
    hide InNormalForm;
    var r := Resolve(table, o);
    var next := AfterAssign(table, o, r, a, slot, combo);
    var current := BindingsFor(r, a.id);
    ResolvedAreNormal(table, o, a.id);
    KeepKeeps(Put(current, slot, combo), IsSet);
    assert forall c | c in Put(current, slot, combo) :: c in current || c == combo;
    assert AllInNormalForm(Cut(Placed(current, slot, combo), a.slots));
    forall id | id in next
      ensures AllInNormalForm(next[id])
    {
      ResolvedAreNormal(table, o, id);
      RelievedAt(o, Conflicts(table, r, a, combo), r, combo, id);
      KeepKeeps(BindingsFor(r, id), value => value != combo);
    }
  }

  lemma {:induction false} EditKeepsNormal(table: seq<Action>, o: Overrides, edit: Edit)
    requires GoodTable(table) && NormalDefaults(table) && NormalOverrides(o)
    ensures NormalOverrides(Edited(table, o, edit))
  {
    hide Normalize, InNormalForm;
    match edit {
      case Assign(id, slot, combo) =>
        AssignIs(table, o, Resolve(table, o), id, slot, combo);
        FindFinds(table, id);
        if Find(table, id).Some? && Normalize(combo).Some? {
          NormalizedIsNormal(combo);
          AssignKeepsNormal(table, o, Find(table, id).value, slot, Normalize(combo).value);
        }
      case Clear(id, _) => ResolvedAreNormal(table, o, id);
      case Reset(_) =>
      case ResetAll =>
      case Reload =>
        forall id | id in Sanitized(table, AsStored(o))
          ensures AllInNormalForm(Sanitized(table, AsStored(o))[id])
        {
          SanitizedIsGood(table, AsStored(o), id);
        }
    }
  }

  lemma {:induction false} EditsKeepClean(table: seq<Action>, edits: seq<Edit>)
    requires GoodTable(table) && NormalDefaults(table)
    ensures Clean(table, EditedBy(table, edits)) && NormalOverrides(EditedBy(table, edits))
  {
    if edits == [] {
      NothingIsClean(table);
    } else {
      var before := edits[..|edits| - 1];
      EditsKeepClean(table, before);
      hide InNormalForm, Clean, Edited;
      EditKeepsClean(table, EditedBy(table, before), edits[|edits| - 1]);
      EditKeepsNormal(table, EditedBy(table, before), edits[|edits| - 1]);
    }
  }

  /** After any edits, every stored override is bound in full. */
  lemma {:induction false} OverridesSurvive(table: seq<Action>, edits: seq<Edit>, id: string)
    requires GoodTable(table) && NormalDefaults(table) && id in EditedBy(table, edits)
    ensures BindingsFor(Resolve(table, EditedBy(table, edits)), id) == EditedBy(table, edits)[id]
  {
    hide InNormalForm, Resolve;
    var o := EditedBy(table, edits);
    EditsKeepClean(table, edits);
    var a :| a in table && a.id == id && !a.fixed;
    StrongGetsAll(table, o, a);
  }

  /** After any edits, reading back what is stored binds every action as before. */
  lemma {:induction false} ReloadingChangesNothing(table: seq<Action>, edits: seq<Edit>)
    requires GoodTable(table) && NormalDefaults(table)
    ensures Resolve(table, EditedBy(table, edits + [Reload])) == Resolve(table, EditedBy(table, edits))
  {
    hide InNormalForm, Resolve, Clean;
    EditsKeepClean(table, edits);
    RoundTrip(table, EditedBy(table, edits));
    assert (edits + [Reload])[..|edits|] == edits;
  }
}
