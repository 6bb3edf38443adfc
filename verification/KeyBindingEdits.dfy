/** What editing the overrides does, over any number of edits. */
module KeyBindingEdits {
  import opened Wrappers
  import opened KeyCombos
  import opened KeyBindings
  import opened KeyBindingsTheorems

  lemma {:induction false} FindFinds(table: seq<Action>, id: string)
    ensures Find(table, id).Some? ==> Find(table, id).value in table && Find(table, id).value.id == id
    ensures Find(table, id).None? ==> forall a | a in table :: a.id != id
  {
    if table != [] && table[|table| - 1].id != id {
      FindFinds(table[..|table| - 1], id);
      assert table == table[..|table| - 1] + [table[|table| - 1]];
    }
  }

  lemma {:induction false} RelievedAt(o: Overrides, conflicts: seq<Action>, r: Bindings, combo: string, id: string)
    ensures var next := Relieved(o, conflicts, r, combo);
      if exists i | 0 <= i < |conflicts| :: conflicts[i].id == id
      then id in next && next[id] == Keep(BindingsFor(r, id), value => value != combo)
      else (id in next <==> id in o) && (id in o ==> next[id] == o[id])
  {
    if conflicts != [] {
      var n := |conflicts| - 1;
      RelievedAt(o, conflicts[..n], r, combo, id);
      if i :| 0 <= i < n && conflicts[i].id == id {
        assert conflicts[..n][i].id == id;
      }
    }
  }

  /**
   Whether an assignment goes through: to a known action that is not fixed, of a new
   combination no fixed action holds.
   */
  predicate Accepts(table: seq<Action>, r: Bindings, a: Action, combo: string) {
    && !a.fixed && combo !in BindingsFor(r, a.id)
    && forall b | b in table && IsRival(r, a, combo, b) :: !b.fixed
  }

  /** Another action that holds a combination in an overlapping scope. */
  predicate IsRival(r: Bindings, a: Action, combo: string, b: Action) {
    b.id != a.id && Overlap(a.scope, b.scope) && combo in BindingsFor(r, b.id)
  }

  lemma {:induction false} ConflictsAreRivals(table: seq<Action>, r: Bindings, a: Action, combo: string)
    ensures forall b :: b in Conflicts(table, r, a, combo) <==> b in table && IsRival(r, a, combo, b)
  {
    KeepActionsKeeps(table, (other: Action) =>
      other.id != a.id && Overlap(a.scope, other.scope) && combo in BindingsFor(r, other.id));
  }

  function AfterAssign(table: seq<Action>, o: Overrides, r: Bindings, a: Action, slot: nat, combo: string): Overrides {
    var relieved := Relieved(o, Conflicts(table, r, a, combo), r, combo);
    relieved[a.id := Cut(Placed(BindingsFor(r, a.id), slot, combo), a.slots)]
  }

  /** An assignment is refused and changes nothing, or it is accepted. */
  lemma {:induction false} AssignIs(table: seq<Action>, o: Overrides, r: Bindings, id: string, slot: nat, combo: string)
    ensures var a := Find(table, id); var n := Normalize(combo);
      Assigned(table, o, r, id, slot, combo) ==
        if a.Some? && n.Some? && Accepts(table, r, a.value, n.value)
        then AfterAssign(table, o, r, a.value, slot, n.value)
        else o
  {
    hide Normalize, Find, Conflicts, Relieved, Placed;
    FindFinds(table, id);
    var a, n := Find(table, id), Normalize(combo);
    if a.Some? && n.Some? {
      ConflictsAreRivals(table, r, a.value, n.value);
      var conflicts := Conflicts(table, r, a.value, n.value);
      if i :| 0 <= i < |conflicts| && conflicts[i].fixed {
        assert conflicts[i] in conflicts;
      }
      if !a.value.fixed && n.value !in BindingsFor(r, id) && !Accepts(table, r, a.value, n.value) {
        var b :| b in table && IsRival(r, a.value, n.value, b) && b.fixed;
        assert b in conflicts;
      }
    }
  }

  /** What an accepted assignment makes each action want. */
  lemma {:induction false} WantedAfterAssign(table: seq<Action>, o: Overrides, r: Bindings, a: Action, slot: nat,
      combo: string, b: Action)
    requires UniqueIds(table) && a in table && b in table && Accepts(table, r, a, combo)
    ensures var next := AfterAssign(table, o, r, a, slot, combo);
      if b == a then IsStrong(next, b) && Wanted(next, b) == Cut(Placed(BindingsFor(r, a.id), slot, combo), a.slots)
      else if IsRival(r, a, combo, b)
      then IsStrong(next, b) && Wanted(next, b) == Keep(BindingsFor(r, b.id), value => value != combo)
      else (IsStrong(next, b) <==> IsStrong(o, b)) && Wanted(next, b) == Wanted(o, b)
  {
    var conflicts := Conflicts(table, r, a, combo);
    ConflictsAreRivals(table, r, a, combo);
    RelievedAt(o, conflicts, r, combo, b.id);
    if b != a {
      if b.id == a.id {
        SameIdSameAction(table, a, b);
      }
      if IsRival(r, a, combo, b) {
        var i :| 0 <= i < |conflicts| && conflicts[i] == b;
        assert conflicts[i].id == b.id;
      } else if exists i | 0 <= i < |conflicts| :: conflicts[i].id == b.id {
        var i :| 0 <= i < |conflicts| && conflicts[i].id == b.id;
        assert conflicts[i] in conflicts;
        SameIdSameAction(table, conflicts[i], b);
      }
    }
  }

  lemma {:induction false} AllSetStays(combos: seq<string>)
    requires forall i | 0 <= i < |combos| :: combos[i] != []
    ensures Keep(combos, IsSet) == combos
  {
    KeepsAll(combos, IsSet);
  }

  function Put(current: seq<string>, slot: nat, combo: string): seq<string> {
    if slot < |current| then current[slot := combo] else current + [combo]
  }

  lemma {:induction false} PlacedIsPut(current: seq<string>, slots: nat, slot: nat, combo: string)
    requires GoodList(current, slots) && combo != []
    ensures Placed(current, slot, combo) == Put(current, slot, combo)
  {
    AllSetStays(Put(current, slot, combo));
  }

  /** A new combination takes its slot, or comes last; it only fails to fit behind a full list. */
  lemma {:induction false} PutStaysGood(current: seq<string>, slots: nat, slot: nat, combo: string)
    requires GoodList(current, slots) && combo != [] && combo !in current
    ensures var list := Cut(Put(current, slot, combo), slots);
      && GoodList(list, slots)
      && (combo in list <==> slot < slots || |current| < slots)
      && (forall c | c in list && c != combo :: c in current)
  {
    var placed := Put(current, slot, combo);
    if slot < |current| {
      assert placed[slot] == combo;
    } else if |current| < slots {
      assert placed[|current|] == combo;
    } else {
      assert placed[..slots] == current;
    }
  }

  // Whole assignments.

  /** After an accepted assignment strong actions want only what they had, and the action the new combination. */
  lemma {:induction false} AssignStaysInside(table: seq<Action>, o: Overrides, a: Action, slot: nat, combo: string,
      b: Action)
    requires GoodTable(table) && Clean(table, o) && a in table && b in table && combo != []
    requires Accepts(table, Resolve(table, o), a, combo)
    requires IsStrong(AfterAssign(table, o, Resolve(table, o), a, slot, combo), b)
    ensures var r := Resolve(table, o); var next := AfterAssign(table, o, r, a, slot, combo);
      && GoodList(Wanted(next, b), b.slots)
      && forall c | c in Wanted(next, b) && !(c == combo && b == a) ::
           c in BindingsFor(r, b.id) && (c == combo ==> !Overlap(a.scope, b.scope))
  {
    var r := Resolve(table, o);
    WantedAfterAssign(table, o, r, a, slot, combo, b);
    ResolvedIsGood(table, o, b);
    if b == a {
      PlacedIsPut(BindingsFor(r, a.id), a.slots, slot, combo);
      PutStaysGood(BindingsFor(r, a.id), a.slots, slot, combo);
    } else if IsRival(r, a, combo, b) {
      KeepStaysGood(BindingsFor(r, b.id), value => value != combo, b.slots);
      KeepKeeps(BindingsFor(r, b.id), value => value != combo);
    } else {
      StrongGetsAll(table, o, b);
      if b.id == a.id {
        SameIdSameAction(table, a, b);
      }
    }
  }

  lemma {:induction false} ResolvedIsGood(table: seq<Action>, o: Overrides, a: Action)
    requires GoodTable(table) && Sane(table, o) && a in table
    ensures GoodList(BindingsFor(Resolve(table, o), a.id), a.slots)
  {
    var order := Order(table, o);
    var i := PlaceOf(table, o, a);
    var claims := Claimed(o, order[..i]);
    KeepStaysGood(Wanted(o, a), c => !IsClaimed(claims, a.scope, c), a.slots);
  }

  lemma {:induction false} AssignKeepsClean(table: seq<Action>, o: Overrides, a: Action, slot: nat, combo: string)
    requires GoodTable(table) && Clean(table, o) && a in table && combo != []
    requires Accepts(table, Resolve(table, o), a, combo)
    ensures Clean(table, AfterAssign(table, o, Resolve(table, o), a, slot, combo))
  {
    var r := Resolve(table, o);
    var next := AfterAssign(table, o, r, a, slot, combo);
    ResolutionHasNoConflicts(table, o);
    forall id | id in next
      ensures exists b | b in table :: b.id == id && !b.fixed
    {
      OnlyEditableGetOverrides(table, o, r, a, slot, combo, id);
    }
    forall b | b in table && b.id in next
      ensures GoodList(next[b.id], b.slots)
    {
      EditableIsNotFixed(table, next, b);
      AssignStaysInside(table, o, a, slot, combo, b);
    }
    forall b, c | b in table && c in table && b.id != c.id && Overlap(b.scope, c.scope) && IsStrong(next, b)
      && IsStrong(next, c)
      ensures Disjoint(Wanted(next, b), Wanted(next, c))
    {
      AssignKeepsApart(table, o, a, slot, combo, b, c);
    }
  }

  lemma {:induction false} AssignKeepsApart(table: seq<Action>, o: Overrides, a: Action, slot: nat, combo: string,
      b: Action, c: Action)
    requires GoodTable(table) && Clean(table, o) && a in table && combo != []
    requires Accepts(table, Resolve(table, o), a, combo)
    requires b in table && c in table && b.id != c.id && Overlap(b.scope, c.scope)
    requires var next := AfterAssign(table, o, Resolve(table, o), a, slot, combo);
      IsStrong(next, b) && IsStrong(next, c)
    ensures var next := AfterAssign(table, o, Resolve(table, o), a, slot, combo);
      Disjoint(Wanted(next, b), Wanted(next, c))
  {
    AssignStaysInside(table, o, a, slot, combo, b);
    AssignStaysInside(table, o, a, slot, combo, c);
    HaveNothingInCommon(table, o, b, c);
    hide AfterAssign, Resolve, Wanted, BindingsFor, GoodList, Accepts, IsStrong, GoodTable, Clean;
  }

  lemma {:induction false} HaveNothingInCommon(table: seq<Action>, o: Overrides, b: Action, c: Action)
    requires UniqueIds(table) && b in table && c in table && b.id != c.id && Overlap(b.scope, c.scope)
    ensures Disjoint(BindingsFor(Resolve(table, o), b.id), BindingsFor(Resolve(table, o), c.id))
  {
    ResolutionHasNoConflicts(table, o);
  }

  lemma {:induction false} EditableIsNotFixed(table: seq<Action>, o: Overrides, b: Action)
    requires UniqueIds(table) && b in table && b.id in o
    requires forall id | id in o :: exists a | a in table :: a.id == id && !a.fixed
    ensures !b.fixed
  {
    var a :| a in table && a.id == b.id && !a.fixed;
    SameIdSameAction(table, a, b);
  }

  lemma {:induction false} OnlyEditableGetOverrides(table: seq<Action>, o: Overrides, r: Bindings, a: Action,
      slot: nat, combo: string, id: string)
    requires Sane(table, o) && a in table && Accepts(table, r, a, combo)
    requires id in AfterAssign(table, o, r, a, slot, combo)
    ensures exists b | b in table :: b.id == id && !b.fixed
  {
    var conflicts := Conflicts(table, r, a, combo);
    ConflictsAreRivals(table, r, a, combo);
    RelievedAt(o, conflicts, r, combo, id);
    if i :| 0 <= i < |conflicts| && conflicts[i].id == id {
      assert conflicts[i] in conflicts;
    }
  }

  /**
   An accepted assignment binds the action to exactly its old list with the new
   combination put in; it holds unless the list was full and the slot beyond it,
   and then nothing else that can be live with the action holds it.
   */
  lemma {:induction false} AssignBinds(table: seq<Action>, o: Overrides, a: Action, slot: nat, combo: string)
    requires GoodTable(table) && Clean(table, o) && a in table && combo != []
    requires Accepts(table, Resolve(table, o), a, combo)
    ensures var current := BindingsFor(Resolve(table, o), a.id);
      var after := Resolve(table, AfterAssign(table, o, Resolve(table, o), a, slot, combo));
      && BindingsFor(after, a.id) == Cut(Put(current, slot, combo), a.slots)
      && (combo in BindingsFor(after, a.id) <==> slot < a.slots || |current| < a.slots)
      && (combo in BindingsFor(after, a.id) ==>
            forall b | b in table && b != a && Overlap(a.scope, b.scope) :: combo !in BindingsFor(after, b.id))
  {
    var r := Resolve(table, o);
    var next := AfterAssign(table, o, r, a, slot, combo);
    AssignKeepsClean(table, o, a, slot, combo);
    WantedAfterAssign(table, o, r, a, slot, combo, a);
    StrongGetsAll(table, next, a);
    ResolvedIsGood(table, o, a);
    PlacedIsPut(BindingsFor(r, a.id), a.slots, slot, combo);
    PutStaysGood(BindingsFor(r, a.id), a.slots, slot, combo);
    forall b | b in table && b != a && Overlap(a.scope, b.scope) && combo in BindingsFor(Resolve(table, next), a.id)
      ensures combo !in BindingsFor(Resolve(table, next), b.id)
    {
      if b.id == a.id {
        SameIdSameAction(table, a, b);
      }
      HaveNothingInCommon(table, next, a, b);
    }
  }

  /** The other actions lose nothing to it but the combination itself. */
  lemma {:induction false} AssignTakesNothingElse(table: seq<Action>, o: Overrides, a: Action, slot: nat,
      combo: string, b: Action, other: string)
    requires GoodTable(table) && Clean(table, o) && a in table && b in table && b != a && combo != []
    requires Accepts(table, Resolve(table, o), a, combo)
    requires other in BindingsFor(Resolve(table, o), b.id) && !(other == combo && Overlap(a.scope, b.scope))
    ensures other in BindingsFor(Resolve(table, AfterAssign(table, o, Resolve(table, o), a, slot, combo)), b.id)
  {
    var r := Resolve(table, o);
    var next := AfterAssign(table, o, r, a, slot, combo);
    AssignKeepsClean(table, o, a, slot, combo);
    WantedAfterAssign(table, o, r, a, slot, combo, b);
    if IsStrong(next, b) {
      StrongGetsAll(table, next, b);
      if IsRival(r, a, combo, b) {
        KeepKeeps(BindingsFor(r, b.id), value => value != combo);
      } else {
        StrongGetsAll(table, o, b);
      }
    } else {
      WeakGetsTheRest(table, o, b, other);
      WeakGetsTheRest(table, next, b, other);
      forall d | d in table && d.id != b.id && IsStrong(next, d) && Overlap(d.scope, b.scope)
        ensures other !in Wanted(next, d)
      {
        AssignStaysInside(table, o, a, slot, combo, d);
        HaveNothingInCommon(table, o, d, b);
      }
    }
  }

  // Clearing and resetting.

  function RemoveAt(combos: seq<string>, slot: nat): seq<string> {
    if slot < |combos| then combos[..slot] + combos[slot + 1..] else combos
  }

  function AfterClear(o: Overrides, r: Bindings, a: Action, slot: nat): Overrides {
    o[a.id := RemoveAt(BindingsFor(r, a.id), slot)]
  }

  lemma {:induction false} RemovingStaysGood(combos: seq<string>, slots: nat, slot: nat)
    requires GoodList(combos, slots)
    ensures GoodList(RemoveAt(combos, slot), slots) && forall c | c in RemoveAt(combos, slot) :: c in combos
  {
  }

  lemma {:induction false} ClearStaysInside(table: seq<Action>, o: Overrides, a: Action, slot: nat, b: Action)
    requires GoodTable(table) && Clean(table, o) && a in table && b in table && !a.fixed
    requires IsStrong(AfterClear(o, Resolve(table, o), a, slot), b)
    ensures var next := AfterClear(o, Resolve(table, o), a, slot);
      && GoodList(Wanted(next, b), b.slots)
      && forall c | c in Wanted(next, b) :: c in BindingsFor(Resolve(table, o), b.id)
  {
    ResolvedIsGood(table, o, b);
    if b.id == a.id {
      SameIdSameAction(table, a, b);
      RemovingStaysGood(BindingsFor(Resolve(table, o), a.id), a.slots, slot);
    } else {
      StrongGetsAll(table, o, b);
    }
  }

  lemma {:induction false} ClearKeepsClean(table: seq<Action>, o: Overrides, a: Action, slot: nat)
    requires GoodTable(table) && Clean(table, o) && a in table && !a.fixed
    ensures Clean(table, AfterClear(o, Resolve(table, o), a, slot))
  {
    var next := AfterClear(o, Resolve(table, o), a, slot);
    forall b | b in table && b.id in next
      ensures GoodList(next[b.id], b.slots)
    {
      EditableIsNotFixed(table, next, b);
      ClearStaysInside(table, o, a, slot, b);
    }
    forall b, c | b in table && c in table && b.id != c.id && Overlap(b.scope, c.scope) && IsStrong(next, b)
      && IsStrong(next, c)
      ensures Disjoint(Wanted(next, b), Wanted(next, c))
    {
      ClearStaysInside(table, o, a, slot, b);
      ClearStaysInside(table, o, a, slot, c);
      HaveNothingInCommon(table, o, b, c);
    }
  }

  lemma {:induction false} ResetKeepsClean(table: seq<Action>, o: Overrides, ids: set<string>)
    requires Clean(table, o)
    ensures Clean(table, o - ids)
  {
    var next := o - ids;
    forall b, c | b in table && c in table && b.id != c.id && Overlap(b.scope, c.scope) && IsStrong(next, b)
      && IsStrong(next, c)
      ensures Disjoint(Wanted(next, b), Wanted(next, c))
    {
      assert IsStrong(o, b) && IsStrong(o, c) && Wanted(next, b) == Wanted(o, b) && Wanted(next, c) == Wanted(o, c);
    }
  }
}
