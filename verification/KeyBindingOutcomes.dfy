/** What each edit makes of the overrides and of the bindings, told by the lists themselves. */
module KeyBindingOutcomes {
  import opened Wrappers
  import opened KeyCombos
  import opened KeyBindings
  import opened KeyBindingsTheorems
  import opened KeyBindingEdits
  import opened KeyBindingStorage
  import opened KeyBindingDisputes

  /** A list without one of its combinations. */
  predicate IsWithout(before: seq<string>, now: seq<string>, combo: string) {
    exists k | 0 <= k < |before| :: before[k] == combo && now == before[..k] + before[k + 1..]
  }

  lemma {:induction false} KeepingOthers(combos: seq<string>, combo: string, k: nat)
    requires k < |combos| && combos[k] == combo && forall i, j | 0 <= i < j < |combos| :: combos[i] != combos[j]
    ensures Keep(combos, value => value != combo) == combos[..k] + combos[k + 1..]
  {
    var p := value => value != combo;
    var n := |combos| - 1;
    if k == n {
      KeepsAll(combos[..n], p);
    } else {
      KeepingOthers(combos[..n], combo, k);
      assert combos[k] != combos[n];
      assert combos[..n][k + 1..] + [combos[n]] == combos[k + 1..];
    }
  }

  lemma {:induction false} RelievedIsWithout(combos: seq<string>, slots: nat, combo: string)
    requires GoodList(combos, slots) && combo in combos
    ensures IsWithout(combos, Keep(combos, value => value != combo), combo)
  {
    var k :| 0 <= k < |combos| && combos[k] == combo;
    KeepingOthers(combos, combo, k);
  }

  // Assigning.

  /** The action is fixed or has the combination already, or a fixed action live beside it has. */
  predicate IsRefused(table: seq<Action>, r: Bindings, a: Action, combo: string) {
    a.fixed || combo in BindingsFor(r, a.id) || exists b | b in table ::
      b.fixed && b.id != a.id && Overlap(a.scope, b.scope) && combo in BindingsFor(r, b.id)
  }

  /** The list with a combination in a slot, or behind the last, cut to the slots there are. */
  function NewList(current: seq<string>, slot: nat, combo: string, slots: nat): seq<string> {
    var list := if slot < |current| then current[slot := combo] else current + [combo];
    if |list| <= slots then list else list[..slots]
  }

  /** The action has its new list, its rivals have lost the combination, and no other override has changed. */
  ghost predicate IsAssigned(table: seq<Action>, o: Overrides, next: Overrides, a: Action, slot: nat, combo: string) {
    var r := Resolve(table, o);
    && a.id in next && next[a.id] == NewList(BindingsFor(r, a.id), slot, combo, a.slots)
    && (forall b | b in table && b.id != a.id ::
          if Overlap(a.scope, b.scope) && combo in BindingsFor(r, b.id)
          then b.id in next && IsWithout(BindingsFor(r, b.id), next[b.id], combo)
          else IsAsBefore(o, next, b.id))
    && forall id | id in next :: exists b | b in table :: b.id == id
  }

  predicate IsAsBefore(o: Overrides, next: Overrides, id: string) {
    (id in next <==> id in o) && (id in o ==> next[id] == o[id])
  }

  lemma {:induction false} ConflictsHaveIff(table: seq<Action>, r: Bindings, a: Action, combo: string, b: Action)
    requires UniqueIds(table) && b in table
    ensures var conflicts := Conflicts(table, r, a, combo);
      (exists i | 0 <= i < |conflicts| :: conflicts[i].id == b.id) <==> IsRival(r, a, combo, b)
  {
    var conflicts := Conflicts(table, r, a, combo);
    ConflictsAreRivals(table, r, a, combo);
    hide Conflicts, IsRival;
    if IsRival(r, a, combo, b) {
      var i :| 0 <= i < |conflicts| && conflicts[i] == b;
      assert conflicts[i].id == b.id;
    } else if i :| 0 <= i < |conflicts| && conflicts[i].id == b.id {
      assert conflicts[i] in conflicts;
      SameIdSameAction(table, conflicts[i], b);
    }
  }

  lemma {:induction false} RivalsLoseIt(table: seq<Action>, o: Overrides, a: Action, slot: nat, combo: string,
        b: Action)
    requires GoodTable(table) && Sane(table, o) && a in table && b in table && b.id != a.id
    ensures var r := Resolve(table, o); var next := AfterAssign(table, o, r, a, slot, combo);
      if IsRival(r, a, combo, b)
      then b.id in next && IsWithout(BindingsFor(r, b.id), next[b.id], combo)
      else IsAsBefore(o, next, b.id)
  {
    hide Resolve, Relieved, Conflicts, GoodTable, Sane, IsWithout, Keep, GoodList, Cut, Placed;
    var r := Resolve(table, o);
    TableIsUnique(table);
    ConflictsHaveIff(table, r, a, combo, b);
    RelievedAt(o, Conflicts(table, r, a, combo), r, combo, b.id);
    if IsRival(r, a, combo, b) {
      ResolvedIsGood(table, o, b);
      RelievedIsWithout(BindingsFor(r, b.id), b.slots, combo);
    }
  }

  lemma {:induction false} OwnListIsNew(table: seq<Action>, o: Overrides, a: Action, slot: nat, combo: string)
    requires GoodTable(table) && Sane(table, o) && a in table && combo != []
    ensures var r := Resolve(table, o); var next := AfterAssign(table, o, r, a, slot, combo);
      a.id in next && next[a.id] == NewList(BindingsFor(r, a.id), slot, combo, a.slots)
  {
    hide Resolve, Relieved, Conflicts, GoodTable, Sane, Placed;
    ResolvedIsGood(table, o, a);
    PlacedIsPut(BindingsFor(Resolve(table, o), a.id), a.slots, slot, combo);
  }

  lemma {:induction false} AcceptedIsAssigned(table: seq<Action>, o: Overrides, a: Action, slot: nat, combo: string)
    requires GoodTable(table) && Sane(table, o) && a in table && combo != []
    requires Accepts(table, Resolve(table, o), a, combo)
    ensures IsAssigned(table, o, AfterAssign(table, o, Resolve(table, o), a, slot, combo), a, slot, combo)
  {
    hide Resolve, AfterAssign, GoodTable, Sane, IsWithout, IsAsBefore, Accepts, NewList, BindingsFor, Overlap;
    var r := Resolve(table, o);
    var next := AfterAssign(table, o, r, a, slot, combo);
    OwnListIsNew(table, o, a, slot, combo);
    forall b | b in table && b.id != a.id
      ensures if IsRival(r, a, combo, b)
              then b.id in next && IsWithout(BindingsFor(r, b.id), next[b.id], combo)
              else IsAsBefore(o, next, b.id)
    {
      RivalsLoseIt(table, o, a, slot, combo, b);
    }
    forall id | id in next
      ensures exists b | b in table :: b.id == id
    {
      OnlyEditableGetOverrides(table, o, r, a, slot, combo, id);
    }
  }

  /**
   With any overrides that can be stored: assigning a text changes nothing if it is no
   combination or the assignment is refused, and else exactly the lists of the action and
   of those that held the combination.
   */
  lemma {:induction false} AssigningIs(table: seq<Action>, o: Overrides, a: Action, slot: nat, text: string)
    requires GoodTable(table) && Sane(table, o) && a in table
    ensures var next := Edited(table, o, Assign(a.id, slot, text));
      match Normalize(text)
      case None => next == o
      case Some(combo) =>
        if IsRefused(table, Resolve(table, o), a, combo) then next == o
        else IsAssigned(table, o, next, a, slot, combo)
  {
    var r := Resolve(table, o);
    AssignIs(table, o, r, a.id, slot, text);
    TableIsUnique(table);
    FindFinds(table, a.id);
    SameIdSameAction(table, a, Find(table, a.id).value);
    match Normalize(text) {
      case None =>
      case Some(combo) =>
        NormalizedIsNormal(text);
        assert IsRefused(table, r, a, combo) <==> !Accepts(table, r, a, combo);
        hide Accepts, IsRefused, GoodTable, Sane, Find, Normalize, Resolve, AfterAssign, IsAssigned, Assigned;
        if Accepts(table, r, a, combo) {
          AcceptedIsAssigned(table, o, a, slot, combo);
        }
    }
  }

  /**
   And an assignment that is not refused binds the combination exactly if it has a place
   in the list and no action served earlier comes to hold it.
   */
  lemma {:induction false} AssignedIsBoundIff(table: seq<Action>, o: Overrides, a: Action, slot: nat, text: string,
      combo: string)
    requires GoodTable(table) && Sane(table, o) && a in table && Normalize(text) == Some(combo)
    requires !IsRefused(table, Resolve(table, o), a, combo)
    ensures var current := BindingsFor(Resolve(table, o), a.id);
      var after := Resolve(table, Edited(table, o, Assign(a.id, slot, text)));
      combo in BindingsFor(after, a.id) <==>
        (slot < a.slots || |current| < a.slots) && !IsForestalled(table, o, a, combo)
  {
    var r := Resolve(table, o);
    AssignIs(table, o, r, a.id, slot, text);
    TableIsUnique(table);
    FindFinds(table, a.id);
    SameIdSameAction(table, a, Find(table, a.id).value);
    NormalizedIsNormal(text);
    assert Accepts(table, r, a, combo);
    AssignBindsIff(table, o, a, slot, combo);
    hide Accepts, IsRefused, GoodTable, Sane, Find, Normalize, Resolve, AfterAssign, IsForestalled, Assigned;
  }

  // Clearing and reloading.

  /** Clearing a slot leaves the action with exactly its other bindings, and every other override as it was. */
  lemma {:induction false} ClearingIs(table: seq<Action>, o: Overrides, a: Action, slot: nat)
    requires UniqueIds(table) && a in table
    ensures var next := Edited(table, o, Clear(a.id, slot)); var current := BindingsFor(Resolve(table, o), a.id);
      var left := if slot < |current| then current[..slot] + current[slot + 1..] else current;
      if a.fixed then next == o
      else next == o[a.id := left] && BindingsFor(Resolve(table, next), a.id) == left
  {
    FindFinds(table, a.id);
    SameIdSameAction(table, a, Find(table, a.id).value);
    hide Find, Resolve;
    if !a.fixed {
      ClearUnbinds(table, o, a, slot);
    }
  }

  /** Edits of an action that is not in the table change nothing. */
  lemma {:induction false} UnknownIsLeftAlone(table: seq<Action>, o: Overrides, id: string, slot: nat, text: string)
    requires forall a | a in table :: a.id != id
    ensures Edited(table, o, Assign(id, slot, text)) == o && Edited(table, o, Clear(id, slot)) == o
  {
    AssignIs(table, o, Resolve(table, o), id, slot, text);
    FindFinds(table, id);
    hide Find, Resolve, Normalize;
  }

  /** Reloading drops exactly the overrides that repeat their action's defaults. */
  lemma {:induction false} ReloadingIs(table: seq<Action>, o: Overrides)
    requires GoodTable(table) && Sane(table, o) && NormalOverrides(o)
    ensures var next := Edited(table, o, Reload);
      && (forall id | id in next :: id in o && next[id] == o[id])
      && forall a | a in table && a.id in o :: a.id in next <==> o[a.id] != a.defaults
  {
    SanitizedIs(table, o);
    TableIsUnique(table);
    forall a | a in table && a.id in o
      ensures a.id in Repeating(table, o) <==> o[a.id] == a.defaults
    {
      RepeatingIff(table, o, a);
    }
    hide Repeating, Sanitized, AsStored;
  }
}
