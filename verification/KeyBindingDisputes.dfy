/**
 Assignments to overrides in which two actions want the same combination, as a stored
 value may have them although no edit makes them.
 */
module KeyBindingDisputes {
  import opened Wrappers
  import opened KeyCombos
  import opened KeyBindings
  import opened KeyBindingsTheorems
  import opened KeyBindingEdits
  import opened KeyBindingStorage

  /** Whatever was stored, what is read back is sane. */
  lemma {:induction false} SanitizedIsSane(table: seq<Action>, stored: Stored)
    requires UniqueIds(table)
    ensures Sane(table, Sanitized(table, stored))
  {
    var o := Sanitized(table, stored);
    forall id | id in o
      ensures exists a | a in table :: a.id == id && !a.fixed
    {
      FindFinds(table, id);
    }
    forall a | a in table && a.id in o
      ensures GoodList(o[a.id], a.slots)
    {
      SanitizedIsGood(table, stored, a.id);
      FindFinds(table, a.id);
      SameIdSameAction(table, a, Find(table, a.id).value);
    }
  }

  /** An accepted assignment leaves sane overrides, disputed or not. */
  lemma {:induction false} AssignKeepsSane(table: seq<Action>, o: Overrides, a: Action, slot: nat, combo: string)
    requires GoodTable(table) && Sane(table, o) && a in table && combo != []
    requires Accepts(table, Resolve(table, o), a, combo)
    ensures Sane(table, AfterAssign(table, o, Resolve(table, o), a, slot, combo))
  {
    var r := Resolve(table, o);
    var next := AfterAssign(table, o, r, a, slot, combo);
    forall id | id in next
      ensures exists b | b in table :: b.id == id && !b.fixed
    {
      OnlyEditableGetOverrides(table, o, r, a, slot, combo, id);
    }
    forall b | b in table && b.id in next
      ensures GoodList(next[b.id], b.slots)
    {
      EditableIsNotFixed(table, next, b);
      WantedAfterAssign(table, o, r, a, slot, combo, b);
      ResolvedIsGood(table, o, b);
      if b == a {
        PlacedIsPut(BindingsFor(r, a.id), a.slots, slot, combo);
        PutStaysGood(BindingsFor(r, a.id), a.slots, slot, combo);
      } else if IsRival(r, a, combo, b) {
        KeepStaysGood(BindingsFor(r, b.id), value => value != combo, b.slots);
      }
    }
  }

  lemma {:induction false} ClearKeepsSane(table: seq<Action>, o: Overrides, a: Action, slot: nat)
    requires GoodTable(table) && Sane(table, o) && a in table && !a.fixed
    ensures Sane(table, AfterClear(o, Resolve(table, o), a, slot))
  {
    ResolvedIsGood(table, o, a);
    var next := AfterClear(o, Resolve(table, o), a, slot);
    forall b | b in table && b.id in next
      ensures GoodList(next[b.id], b.slots)
    {
      if b.id == a.id {
        SameIdSameAction(table, a, b);
      }
    }
  }

  function EditedFrom(table: seq<Action>, start: Overrides, edits: seq<Edit>): Overrides {
    if edits == [] then start
    else Edited(table, EditedFrom(table, start, edits[..|edits| - 1]), edits[|edits| - 1])
  }

  lemma {:induction false} EditKeepsSane(table: seq<Action>, o: Overrides, edit: Edit)
    requires GoodTable(table) && Sane(table, o)
    ensures Sane(table, Edited(table, o, edit))
  {
    hide Normalize, InNormalForm, Find, Resolve, GoodTable, Sanitized, AsStored;
    match edit {
      case Assign(id, slot, combo) =>
        AssignIs(table, o, Resolve(table, o), id, slot, combo);
        FindFinds(table, id);
        if Find(table, id).Some? && Normalize(combo).Some? {
          NormalizedIsNormal(combo);
          if Accepts(table, Resolve(table, o), Find(table, id).value, Normalize(combo).value) {
            AssignKeepsSane(table, o, Find(table, id).value, slot, Normalize(combo).value);
          }
        }
      case Clear(id, slot) =>
        FindFinds(table, id);
        if Find(table, id).Some? && !Find(table, id).value.fixed {
          ClearKeepsSane(table, o, Find(table, id).value, slot);
        }
      case Reset(_) =>
      case ResetAll =>
      case Reload =>
        TableIsUnique(table);
        SanitizedIsSane(table, AsStored(o));
    }
  }

  lemma {:induction false} SanitizedIsNormal(table: seq<Action>, stored: Stored)
    ensures NormalOverrides(Sanitized(table, stored))
  {
    hide AllInNormalForm, Sanitized;
    forall id | id in Sanitized(table, stored)
      ensures AllInNormalForm(Sanitized(table, stored)[id])
    {
      SanitizedIsGood(table, stored, id);
    }
  }

  /** Whatever was stored, and whatever edits follow, overrides stay sane and in normal form. */
  lemma {:induction false} EditsKeepSane(table: seq<Action>, stored: Stored, edits: seq<Edit>)
    requires GoodTable(table) && NormalDefaults(table)
    ensures var o := EditedFrom(table, Sanitized(table, stored), edits); Sane(table, o) && NormalOverrides(o)
  {
    if edits == [] {
      SanitizedIsSane(table, stored);
      SanitizedIsNormal(table, stored);
    } else {
      var before := edits[..|edits| - 1];
      EditsKeepSane(table, stored, before);
      hide Sane, Edited, Sanitized, GoodTable, NormalOverrides, NormalDefaults;
      EditKeepsSane(table, EditedFrom(table, Sanitized(table, stored), before), edits[|edits| - 1]);
      EditKeepsNormal(table, EditedFrom(table, Sanitized(table, stored), before), edits[|edits| - 1]);
    }
  }

  // The order in which actions are served.

  lemma {:induction false} KeepActionsAppends(left: seq<Action>, right: seq<Action>, p: Action -> bool)
    ensures KeepActions(left + right, p) == KeepActions(left, p) + KeepActions(right, p)
  {
    if right == [] {
      assert left + right == left;
    } else {
      var n := |right| - 1;
      KeepActionsAppends(left, right[..n], p);
      assert (left + right)[..|left| + n] == left + right[..n];
    }
  }

  lemma {:induction false} KeepActionsAgrees(actions: seq<Action>, p: Action -> bool, q: Action -> bool)
    requires forall a | a in actions :: p(a) == q(a)
    ensures KeepActions(actions, p) == KeepActions(actions, q)
  {
    if actions != [] {
      KeepActionsAgrees(actions[..|actions| - 1], p, q);
      assert actions[|actions| - 1] in actions;
    }
  }

  /** The fixed actions, and the strong ones of the table before place `n`. */
  function Served(table: seq<Action>, o: Overrides, n: nat): seq<Action>
    requires n <= |table|
  {
    KeepActions(table, (a: Action) => a.fixed) + KeepActions(table[..n], (a: Action) => !a.fixed && a.id in o)
  }

  lemma {:induction false} SplitAt(table: seq<Action>, n: nat, p: Action -> bool) returns (rest: seq<Action>)
    requires n < |table|
    ensures KeepActions(table, p) == KeepActions(table[..n], p) + ((if p(table[n]) then [table[n]] else []) + rest)
  {
    KeepActionsAppends(table[..n], table[n..], p);
    KeepActionsAppends([table[n]], table[n + 1..], p);
    assert table == table[..n] + table[n..] && table[n..] == [table[n]] + table[n + 1..];
    assert KeepActions([table[n]], p) == if p(table[n]) then [table[n]] else [] by {
      assert [table[n]][..0] == [];
    }
    rest := KeepActions(table[n + 1..], p);
  }

  lemma {:induction false} StartsWith(fixed: seq<Action>, before: seq<Action>, one: seq<Action>, rest: seq<Action>,
      weak: seq<Action>)
    ensures fixed + before <= fixed + (before + (one + rest)) + weak
    ensures fixed + before + one <= fixed + (before + (one + rest)) + weak
  {
    assert fixed + (before + (one + rest)) + weak == (fixed + before + one) + (rest + weak);
  }

  /** They are served first, and right before the action at `n` if it is strong and not fixed. */
  lemma {:induction false} OrderStartsWith(table: seq<Action>, o: Overrides, n: nat)
    requires n < |table|
    ensures Served(table, o, n) <= Order(table, o)
    ensures !table[n].fixed && table[n].id in o ==> Served(table, o, n) + [table[n]] <= Order(table, o)
  {
    var p := (a: Action) => !a.fixed && a.id in o;
    var fixed := KeepActions(table, (a: Action) => a.fixed);
    var weak := KeepActions(table, (a: Action) => !a.fixed && a.id !in o);
    var rest := SplitAt(table, n, p);
    hide KeepActions;
    StartsWith(fixed, KeepActions(table[..n], p), if p(table[n]) then [table[n]] else [], rest, weak);
  }

  lemma {:induction false} SameAreServed(table: seq<Action>, o: Overrides, other: Overrides, n: nat)
    requires n <= |table| && forall a | a in table[..n] && !a.fixed :: a.id in o <==> a.id in other
    ensures Served(table, o, n) == Served(table, other, n)
  {
    KeepActionsAgrees(table[..n], (a: Action) => !a.fixed && a.id in o, (a: Action) => !a.fixed && a.id in other);
  }

  lemma {:induction false} SameAreClaimed(o: Overrides, other: Overrides, order: seq<Action>)
    requires forall a | a in order :: Wanted(o, a) == Wanted(other, a)
    ensures Claimed(o, order) == Claimed(other, order)
  {
    if order != [] {
      var n := |order| - 1;
      SameAreClaimed(o, other, order[..n]);
      assert order[n] in order;
      hide Wanted;
      assert Accepted(o, Claimed(o, order[..n]), order[n]) == Accepted(other, Claimed(other, order[..n]), order[n]);
    }
  }

  lemma {:induction false} SameAreGot(o: Overrides, other: Overrides, order: seq<Action>, j: nat)
    requires j < |order| && forall a | a in order :: Wanted(o, a) == Wanted(other, a)
    ensures Got(o, order, j) == Got(other, order, j)
  {
    SameAreClaimed(o, other, order[..j]);
    assert order[j] in order;
    hide Claimed, Wanted;
    assert Wanted(o, order[j]) == Wanted(other, order[j]);
  }

  /** Fixed actions always have their defaults. */
  lemma {:induction false} FixedGetAll(table: seq<Action>, o: Overrides, b: Action, combo: string)
    requires GoodTable(table) && b in table && b.fixed && combo in b.defaults
    ensures combo in BindingsFor(Resolve(table, o), b.id)
  {
    var fixed, order := KeepActions(table, (a: Action) => a.fixed), Order(table, o);
    KeepActionsKeeps(table, (a: Action) => a.fixed);
    OrderIsWhole(table, o);
    assert fixed <= order;
    var j :| 0 <= j < |fixed| && fixed[j] == b;
    hide Order, Got, Overlap;
    assert order[j] == b;
    forall k | 0 <= k < j && Overlap(order[k].scope, b.scope)
      ensures combo !in Got(o, order, k)
    {
      assert order[k] == fixed[k] && order[k] in fixed;
      GotIff(o, order, k, combo);
      assert Disjoint(order[k].defaults, b.defaults);
    }
    GotIff(o, order, j, combo);
    ResolvedAt(o, order, j);
  }

  // When an assignment binds.

  /** The overrides once the combination is taken from the actions that hold it. */
  function Relief(table: seq<Action>, o: Overrides, a: Action, combo: string): Overrides {
    var r := Resolve(table, o);
    Relieved(o, Conflicts(table, r, a, combo), r, combo)
  }

  predicate Precedes(table: seq<Action>, b: Action, a: Action) {
    exists i, j | 0 <= i < j < |table| :: table[i] == b && table[j] == a
  }

  /**
   An action earlier in the table has an override and comes to hold the combination
   once it is taken from those that hold it now.
   */
  predicate IsForestalled(table: seq<Action>, o: Overrides, a: Action, combo: string) {
    exists b | b in table :: b.id in o && Precedes(table, b, a) && Overlap(b.scope, a.scope)
      && combo in BindingsFor(Resolve(table, Relief(table, o, a, combo)), b.id)
  }

  lemma {:induction false} ServedAre(table: seq<Action>, o: Overrides, n: nat)
    requires n <= |table|
    ensures forall b :: b in Served(table, o, n) <==>
              (b in table && b.fixed) || (b in table[..n] && !b.fixed && b.id in o)
  {
    KeepActionsKeeps(table, (a: Action) => a.fixed);
    KeepActionsKeeps(table[..n], (a: Action) => !a.fixed && a.id in o);
  }

  lemma {:induction false} BeforeIsOther(table: seq<Action>, n: nat, b: Action)
    requires UniqueIds(table) && n < |table| && b in table[..n]
    ensures b in table && b.id != table[n].id && Precedes(table, b, table[n])
  {
    var i :| 0 <= i < n && table[..n][i] == b;
    assert table[i] == b;
  }

  lemma {:induction false} PrecedingIsBefore(table: seq<Action>, n: nat, b: Action)
    requires UniqueIds(table) && n < |table| && Precedes(table, b, table[n])
    ensures b in table[..n]
  {
    var i, j :| 0 <= i < j < |table| && table[i] == b && table[j] == table[n];
    assert j == n;
    assert table[..n][i] == b;
  }

  /** What an action served early gets is the same before and after the new list is given. */
  lemma {:induction false} ServedGetTheSame(o: Overrides, other: Overrides, order: seq<Action>, orders: seq<Action>,
      served: seq<Action>, j: nat)
    requires served <= order && served <= orders && j < |served|
    requires forall a | a in served :: Wanted(o, a) == Wanted(other, a)
    ensures order[j] == orders[j] == served[j] && Got(o, order, j) == Got(other, orders, j)
  {
    SameAreGot(o, other, served, j);
    assert order[..j] == served[..j] == orders[..j];
  }

  /** The actions served before `a`, with what each gets, do not depend on the list `a` is given. */
  lemma {:induction false} EarlierAreAsRelieved(table: seq<Action>, o: Overrides, n: nat, slot: nat, combo: string)
    requires UniqueIds(table) && n < |table| && !table[n].fixed
    ensures var next := AfterAssign(table, o, Resolve(table, o), table[n], slot, combo);
      var relief := Relief(table, o, table[n], combo); var served := Served(table, next, n);
      && served + [table[n]] <= Order(table, next) && served <= Order(table, relief)
      && (forall b | b in served :: Wanted(next, b) == Wanted(relief, b))
  {
    var a := table[n];
    var next := AfterAssign(table, o, Resolve(table, o), a, slot, combo);
    var relief := Relief(table, o, a, combo);
    assert next == relief[a.id := next[a.id]];
    forall b | b in table[..n] && !b.fixed
      ensures b.id in next <==> b.id in relief
    {
      BeforeIsOther(table, n, b);
    }
    hide Order, KeepActions, KeyBindingEdits.AfterAssign, Relief, Resolve;
    SameAreServed(table, next, relief, n);
    OrderStartsWith(table, next, n);
    OrderStartsWith(table, relief, n);
    ServedAre(table, next, n);
    hide Served;
    forall b | b in Served(table, next, n)
      ensures Wanted(next, b) == Wanted(relief, b)
    {
      if !b.fixed {
        BeforeIsOther(table, n, b);
      }
    }
  }

  /** An action served before `a` that gets the combination forestalls it. */
  lemma {:induction false} EarlierForestalls(table: seq<Action>, o: Overrides, n: nat, slot: nat, combo: string,
      b: Action)
    requires GoodTable(table) && Sane(table, o) && n < |table| && combo != []
    requires Accepts(table, Resolve(table, o), table[n], combo) && Overlap(b.scope, table[n].scope)
    requires var next := AfterAssign(table, o, Resolve(table, o), table[n], slot, combo);
      b in Served(table, next, n) && combo in Wanted(next, b)
    ensures b in table && b.id in o && Precedes(table, b, table[n])
  {
    var a, r := table[n], Resolve(table, o);
    var next := AfterAssign(table, o, r, a, slot, combo);
    ServedAre(table, next, n);
    assert Overlap(a.scope, b.scope);
    if b.fixed {
      FixedGetAll(table, o, b, combo);
      assert b.id != a.id ==> IsRival(r, a, combo, b);
      SameFixed(table, a, b);
    } else {
      BeforeIsOther(table, n, b);
      WantedAfterAssign(table, o, r, a, slot, combo, b);
      KeepKeeps(BindingsFor(r, b.id), value => value != combo);
    }
  }

  lemma {:induction false} SameFixed(table: seq<Action>, a: Action, b: Action)
    requires UniqueIds(table) && a in table && b in table && a.fixed != b.fixed
    ensures a.id != b.id
  {
    if a.id == b.id {
      SameIdSameAction(table, a, b);
    }
  }

  /** Who had an override before, comes earlier and is not the action itself, is served before it. */
  lemma {:induction false} ForestallersAreEarlier(table: seq<Action>, o: Overrides, n: nat, slot: nat, combo: string,
      b: Action)
    requires GoodTable(table) && Sane(table, o) && n < |table| && b in table && b.id in o
    requires Accepts(table, Resolve(table, o), table[n], combo) && Precedes(table, b, table[n])
    ensures b in Served(table, AfterAssign(table, o, Resolve(table, o), table[n], slot, combo), n)
  {
    var a, r := table[n], Resolve(table, o);
    EditableIsNotFixed(table, o, b);
    PrecedingIsBefore(table, n, b);
    BeforeIsOther(table, n, b);
    WantedAfterAssign(table, o, r, a, slot, combo, b);
    ServedAre(table, AfterAssign(table, o, r, a, slot, combo), n);
  }

  lemma {:induction false} ResolvedInTable(table: seq<Action>, o: Overrides, j: nat)
    requires UniqueIds(table) && j < |Order(table, o)|
    ensures BindingsFor(Resolve(table, o), Order(table, o)[j].id) == Got(o, Order(table, o), j)
  {
    OrderIsWhole(table, o);
    ResolvedAt(o, Order(table, o), j);
  }

  lemma {:induction false} GotBeforeForestalls(table: seq<Action>, o: Overrides, n: nat, slot: nat, combo: string)
    requires GoodTable(table) && Sane(table, o) && n < |table| && combo != []
    requires Accepts(table, Resolve(table, o), table[n], combo)
    ensures var next := AfterAssign(table, o, Resolve(table, o), table[n], slot, combo);
      var served := Served(table, next, n);
      && |served| <= |Order(table, next)|
      && (GotBefore(next, Order(table, next), |served|, table[n].scope, combo) ==>
        IsForestalled(table, o, table[n], combo))
  {
    hide *;
    var a := table[n];
    var next, relief := AfterAssign(table, o, Resolve(table, o), a, slot, combo), Relief(table, o, a, combo);
    var order, served := Order(table, next), Served(table, next, n);
    ItIsInTable(table, n);
    AcceptedIsEditable(table, Resolve(table, o), a, combo);
    TableIsUnique(table);
    EarlierAreAsRelieved(table, o, n, slot, combo);
    if GotBefore(next, order, |served|, a.scope, combo) {
      var j := SomebodyGotIt(next, order, |served|, a.scope, combo);
      ServedGetTheSame(next, relief, order, Order(table, relief), served, j);
      ResolvedInTable(table, relief, j);
      GotIff(next, order, j, combo);
      assert served[j] in served;
      EarlierForestalls(table, o, n, slot, combo, order[j]);
      ItForestalls(table, o, a, combo, order[j]);
    }
  }

  lemma {:induction false} ForestalledIsGotBefore(table: seq<Action>, o: Overrides, n: nat, slot: nat, combo: string)
    requires GoodTable(table) && Sane(table, o) && n < |table|
    requires Accepts(table, Resolve(table, o), table[n], combo) && IsForestalled(table, o, table[n], combo)
    ensures var next := AfterAssign(table, o, Resolve(table, o), table[n], slot, combo);
      var served := Served(table, next, n);
      && |served| <= |Order(table, next)|
      && GotBefore(next, Order(table, next), |served|, table[n].scope, combo)
  {
    hide *;
    var a := table[n];
    var next, relief := AfterAssign(table, o, Resolve(table, o), a, slot, combo), Relief(table, o, a, combo);
    var order, served := Order(table, next), Served(table, next, n);
    ItIsInTable(table, n);
    AcceptedIsEditable(table, Resolve(table, o), a, combo);
    TableIsUnique(table);
    EarlierAreAsRelieved(table, o, n, slot, combo);
    var b := Forestaller(table, o, a, combo);
    ForestallersAreEarlier(table, o, n, slot, combo, b);
    var j :| 0 <= j < |served| && served[j] == b;
    ServedGetTheSame(next, relief, order, Order(table, relief), served, j);
    ResolvedInTable(table, relief, j);
    SoItWasGot(next, order, |served|, a.scope, combo, j);
  }

  lemma {:induction false} ItIsInTable(table: seq<Action>, n: nat)
    requires n < |table|
    ensures table[n] in table
  {
  }

  lemma {:induction false} AcceptedIsEditable(table: seq<Action>, r: Bindings, a: Action, combo: string)
    requires Accepts(table, r, a, combo)
    ensures !a.fixed
  {
  }

  lemma {:induction false} Forestaller(table: seq<Action>, o: Overrides, a: Action, combo: string) returns (b: Action)
    requires IsForestalled(table, o, a, combo)
    ensures b in table && b.id in o && Precedes(table, b, a) && Overlap(b.scope, a.scope)
    ensures combo in BindingsFor(Resolve(table, Relief(table, o, a, combo)), b.id)
  {
    b :| b in table && b.id in o && Precedes(table, b, a) && Overlap(b.scope, a.scope)
      && combo in BindingsFor(Resolve(table, Relief(table, o, a, combo)), b.id);
  }

  lemma {:induction false} TableIsUnique(table: seq<Action>)
    requires GoodTable(table)
    ensures UniqueIds(table)
  {
  }

  lemma {:induction false} SomebodyGotIt(o: Overrides, order: seq<Action>, n: nat, scope: Scope, combo: string)
    returns (j: nat)
    requires n <= |order| && GotBefore(o, order, n, scope, combo)
    ensures j < n && Overlap(order[j].scope, scope) && combo in Got(o, order, j)
  {
    j :| 0 <= j < n && Overlap(order[j].scope, scope) && combo in Got(o, order, j);
  }

  lemma {:induction false} SoItWasGot(o: Overrides, order: seq<Action>, n: nat, scope: Scope, combo: string, j: nat)
    requires j < n <= |order| && Overlap(order[j].scope, scope) && combo in Got(o, order, j)
    ensures GotBefore(o, order, n, scope, combo)
  {
  }

  lemma {:induction false} ItForestalls(table: seq<Action>, o: Overrides, a: Action, combo: string, b: Action)
    requires b in table && b.id in o && Precedes(table, b, a) && Overlap(b.scope, a.scope)
    requires combo in BindingsFor(Resolve(table, Relief(table, o, a, combo)), b.id)
    ensures IsForestalled(table, o, a, combo)
  {
  }

  /** The new list has the combination exactly if it has a place there. */
  lemma {:induction false} NewListHas(table: seq<Action>, o: Overrides, a: Action, slot: nat, combo: string)
    requires GoodTable(table) && Sane(table, o) && a in table && combo != []
    requires Accepts(table, Resolve(table, o), a, combo)
    ensures var current := BindingsFor(Resolve(table, o), a.id);
      combo in Wanted(AfterAssign(table, o, Resolve(table, o), a, slot, combo), a) <==>
        slot < a.slots || |current| < a.slots
  {
    var r := Resolve(table, o);
    WantedAfterAssign(table, o, r, a, slot, combo, a);
    ResolvedIsGood(table, o, a);
    PlacedIsPut(BindingsFor(r, a.id), a.slots, slot, combo);
    PutStaysGood(BindingsFor(r, a.id), a.slots, slot, combo);
  }

  /**
   With any overrides that can be stored: an accepted assignment binds exactly if the
   combination has a place in the list and nobody forestalls it.
   */
  lemma {:induction false} AssignBindsIff(table: seq<Action>, o: Overrides, a: Action, slot: nat, combo: string)
    requires GoodTable(table) && Sane(table, o) && a in table && combo != []
    requires Accepts(table, Resolve(table, o), a, combo)
    ensures var current := BindingsFor(Resolve(table, o), a.id);
      var after := Resolve(table, AfterAssign(table, o, Resolve(table, o), a, slot, combo));
      combo in BindingsFor(after, a.id) <==>
        (slot < a.slots || |current| < a.slots) && !IsForestalled(table, o, a, combo)
  {
    var n :| 0 <= n < |table| && table[n] == a;
    assert !a.fixed;
    hide *;
    var next := AfterAssign(table, o, Resolve(table, o), a, slot, combo);
    var order, served := Order(table, next), Served(table, next, n);
    TableIsUnique(table);
    EarlierAreAsRelieved(table, o, n, slot, combo);
    assert order[|served|] == a;
    ResolvedInTable(table, next, |served|);
    GotIff(next, order, |served|, combo);
    NewListHas(table, o, a, slot, combo);
    GotBeforeForestalls(table, o, n, slot, combo);
    if IsForestalled(table, o, a, combo) {
      ForestalledIsGotBefore(table, o, n, slot, combo);
    }
  }

  // Clearing, with any overrides.

  /** A list of combinations an action holds is its own if it is stored as its override. */
  lemma {:induction false} HeldStays(table: seq<Action>, o: Overrides, n: nat, list: seq<string>, j: nat, c: string)
    requires UniqueIds(table) && n < |table| && !table[n].fixed && c in BindingsFor(Resolve(table, o), table[n].id)
    requires var next := o[table[n].id := list];
      && j < |Served(table, next, n)| <= |Order(table, next)| && Overlap(Order(table, next)[j].scope, table[n].scope)
    ensures c !in Got(o[table[n].id := list], Order(table, o[table[n].id := list]), j)
  {
    var next := o[table[n].id := list];
    var served := Served(table, next, n);
    forall b | b in table[..n]
      ensures b.id in next <==> b.id in o
    {
      BeforeIsOther(table, n, b);
    }
    SameAreServed(table, next, o, n);
    OrderStartsWith(table, next, n);
    OrderStartsWith(table, o, n);
    ServedAre(table, next, n);
    forall b | b in served
      ensures b in table && b.id != table[n].id && Wanted(next, b) == Wanted(o, b)
    {
      if b.fixed {
        SameFixed(table, table[n], b);
      } else {
        BeforeIsOther(table, n, b);
      }
    }
    hide Order, Resolve, Got, Served, Wanted, Overlap;
    ServedGetTheSame(next, o, Order(table, next), Order(table, o), served, j);
    ResolvedInTable(table, o, j);
    assert served[j] in served;
    if c in Got(o, Order(table, o), j) {
      OneHoldsIt(table, o, served[j], table[n], c);
    }
  }

  lemma {:induction false} OwnListIsKept(table: seq<Action>, o: Overrides, n: nat, list: seq<string>)
    requires UniqueIds(table) && n < |table| && !table[n].fixed
    requires forall c | c in list :: c in BindingsFor(Resolve(table, o), table[n].id)
    ensures BindingsFor(Resolve(table, o[table[n].id := list]), table[n].id) == list
  {
    var a, next := table[n], o[table[n].id := list];
    var order, i := Order(table, next), |Served(table, next, n)|;
    OrderIsWhole(table, next);
    OrderStartsWith(table, next, n);
    assert order[i] == a;
    ResolvedInTable(table, next, i);
    var claims := Claimed(next, order[..i]);
    hide Order, Resolve, Served, Overlap, Claimed, IsClaimed;
    forall c | c in list
      ensures !IsClaimed(claims, a.scope, c)
    {
      ClaimedIff(next, order, i, a.scope, c);
      if GotBefore(next, order, i, a.scope, c) {
        var j := SomebodyGotIt(next, order, i, a.scope, c);
        HeldStays(table, o, n, list, j, c);
      }
    }
    KeepsAll(list, c => !IsClaimed(claims, a.scope, c));
  }

  /** Clearing a slot takes exactly that binding from the action, whatever other overrides there are. */
  lemma {:induction false} ClearUnbinds(table: seq<Action>, o: Overrides, a: Action, slot: nat)
    requires UniqueIds(table) && a in table && !a.fixed
    ensures BindingsFor(Resolve(table, AfterClear(o, Resolve(table, o), a, slot)), a.id)
         == RemoveAt(BindingsFor(Resolve(table, o), a.id), slot)
  {
    var n :| 0 <= n < |table| && table[n] == a;
    OwnListIsKept(table, o, n, RemoveAt(BindingsFor(Resolve(table, o), a.id), slot));
  }

  /** What an action holds it wants. */
  lemma {:induction false} HeldIsWanted(table: seq<Action>, o: Overrides, b: Action, combo: string)
    requires UniqueIds(table) && b in table && combo in BindingsFor(Resolve(table, o), b.id)
    ensures combo in Wanted(o, b)
  {
    hide Order, Resolve, Got, Wanted;
    var i := PlaceOf(table, o, b);
    GotIff(o, Order(table, o), i, combo);
  }

  lemma {:induction false} WantedWhenRelieved(table: seq<Action>, o: Overrides, a: Action, b: Action, combo: string)
    requires b in table && combo in Wanted(Relief(table, o, a, combo), b)
    ensures combo in Wanted(o, b) && (!b.fixed ==> !IsRival(Resolve(table, o), a, combo, b))
  {
    var r := Resolve(table, o);
    var conflicts := Conflicts(table, r, a, combo);
    ConflictsAreRivals(table, r, a, combo);
    RelievedAt(o, conflicts, r, combo, b.id);
    KeepKeeps(BindingsFor(r, b.id), value => value != combo);
    assert b in conflicts ==> exists i | 0 <= i < |conflicts| :: conflicts[i].id == b.id;
  }

  /** A clean override that wants a combination in a scope that overlaps that of `a` holds it. */
  lemma {:induction false} CleanIsRival(table: seq<Action>, o: Overrides, a: Action, b: Action, combo: string)
    requires GoodTable(table) && Clean(table, o) && b in table && b.id in o && b.id != a.id
    requires combo in Wanted(o, b) && Overlap(b.scope, a.scope)
    ensures IsRival(Resolve(table, o), a, combo, b)
  {
    StrongGetsAll(table, o, b);
    hide Resolve, Wanted, GoodTable, Clean;
    assert Overlap(a.scope, b.scope);
  }

  /** Overrides that no two strong actions dispute let nobody forestall an assignment. */
  lemma {:induction false} CleanIsNotForestalled(table: seq<Action>, o: Overrides, a: Action, combo: string)
    requires GoodTable(table) && Clean(table, o) && a in table
    ensures !IsForestalled(table, o, a, combo)
  {
    if IsForestalled(table, o, a, combo) {
      var b := Forestaller(table, o, a, combo);
      EditableIsNotFixed(table, o, b);
      HeldIsWanted(table, Relief(table, o, a, combo), b, combo);
      PrecedingIsOther(table, b, a);
      hide *;
      WantedWhenRelieved(table, o, a, b, combo);
      CleanIsRival(table, o, a, b, combo);
    }
  }

  lemma {:induction false} PrecedingIsOther(table: seq<Action>, b: Action, a: Action)
    requires UniqueIds(table) && Precedes(table, b, a)
    ensures a.id != b.id
  {
  }

  /** Two overrides that both want one combination, which is nobody's default. */
  function Disputed(d: Action, b: Action, combo: string): Overrides {
    map[d.id := [combo], b.id := [combo]]
  }

  lemma {:induction false} OnlyTwoWant(table: seq<Action>, d: Action, b: Action, c: Action, combo: string)
    requires UniqueIds(table) && d in table && b in table && c in table
    requires combo !in c.defaults && combo in Wanted(Disputed(d, b, combo), c)
    ensures c == d || c == b
  {
    if c.id == d.id {
      SameIdSameAction(table, c, d);
    } else if c.id == b.id {
      SameIdSameAction(table, c, b);
    }
  }

  lemma {:induction false} DisputeIsSane(table: seq<Action>, d: Action, b: Action, combo: string)
    requires UniqueIds(table) && d in table && b in table && !d.fixed && !b.fixed && combo != []
    requires d.slots > 0 && b.slots > 0
    ensures Sane(table, Disputed(d, b, combo))
  {
    forall c | c in table && c.id in Disputed(d, b, combo)
      ensures GoodList(Disputed(d, b, combo)[c.id], c.slots)
    {
      SameIdSameAction(table, c, if c.id == d.id then d else b);
    }
  }

  /** Overrides that say something new are read back as they are. */
  lemma {:induction false} ReadBackAsIs(table: seq<Action>, o: Overrides)
    requires GoodTable(table) && Sane(table, o) && NormalOverrides(o)
    requires forall a | a in table && a.id in o :: o[a.id] != a.defaults
    ensures Sanitized(table, AsStored(o)) == o
  {
    SanitizedIs(table, o);
    hide InNormalForm, GoodTable, AsStored, Sanitized, NormalOverrides;
    forall a | a in table
      ensures a.id !in Repeating(table, o)
    {
      TableIsUnique(table);
      RepeatingIff(table, o, a);
    }
    hide Repeating;
    SaneAreActions(table, o);
    assert forall id | id in o :: id !in Repeating(table, o);
  }

  lemma {:induction false} SaneAreActions(table: seq<Action>, o: Overrides)
    requires Sane(table, o)
    ensures forall id | id in o :: exists a | a in table :: a.id == id
  {
  }

  /** They can be stored and read back. */
  lemma {:induction false} DisputeIsStored(table: seq<Action>, d: Action, b: Action, combo: string)
    requires GoodTable(table) && d in table && b in table && InNormalForm(combo)
    requires Sane(table, Disputed(d, b, combo)) && combo !in d.defaults && combo !in b.defaults
    ensures Sanitized(table, AsStored(Disputed(d, b, combo))) == Disputed(d, b, combo)
  {
    var o := Disputed(d, b, combo);
    hide InNormalForm, AsStored, Sanitized, Sane;
    TableIsUnique(table);
    forall a | a in table && a.id in o
      ensures o[a.id] != a.defaults
    {
      SameIdSameAction(table, a, if a.id == d.id then d else b);
      assert combo in [combo];
    }
    ReadBackAsIs(table, o);
  }

  /** One of the two has it, and the other has not. */
  lemma {:induction false} OneOfTwoHolds(table: seq<Action>, d: Action, b: Action, combo: string)
    returns (holder: Action, other: Action)
    requires UniqueIds(table) && d in table && b in table && !d.fixed && !b.fixed && d.id != b.id
    requires d.scope == b.scope && forall c | c in table :: combo !in c.defaults
    ensures (holder == d && other == b) || (holder == b && other == d)
    ensures var r := Resolve(table, Disputed(d, b, combo));
      combo in BindingsFor(r, holder.id) && forall c | c in table && c != holder :: combo !in BindingsFor(r, c.id)
  {
    var o := Disputed(d, b, combo);
    var r := Resolve(table, o);
    WantedIsHeldSomewhere(table, o, d, combo);
    var h :| h in table && Overlap(h.scope, d.scope) && combo in BindingsFor(r, h.id);
    HeldIsWanted(table, o, h, combo);
    OnlyTwoWant(table, d, b, h, combo);
    holder, other := h, if h == d then b else d;
    forall c | c in table && c != holder
      ensures combo !in BindingsFor(r, c.id)
    {
      if combo in BindingsFor(r, c.id) {
        HeldIsWanted(table, o, c, combo);
        OnlyTwoWant(table, d, b, c, combo);
        OneHoldsIt(table, o, holder, other, combo);
      }
    }
  }

  /** Once it is taken from that one, the other has it. */
  lemma {:induction false} TheOtherHasIt(table: seq<Action>, d: Action, b: Action, a: Action, combo: string,
      holder: Action, other: Action)
    requires UniqueIds(table) && d in table && b in table && !d.fixed && !b.fixed && d.id != b.id
    requires (holder == d && other == b) || (holder == b && other == d)
    requires forall c | c in table :: combo !in c.defaults
    requires var r := Resolve(table, Disputed(d, b, combo));
      && combo !in BindingsFor(r, other.id) && IsRival(r, a, combo, holder)
    ensures var o := Disputed(d, b, combo);
      combo in BindingsFor(Resolve(table, Relief(table, o, a, combo)), other.id)
  {
    var o := Disputed(d, b, combo);
    var r, relief := Resolve(table, o), Relief(table, o, a, combo);
    ConflictsAreRivals(table, r, a, combo);
    RelievedAt(o, Conflicts(table, r, a, combo), r, combo, other.id);
    forall c | c in Conflicts(table, r, a, combo)
      ensures c.id != other.id
    {
      assert IsRival(r, a, combo, c);
    }
    assert combo in Wanted(relief, other);
    WantedIsHeldSomewhere(table, relief, other, combo);
    hide Resolve, Relief, Wanted, IsRival;
    var h :| h in table && Overlap(h.scope, other.scope) && combo in BindingsFor(Resolve(table, relief), h.id);
    HeldIsWanted(table, relief, h, combo);
    WantedWhenRelieved(table, o, a, h, combo);
    OnlyTwoWant(table, d, b, h, combo);
  }

  /**
   Two stored overrides dispute a combination. An assignment to a later action of their
   scope takes it from the one that has it, and the other has it from then on.
   */
  lemma {:induction false} DisputeForestalls(table: seq<Action>, d: Action, b: Action, a: Action, slot: nat,
      combo: string)
    requires GoodTable(table) && !d.fixed && !b.fixed && !a.fixed && d.scope == b.scope == a.scope && d.id != b.id
    requires Precedes(table, d, a) && Precedes(table, b, a) && d.slots > 0 && b.slots > 0
    requires InNormalForm(combo) && forall c | c in table :: combo !in c.defaults
    ensures var o := Disputed(d, b, combo); var r := Resolve(table, o);
      && Sanitized(table, AsStored(o)) == o && Sane(table, o) && Accepts(table, r, a, combo)
      && combo !in BindingsFor(Resolve(table, AfterAssign(table, o, r, a, slot, combo)), a.id)
  {
    var o := Disputed(d, b, combo);
    var r := Resolve(table, o);
    NormalFormIsSet(combo);
    hide InNormalForm;
    DisputeIsSane(table, d, b, combo);
    DisputeIsStored(table, d, b, combo);
    PrecedingIsOther(table, d, a);
    PrecedingIsOther(table, b, a);
    var holder, other := OneOfTwoHolds(table, d, b, combo);
    hide Resolve, AfterAssign, GoodTable, Sane;
    TableIsUnique(table);
    assert IsRival(r, a, combo, holder);
    TheOtherHasIt(table, d, b, a, combo, holder, other);
    assert Accepts(table, r, a, combo);
    hide Accepts, IsRival, IsForestalled, Precedes, Relief;
    ItForestalls(table, o, a, combo, other);
    AssignBindsIff(table, o, a, slot, combo);
  }
}
