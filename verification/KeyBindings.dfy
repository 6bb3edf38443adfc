/**
 Key bindings: what each action is bound to once the user's overrides and the
 defaults have been reconciled, and how overrides are edited and stored.
 */
module KeyBindings {
  import opened Wrappers
  import opened KeyCombos

  datatype Scope = Global | Playback | Video | Reader

  datatype Action = Action(id: string, scope: Scope, defaults: seq<string>, slots: nat, fixed: bool)

  type Overrides = map<string, seq<string>>

  type Bindings = map<string, seq<string>>

  predicate AlwaysLive(scope: Scope) {
    scope.Global? || scope.Playback?
  }

  /**
   Scopes that can be live at the same time. This is not transitive: two pages overlap
   the global scope but not each other.
   */
  predicate Overlap(left: Scope, right: Scope) {
    left == right || AlwaysLive(left) || AlwaysLive(right)
  }

  function BindingsFor(resolved: Bindings, id: string): seq<string> {
    if id in resolved then resolved[id] else []
  }

  function Keep(combos: seq<string>, p: string -> bool): seq<string> {
    if combos == [] then []
    else Keep(combos[..|combos| - 1], p) + if p(combos[|combos| - 1]) then [combos[|combos| - 1]] else []
  }

  function KeepActions(actions: seq<Action>, p: Action -> bool): seq<Action> {
    if actions == [] then []
    else KeepActions(actions[..|actions| - 1], p) + if p(actions[|actions| - 1]) then [actions[|actions| - 1]] else []
  }

  predicate UniqueIds(table: seq<Action>) {
    forall i, j | 0 <= i < j < |table| :: table[i].id != table[j].id
  }

  // Resolution.

  datatype Claim = Claim(scope: Scope, combo: string)

  predicate IsClaimed(claims: seq<Claim>, scope: Scope, combo: string) {
    exists i | 0 <= i < |claims| :: claims[i].combo == combo && Overlap(claims[i].scope, scope)
  }

  /** What an action asks for: its override, or else its defaults. */
  function Wanted(o: Overrides, a: Action): seq<string> {
    if !a.fixed && a.id in o then o[a.id] else a.defaults
  }

  function ClaimsOf(scope: Scope, combos: seq<string>): seq<Claim> {
    seq(|combos|, i requires 0 <= i < |combos| => Claim(scope, combos[i]))
  }

  function Accepted(o: Overrides, claims: seq<Claim>, a: Action): seq<string> {
    Keep(Wanted(o, a), combo => !IsClaimed(claims, a.scope, combo))
  }

  /** The combinations claimed by the actions of `order`, each taking what those before it left. */
  function Claimed(o: Overrides, order: seq<Action>): seq<Claim> {
    if order == [] then []
    else
      var n := |order| - 1;
      Claimed(o, order[..n]) + ClaimsOf(order[n].scope, Accepted(o, Claimed(o, order[..n]), order[n]))
  }

  function ResolvedIn(o: Overrides, order: seq<Action>): Bindings {
    if order == [] then map[]
    else
      var n := |order| - 1;
      ResolvedIn(o, order[..n])[order[n].id := Accepted(o, Claimed(o, order[..n]), order[n])]
  }

  predicate IsStrong(o: Overrides, a: Action) {
    a.fixed || a.id in o
  }

  /** Fixed actions come first, then those with an override, then the rest. */
  function Order(table: seq<Action>, o: Overrides): seq<Action> {
    KeepActions(table, (a: Action) => a.fixed)
    + KeepActions(table, (a: Action) => !a.fixed && a.id in o)
    + KeepActions(table, (a: Action) => !a.fixed && a.id !in o)
  }

  function Resolve(table: seq<Action>, o: Overrides): Bindings {
    ResolvedIn(o, Order(table, o))
  }

  method FilterActions(actions: seq<Action>, p: Action -> bool) returns (kept: seq<Action>)
    ensures kept == KeepActions(actions, p)
  {
    kept := [];
    for n := 0 to |actions|
      invariant kept == KeepActions(actions[..n], p)
    {
      assert actions[..n + 1][..n] == actions[..n];
      if p(actions[n]) {
        kept := kept + [actions[n]];
      }
    }
    assert actions[..|actions|] == actions;
  }

  method Filter(combos: seq<string>, p: string -> bool) returns (kept: seq<string>)
    ensures kept == Keep(combos, p)
  {
    kept := [];
    for n := 0 to |combos|
      invariant kept == Keep(combos[..n], p)
    {
      assert combos[..n + 1][..n] == combos[..n];
      if p(combos[n]) {
        kept := kept + [combos[n]];
      }
    }
    assert combos[..|combos|] == combos;
  }

  lemma {:induction false} KeepActionsKeeps(actions: seq<Action>, p: Action -> bool)
    ensures forall a :: a in KeepActions(actions, p) <==> a in actions && p(a)
  {
    if actions != [] {
      var n := |actions| - 1;
      KeepActionsKeeps(actions[..n], p);
      assert actions == actions[..n] + [actions[n]];
    }
  }

  lemma {:induction false} KeepActionsUnique(actions: seq<Action>, p: Action -> bool)
    requires UniqueIds(actions)
    ensures UniqueIds(KeepActions(actions, p))
  {
    if actions != [] {
      var n := |actions| - 1;
      KeepActionsUnique(actions[..n], p);
      KeepActionsKeeps(actions[..n], p);
      var kept := KeepActions(actions[..n], p);
      forall i | 0 <= i < |kept|
        ensures kept[i].id != actions[n].id
      {
        assert kept[i] in actions[..n];
      }
    }
  }

  lemma {:induction false} SameIdSameAction(table: seq<Action>, a: Action, b: Action)
    requires UniqueIds(table) && a in table && b in table && a.id == b.id
    ensures a == b
  {
  }

  lemma {:induction false} OrderIsWhole(table: seq<Action>, o: Overrides)
    ensures forall a :: a in Order(table, o) <==> a in table
    ensures UniqueIds(table) ==> UniqueIds(Order(table, o))
  {
    var fixed := KeepActions(table, (a: Action) => a.fixed);
    var strong := KeepActions(table, (a: Action) => !a.fixed && a.id in o);
    var weak := KeepActions(table, (a: Action) => !a.fixed && a.id !in o);
    KeepActionsKeeps(table, (a: Action) => a.fixed);
    KeepActionsKeeps(table, (a: Action) => !a.fixed && a.id in o);
    KeepActionsKeeps(table, (a: Action) => !a.fixed && a.id !in o);
    if UniqueIds(table) {
      KeepActionsUnique(table, (a: Action) => a.fixed);
      KeepActionsUnique(table, (a: Action) => !a.fixed && a.id in o);
      KeepActionsUnique(table, (a: Action) => !a.fixed && a.id !in o);
      JoinUnique(table, fixed, strong);
      JoinUnique(table, fixed + strong, weak);
    }
  }

  lemma {:induction false} JoinUnique(table: seq<Action>, left: seq<Action>, right: seq<Action>)
    requires UniqueIds(table) && UniqueIds(left) && UniqueIds(right)
    requires forall a | a in left :: a in table && a !in right
    requires forall a | a in right :: a in table
    ensures UniqueIds(left + right)
  {
    var all := left + right;
    forall i, j | 0 <= i < j < |all|
      ensures all[i].id != all[j].id
    {
      if i < |left| <= j {
        assert all[i] in left && all[j] in right;
        if all[i].id == all[j].id {
          SameIdSameAction(table, all[i], all[j]);
        }
      }
    }
  }

  lemma {:induction false} OneMoreResolved(o: Overrides, order: seq<Action>, n: nat)
    requires n < |order|
    ensures var accepted := Accepted(o, Claimed(o, order[..n]), order[n]);
      && ResolvedIn(o, order[..n + 1]) == ResolvedIn(o, order[..n])[order[n].id := accepted]
      && Claimed(o, order[..n + 1]) == Claimed(o, order[..n]) + ClaimsOf(order[n].scope, accepted)
  {
    assert order[..n + 1][..n] == order[..n];
  }

  /** What an action keeps of what it wants. */
  method Accept(o: Overrides, claims: seq<Claim>, a: Action) returns (accepted: seq<string>)
    ensures accepted == Accepted(o, claims, a)
  {
    accepted := Filter(Wanted(o, a), combo => !IsClaimed(claims, a.scope, combo));
  }

  method OrderActions(table: seq<Action>, o: Overrides) returns (order: seq<Action>)
    ensures order == Order(table, o)
  {
    var first := FilterActions(table, (a: Action) => a.fixed);
    var second := FilterActions(table, (a: Action) => !a.fixed && a.id in o);
    var third := FilterActions(table, (a: Action) => !a.fixed && a.id !in o);
    order := first + second + third;
  }

  /** Resolves by priority: an action keeps what no action before it in an overlapping scope has claimed. */
  method ResolveBindings(table: seq<Action>, o: Overrides) returns (resolved: Bindings)
    requires UniqueIds(table)
    ensures resolved == Resolve(table, o)
  {
    var order := OrderActions(table, o);
    hide Order, Accepted, ClaimsOf;
    resolved := map[];
    var claimed: seq<Claim> := [];
    for n := 0 to |order|
      invariant resolved == ResolvedIn(o, order[..n]) && claimed == Claimed(o, order[..n])
    {
      hide ResolvedIn, Claimed;
      OneMoreResolved(o, order, n);
      var accepted := Accept(o, claimed, order[n]);
      resolved := resolved[order[n].id := accepted];
      claimed := claimed + ClaimsOf(order[n].scope, accepted);
    }
    assert order[..|order|] == order;
  }

  // Matching.

  /** The first action in table order that a combination triggers in one scope. */
  method MatchBinding(table: seq<Action>, resolved: Bindings, scope: Scope, combo: string)
    returns (found: Option<Action>)
    ensures found.Some? ==> exists n | 0 <= n < |table| ::
              table[n] == found.value && table[n].scope == scope && combo in BindingsFor(resolved, table[n].id)
              && forall i | 0 <= i < n && table[i].scope == scope :: combo !in BindingsFor(resolved, table[i].id)
    ensures found.None? ==> forall a | a in table && a.scope == scope :: combo !in BindingsFor(resolved, a.id)
  {
    for n := 0 to |table|
      invariant forall i | 0 <= i < n && table[i].scope == scope :: combo !in BindingsFor(resolved, table[i].id)
    {
      var action := table[n];
      if action.scope != scope {
        continue;
      }
      if combo in BindingsFor(resolved, action.id) {
        return Some(action);
      }
    }
    found := None;
  }

  // Editing.

  function Find(table: seq<Action>, id: string): Option<Action> {
    if table == [] then None
    else if table[|table| - 1].id == id then Some(table[|table| - 1])
    else Find(table[..|table| - 1], id)
  }

  /** The other actions that hold a combination in an overlapping scope. */
  function Conflicts(table: seq<Action>, resolved: Bindings, action: Action, combo: string): seq<Action> {
    KeepActions(table, (other: Action) =>
      other.id != action.id && Overlap(action.scope, other.scope) && combo in BindingsFor(resolved, other.id))
  }

  /** The overrides that take a combination away from these actions. */
  function Relieved(o: Overrides, conflicts: seq<Action>, resolved: Bindings, combo: string): Overrides {
    if conflicts == [] then o
    else
      var n := |conflicts| - 1;
      Relieved(o, conflicts[..n], resolved, combo)
        [conflicts[n].id := Keep(BindingsFor(resolved, conflicts[n].id), value => value != combo)]
  }

  function Cut(combos: seq<string>, slots: nat): seq<string> {
    if |combos| <= slots then combos else combos[..slots]
  }

  predicate IsSet(combo: string) {
    combo != []
  }

  /** A combination put in a slot; one beyond the last binding is added behind it. */
  function Placed(current: seq<string>, slot: nat, combo: string): seq<string> {
    Keep(if slot < |current| then current[slot := combo] else current + [combo], IsSet)
  }

  function Assigned(table: seq<Action>, o: Overrides, resolved: Bindings, id: string, slot: nat,
      combo: string): Overrides {
    var action := Find(table, id);
    var normalized := Normalize(combo);
    if action.None? || action.value.fixed || normalized.None? then o
    else
      var current := BindingsFor(resolved, id);
      var conflicts := Conflicts(table, resolved, action.value, normalized.value);
      if normalized.value in current || (exists i | 0 <= i < |conflicts| :: conflicts[i].fixed) then o
      else Relieved(o, conflicts, resolved, normalized.value)
             [id := Cut(Placed(current, slot, normalized.value), action.value.slots)]
  }

  function Cleared(table: seq<Action>, o: Overrides, resolved: Bindings, id: string, slot: nat): Overrides {
    var action := Find(table, id);
    var current := BindingsFor(resolved, id);
    if action.None? || action.value.fixed then o
    else o[id := if slot < |current| then current[..slot] + current[slot + 1..] else current]
  }

  lemma {:induction false} KeepAppends(a: seq<string>, b: seq<string>, p: string -> bool)
    ensures Keep(a + b, p) == Keep(a, p) + Keep(b, p)
  {
    if b == [] {
      assert a + b == a;
    } else {
      KeepAppends(a, b[..|b| - 1], p);
      assert (a + b)[..|a + b| - 1] == a + b[..|b| - 1];
    }
  }

  method Relieve(o: Overrides, conflicts: seq<Action>, resolved: Bindings, combo: string) returns (next: Overrides)
    ensures next == Relieved(o, conflicts, resolved, combo)
  {
    next := o;
    for n := 0 to |conflicts|
      invariant next == Relieved(o, conflicts[..n], resolved, combo)
    {
      assert conflicts[..n + 1][..n] == conflicts[..n];
      var without := Filter(BindingsFor(resolved, conflicts[n].id), value => value != combo);
      next := next[conflicts[n].id := without];
    }
    assert conflicts[..|conflicts|] == conflicts;
  }

  /**
   Gives a combination to an action and takes it from the others it would conflict with,
   unless one of them is fixed.
   */
  method AssignBinding(table: seq<Action>, o: Overrides, resolved: Bindings, id: string, slot: nat, combo: string)
    returns (next: Overrides)
    ensures next == Assigned(table, o, resolved, id, slot, combo)
  {
    hide Normalize, Find, Conflicts, Relieved, Placed;
    var action := Find(table, id);
    var normalized := NormalizeCombo(combo);
    if action.None? || action.value.fixed || normalized.None? {
      return o;
    }
    var current := BindingsFor(resolved, id);
    if normalized.value in current {
      return o;
    }
    var conflicts := Conflicts(table, resolved, action.value, normalized.value);
    if exists i | 0 <= i < |conflicts| :: conflicts[i].fixed {
      return o;
    }
    next := Relieve(o, conflicts, resolved, normalized.value);
    var placed := Place(current, slot, normalized.value);
    next := next[id := Cut(placed, action.value.slots)];
  }

  lemma {:induction false} NothingSetIsKept(padding: seq<string>)
    requires forall i | 0 <= i < |padding| :: padding[i] == []
    ensures Keep(padding, IsSet) == []
  {
    if padding != [] {
      NothingSetIsKept(padding[..|padding| - 1]);
    }
  }

  lemma {:induction false} PaddingIsDropped(current: seq<string>, padding: seq<string>, combo: string)
    requires forall i | 0 <= i < |padding| :: padding[i] == []
    ensures Keep(current + padding + [combo], IsSet) == Keep(current + [combo], IsSet)
  {
    NothingSetIsKept(padding);
    KeepAppends(current + padding, [combo], IsSet);
    KeepAppends(current, padding, IsSet);
    KeepAppends(current, [combo], IsSet);
    assert Keep(current, IsSet) + [] == Keep(current, IsSet);
  }

  /** Pads with empty texts up to the slot, sets it, and drops what is empty. */
  method Place(current: seq<string>, slot: nat, combo: string) returns (placed: seq<string>)
    ensures placed == Placed(current, slot, combo)
  {
    var padded := current;
    while |padded| <= slot
      invariant current <= padded && (|padded| == |current| || |padded| <= slot + 1)
      invariant forall i | |current| <= i < |padded| :: padded[i] == []
    {
      padded := padded + [[]];
    }
    assert slot < |current| ==> padded == current;
    padded := padded[slot := combo];
    if slot >= |current| {
      var padding := padded[|current|..slot];
      assert padded == current + padding + [combo];
      PaddingIsDropped(current, padding, combo);
    }
    placed := Filter(padded, IsSet);
  }
}
