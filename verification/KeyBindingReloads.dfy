/**
 Reading stored overrides back, which drops those that repeat the defaults and with
 them their priority: when that changes a binding, and when it does not.
 */
module KeyBindingReloads {
  import opened Wrappers
  import opened KeyCombos
  import opened KeyBindings
  import opened KeyBindingsTheorems
  import opened KeyBindingEdits
  import opened KeyBindingStorage
  import opened KeyBindingDisputes

  // Who is served before whom.

  function Rank(o: Overrides, a: Action): nat {
    if a.fixed then 0 else if a.id in o then 1 else 2
  }

  predicate IsBefore(table: seq<Action>, o: Overrides, e: Action, b: Action) {
    Rank(o, e) < Rank(o, b) || (Rank(o, e) == Rank(o, b) && Precedes(table, e, b))
  }

  lemma {:induction false} PrecedesLonger(table: seq<Action>, e: Action, b: Action)
    requires table != [] && Precedes(table[..|table| - 1], e, b)
    ensures Precedes(table, e, b)
  {
    var n := |table| - 1;
    var i, j :| 0 <= i < j < n && table[..n][i] == e && table[..n][j] == b;
    assert table[i] == e && table[j] == b;
  }

  /** Keeping actions keeps their order. */
  lemma {:induction false} KeptInOrder(table: seq<Action>, p: Action -> bool, i: nat, j: nat)
    requires i < j < |KeepActions(table, p)|
    ensures Precedes(table, KeepActions(table, p)[i], KeepActions(table, p)[j])
  {
    var n := |table| - 1;
    var before := KeepActions(table[..n], p);
    if j < |before| {
      KeptInOrder(table[..n], p, i, j);
      PrecedesLonger(table, before[i], before[j]);
    } else {
      KeepActionsKeeps(table[..n], p);
      assert before[i] in before;
      var k :| 0 <= k < n && table[..n][k] == before[i];
      assert table[k] == before[i] && table[n] == KeepActions(table, p)[j];
    }
  }

  /** Of two actions in the order of priority the one before comes first. */
  lemma {:induction false} OrderIsByRank(table: seq<Action>, o: Overrides, i: nat, j: nat)
    requires i < j < |Order(table, o)|
    ensures IsBefore(table, o, Order(table, o)[i], Order(table, o)[j])
  {
    var first := KeepActions(table, (a: Action) => a.fixed);
    var second := KeepActions(table, (a: Action) => !a.fixed && a.id in o);
    var third := KeepActions(table, (a: Action) => !a.fixed && a.id !in o);
    var order := first + second + third;
    var k, l := |first|, |first| + |second|;
    KeepActionsKeeps(table, (a: Action) => a.fixed);
    KeepActionsKeeps(table, (a: Action) => !a.fixed && a.id in o);
    KeepActionsKeeps(table, (a: Action) => !a.fixed && a.id !in o);
    assert forall m | 0 <= m < k :: order[m] == first[m] && order[m] in first;
    assert forall m | k <= m < l :: order[m] == second[m - k] && order[m] in second;
    assert forall m | l <= m < |order| :: order[m] == third[m - l] && order[m] in third;
    hide KeepActions;
    if j < k {
      KeptInOrder(table, (a: Action) => a.fixed, i, j);
    } else if k <= i && j < l {
      KeptInOrder(table, (a: Action) => !a.fixed && a.id in o, i - k, j - k);
    } else if l <= i {
      KeptInOrder(table, (a: Action) => !a.fixed && a.id !in o, i - l, j - l);
    }
  }

  lemma {:induction false} NotBeforeEachOther(table: seq<Action>, o: Overrides, e: Action, b: Action)
    requires UniqueIds(table) && IsBefore(table, o, e, b)
    ensures !IsBefore(table, o, b, e)
  {
  }

  /** Another action that is served before `b` has a combination `b` wants. */
  ghost predicate IsTaken(table: seq<Action>, o: Overrides, b: Action, c: string) {
    exists e | e in table :: e.id != b.id && IsBefore(table, o, e, b) && Overlap(e.scope, b.scope)
      && c in BindingsFor(Resolve(table, o), e.id)
  }

  /** An action holds what it wants and nobody served before it has taken. */
  lemma {:induction false} HoldsIff(table: seq<Action>, o: Overrides, b: Action, c: string)
    requires UniqueIds(table) && b in table
    ensures c in BindingsFor(Resolve(table, o), b.id) <==> c in Wanted(o, b) && !IsTaken(table, o, b, c)
  {
    var order := Order(table, o);
    OrderIsWhole(table, o);
    hide Order, Resolve, Got, Wanted, IsBefore, Overlap;
    var i := PlaceOf(table, o, b);
    GotIff(o, order, i, c);
    if GotBefore(o, order, i, b.scope, c) {
      var j :| 0 <= j < i && Overlap(order[j].scope, b.scope) && c in Got(o, order, j);
      OrderIsByRank(table, o, j, i);
      ResolvedInTable(table, o, j);
      assert order[j] in order && order[j].id != order[i].id;
      assert IsTaken(table, o, b, c);
    }
    if IsTaken(table, o, b, c) {
      var e :| e in table && e.id != b.id && IsBefore(table, o, e, b) && Overlap(e.scope, b.scope)
        && c in BindingsFor(Resolve(table, o), e.id);
      var j := PlaceOf(table, o, e);
      if i < j {
        OrderIsByRank(table, o, i, j);
        NotBeforeEachOther(table, o, b, e);
      }
      SoItWasGot(o, order, i, b.scope, c, j);
    }
  }

  // What a reload keeps.

  /** The overrides a reload leaves. */
  function Reread(table: seq<Action>, o: Overrides): Overrides {
    o - Repeating(table, o)
  }

  /**
   An action whose override repeats its defaults holds a combination that a later
   action, whose override is kept, has once the first has lost its priority.
   */
  ghost predicate IsSwapped(table: seq<Action>, o: Overrides) {
    exists b, d, c :: Swaps(table, o, b, d, c)
  }

  predicate Swaps(table: seq<Action>, o: Overrides, b: Action, d: Action, c: string) {
    && b in table && d in table && b.id in Repeating(table, o) && d.id in Reread(table, o)
    && Precedes(table, b, d) && Overlap(b.scope, d.scope)
    && c in BindingsFor(Resolve(table, o), b.id) && c in BindingsFor(Resolve(table, Reread(table, o)), d.id)
  }

  lemma {:induction false} RereadIs(table: seq<Action>, o: Overrides, a: Action)
    requires UniqueIds(table) && a in table
    ensures Wanted(Reread(table, o), a) == Wanted(o, a)
    ensures a.id in Reread(table, o) <==> a.id in o && o[a.id] != a.defaults
    ensures a.id in Repeating(table, o) <==> a.id in o && o[a.id] == a.defaults
  {
    RepeatingIff(table, o, a);
    hide Repeating;
  }

  /** An action that wants its defaults has one exactly unless an override of others has it. */
  lemma {:induction false} DefaultIsHeld(table: seq<Action>, o: Overrides, a: Action, c: string)
    requires GoodTable(table) && a in table && !a.fixed && Wanted(o, a) == a.defaults && c in a.defaults
    requires forall e | e in table && e.id != a.id && Overlap(e.scope, a.scope) && e.id in o && o[e.id] != e.defaults ::
        c !in BindingsFor(Resolve(table, o), e.id)
    ensures c in BindingsFor(Resolve(table, o), a.id)
  {
    HoldsIff(table, o, a, c);
    hide Resolve, IsBefore, Overlap;
    if IsTaken(table, o, a, c) {
      var e :| e in table && e.id != a.id && IsBefore(table, o, e, a) && Overlap(e.scope, a.scope)
        && c in BindingsFor(Resolve(table, o), e.id);
      HeldIsWanted(table, o, e, c);
      assert c !in e.defaults by {
        assert Disjoint(e.defaults, a.defaults);
      }
    }
  }

  lemma {:induction false} FixedHoldsIff(table: seq<Action>, o: Overrides, e: Action, c: string)
    requires GoodTable(table) && e in table && e.fixed
    ensures c in BindingsFor(Resolve(table, o), e.id) <==> c in e.defaults
  {
    if c in e.defaults {
      FixedGetAll(table, o, e, c);
    }
    if c in BindingsFor(Resolve(table, o), e.id) {
      HeldIsWanted(table, o, e, c);
    }
  }

  /** Who takes a combination from an action with an override, before and after. */
  lemma {:induction false} TakerIsEarlier(table: seq<Action>, o: Overrides, n: nat, e: Action)
    requires UniqueIds(table) && n < |table| && e in table && IsBefore(table, o, e, table[n]) && !table[n].fixed
    requires table[n].id in o
    ensures e.fixed || (e.id in o && e in table[..n])
  {
    if !e.fixed {
      PrecedingIsBefore(table, n, e);
    }
  }

  lemma {:induction false} EarlierIsBefore(table: seq<Action>, o: Overrides, n: nat, e: Action)
    requires UniqueIds(table) && n < |table| && !table[n].fixed && table[n].id in o
    requires e.fixed || (e.id in o && e in table[..n])
    ensures IsBefore(table, o, e, table[n])
  {
    if !e.fixed {
      BeforeIsOther(table, n, e);
    }
  }

  /** An action whose override is kept holds the same, unless a combination is swapped. */
  lemma {:induction false} KeptHoldsTheSame(table: seq<Action>, o: Overrides, n: nat, c: string)
    requires GoodTable(table) && Sane(table, o) && !IsSwapped(table, o)
    requires n < |table| && !table[n].fixed && table[n].id in Reread(table, o)
    ensures c in BindingsFor(Resolve(table, o), table[n].id)
       <==> c in BindingsFor(Resolve(table, Reread(table, o)), table[n].id)
    decreases n
  {
    var d, next := table[n], Reread(table, o);
    TableIsUnique(table);
    RereadIs(table, o, d);
    HoldsIff(table, o, d, c);
    HoldsIff(table, next, d, c);
    hide *;
    if IsTaken(table, next, d, c) {
      var e := Taker(table, next, d, c);
      TakerIsEarlier(table, next, n, e);
      RereadIs(table, o, e);
      EarlierHoldsTheSame(table, o, n, e, c);
      EarlierIsBefore(table, o, n, e);
      SoItIsTaken(table, o, d, e, c);
    } else if IsTaken(table, o, d, c) && c in Wanted(o, d) {
      var e := Taker(table, o, d, c);
      TakerIsEarlier(table, o, n, e);
      RereadIs(table, o, e);
      if e.fixed || e.id in next {
        EarlierHoldsTheSame(table, o, n, e, c);
        EarlierIsBefore(table, next, n, e);
        SoItIsTaken(table, next, d, e, c);
      } else {
        BeforeIsOther(table, n, e);
        SoItIsSwapped(table, o, e, d, c);
      }
    }
  }

  lemma {:induction false} EarlierHoldsTheSame(table: seq<Action>, o: Overrides, n: nat, e: Action, c: string)
    requires GoodTable(table) && Sane(table, o) && !IsSwapped(table, o) && n < |table| && e in table
    requires e.fixed || (e.id in Reread(table, o) && e in table[..n])
    ensures c in BindingsFor(Resolve(table, o), e.id) <==> c in BindingsFor(Resolve(table, Reread(table, o)), e.id)
    decreases n, 0
  {
    hide *;
    if e.fixed {
      FixedHoldsIff(table, o, e, c);
      FixedHoldsIff(table, Reread(table, o), e, c);
    } else {
      var i :| 0 <= i < n && table[..n][i] == e;
      KeptHoldsTheSame(table, o, i, c);
    }
  }

  lemma {:induction false} Taker(table: seq<Action>, o: Overrides, b: Action, c: string) returns (e: Action)
    requires IsTaken(table, o, b, c)
    ensures e in table && e.id != b.id && IsBefore(table, o, e, b) && Overlap(e.scope, b.scope)
    ensures c in BindingsFor(Resolve(table, o), e.id)
  {
    e :| e in table && e.id != b.id && IsBefore(table, o, e, b) && Overlap(e.scope, b.scope)
      && c in BindingsFor(Resolve(table, o), e.id);
  }

  lemma {:induction false} SoItIsTaken(table: seq<Action>, o: Overrides, b: Action, e: Action, c: string)
    requires e in table && e.id != b.id && IsBefore(table, o, e, b) && Overlap(e.scope, b.scope)
    requires c in BindingsFor(Resolve(table, o), e.id)
    ensures IsTaken(table, o, b, c)
  {
  }

  lemma {:induction false} SoItIsSwapped(table: seq<Action>, o: Overrides, b: Action, d: Action, c: string)
    requires Swaps(table, o, b, d, c)
    ensures IsSwapped(table, o)
  {
  }

  /** Every other action wants its defaults before and after, and holds the same as well. */
  lemma {:induction false} RestHoldsTheSame(table: seq<Action>, o: Overrides, a: Action, c: string)
    requires GoodTable(table) && Sane(table, o) && !IsSwapped(table, o)
    requires a in table && !a.fixed && a.id !in Reread(table, o)
    ensures c in BindingsFor(Resolve(table, o), a.id) <==> c in BindingsFor(Resolve(table, Reread(table, o)), a.id)
  {
    var next := Reread(table, o);
    TableIsUnique(table);
    RereadIs(table, o, a);
    assert Wanted(o, a) == a.defaults == Wanted(next, a);
    hide *;
    if c in BindingsFor(Resolve(table, o), a.id) {
      HeldIsWanted(table, o, a, c);
      OthersHaveItNot(table, o, o, next, a, c);
      DefaultIsHeld(table, next, a, c);
    }
    if c in BindingsFor(Resolve(table, next), a.id) {
      HeldIsWanted(table, next, a, c);
      OthersHaveItNot(table, o, next, o, a, c);
      DefaultIsHeld(table, o, a, c);
    }
  }

  lemma {:induction false} OthersHaveItNot(table: seq<Action>, o: Overrides, here: Overrides, there: Overrides,
      a: Action, c: string)
    requires GoodTable(table) && Sane(table, o) && !IsSwapped(table, o) && a in table
    requires (here == o && there == Reread(table, o)) || (here == Reread(table, o) && there == o)
    requires c in BindingsFor(Resolve(table, here), a.id)
    ensures forall e | e in table && e.id != a.id && Overlap(e.scope, a.scope) && e.id in there
              && there[e.id] != e.defaults :: c !in BindingsFor(Resolve(table, there), e.id)
  {
    TableIsUnique(table);
    forall e | e in table && e.id != a.id && Overlap(e.scope, a.scope) && e.id in there && there[e.id] != e.defaults
      ensures c !in BindingsFor(Resolve(table, there), e.id)
    {
      OverlapIsMutual(e.scope, a.scope);
      RereadIs(table, o, e);
      EditableIsNotFixed(table, o, e);
      var n :| 0 <= n < |table| && table[n] == e;
      KeptHoldsTheSame(table, o, n, c);
      OneHoldsIt(table, here, a, e, c);
    }
  }

  lemma {:induction false} OverlapIsMutual(left: Scope, right: Scope)
    ensures Overlap(left, right) <==> Overlap(right, left)
  {
  }

  lemma {:induction false} SameListReread(table: seq<Action>, o: Overrides, a: Action)
    requires GoodTable(table) && Sane(table, o) && !IsSwapped(table, o) && a in table
    ensures a.id in Resolve(table, o) && a.id in Resolve(table, Reread(table, o))
    ensures Resolve(table, Reread(table, o))[a.id] == Resolve(table, o)[a.id]
  {
    var next := Reread(table, o);
    TableIsUnique(table);
    RereadIs(table, o, a);
    var p := GotIsKept(table, o, a);
    var q := GotIsKept(table, next, a);
    var n :| 0 <= n < |table| && table[n] == a;
    forall c
      ensures c in Keep(Wanted(o, a), p) <==> c in Keep(Wanted(o, a), q)
    {
      if a.fixed {
        FixedHoldsIff(table, o, a, c);
        FixedHoldsIff(table, next, a, c);
      } else if a.id in next {
        KeptHoldsTheSame(table, o, n, c);
      } else {
        RestHoldsTheSame(table, o, a, c);
      }
    }
    SameMembersSameList(Wanted(o, a), p, q);
  }

  lemma {:induction false} RereadingChangesIff(table: seq<Action>, o: Overrides)
    requires GoodTable(table) && Sane(table, o)
    ensures Resolve(table, Reread(table, o)) == Resolve(table, o) <==> !IsSwapped(table, o)
  {
    var next := Reread(table, o);
    TableIsUnique(table);
    hide GoodTable, Sane, Resolve;
    if IsSwapped(table, o) {
      var b, d, c :| Swaps(table, o, b, d, c);
      PrecedingIsOther(table, b, d);
      OneHoldsIt(table, o, b, d, c);
    } else {
      ResolveBindsAll(table, o);
      ResolveBindsAll(table, next);
      forall id | id in Resolve(table, o)
        ensures id in Resolve(table, next) && Resolve(table, next)[id] == Resolve(table, o)[id]
      {
        assert id in Resolve(table, o).Keys;
        var a :| a in table && a.id == id;
        SameListReread(table, o, a);
      }
      assert Resolve(table, next).Keys == Resolve(table, o).Keys;
    }
  }

  /**
   Whatever overrides there are, disputed or not: storing them and reading them back
   binds every action as before exactly if no combination is swapped.
   */
  lemma {:induction false} ReloadChangesNothingIff(table: seq<Action>, o: Overrides)
    requires GoodTable(table) && Sane(table, o) && NormalOverrides(o)
    ensures Resolve(table, Edited(table, o, Reload)) == Resolve(table, o) <==> !IsSwapped(table, o)
  {
    SanitizedIs(table, o);
    ReloadingIs(table, o);
    RereadingChangesIff(table, o);
    hide Resolve, Sanitized, AsStored, IsSwapped, Edited;
  }

  // Reloading with stored overrides.

  /** Two overrides that both want `x`, the first of them beside `y`. */
  function Swapping(b: Action, d: Action, x: string, y: string): Overrides {
    map[b.id := [x, y], d.id := [x]]
  }

  lemma {:induction false} SwappingIsSane(table: seq<Action>, b: Action, d: Action, x: string, y: string)
    requires UniqueIds(table) && b in table && d in table && !b.fixed && !d.fixed && b.id != d.id
    requires b.slots >= 2 && d.slots >= 1 && x != [] && y != [] && x != y
    ensures Sane(table, Swapping(b, d, x, y)) && Sane(table, map[d.id := [x]])
    ensures forall c | c in table && c.id in Swapping(b, d, x, y) :: c == b || c == d
  {
    forall c | c in table && c.id in Swapping(b, d, x, y)
      ensures c == b || c == d
    {
      SameIdSameAction(table, c, if c.id == b.id then b else d);
    }
  }

  /** What is served before `b` wants neither. */
  lemma {:induction false} EarlierWantNeither(table: seq<Action>, n: nat, d: Action, x: string, y: string, e: Action,
      c: string)
    requires GoodTable(table) && n < |table| && d in table && !table[n].fixed && !d.fixed && table[n].id != d.id
    requires x in table[n].defaults && Precedes(table, table[n], d) && (forall a | a in table :: y !in a.defaults)
    requires e in Served(table, Swapping(table[n], d, x, y), n) && Overlap(e.scope, table[n].scope)
          && (c == x || c == y)
    ensures c !in Wanted(Swapping(table[n], d, x, y), e)
  {
    var b := table[n];
    ServedAre(table, Swapping(b, d, x, y), n);
    if e.fixed {
      SameFixed(table, b, e);
      assert Disjoint(e.defaults, b.defaults);
    } else {
      BeforeIsOther(table, n, e);
      SameIdSameAction(table, e, d);
      NotBothWays(table, n, d);
    }
  }

  lemma {:induction false} NotBothWays(table: seq<Action>, n: nat, d: Action)
    requires UniqueIds(table) && n < |table| && Precedes(table, table[n], d)
    ensures d !in table[..n]
  {
    var i, j :| 0 <= i < j < |table| && table[i] == table[n] && table[j] == d;
    assert i == n;
    assert forall k | 0 <= k < n :: table[k].id != table[j].id;
  }

  /** So it gets both. */
  lemma {:induction false} FirstOfTwoGetsAll(table: seq<Action>, n: nat, d: Action, x: string, y: string)
    requires GoodTable(table) && n < |table| && d in table && !table[n].fixed && !d.fixed && table[n].id != d.id
    requires x in table[n].defaults && Precedes(table, table[n], d) && (forall a | a in table :: y !in a.defaults)
    ensures BindingsFor(Resolve(table, Swapping(table[n], d, x, y)), table[n].id) == [x, y]
  {
    var b := table[n];
    var o := Swapping(b, d, x, y);
    var order, i := Order(table, o), |Served(table, o, n)|;
    TableIsUnique(table);
    assert Wanted(o, b) == [x, y];
    hide Order, Resolve, Served, Overlap, Claimed, IsClaimed, Wanted, Swapping, Precedes, GoodTable;
    OrderStartsWith(table, o, n);
    assert order[i] == b;
    ResolvedInTable(table, o, i);
    var claims := Claimed(o, order[..i]);
    forall c | c in [x, y]
      ensures !IsClaimed(claims, b.scope, c)
    {
      ClaimedIff(o, order, i, b.scope, c);
      if GotBefore(o, order, i, b.scope, c) {
        var j := SomebodyGotIt(o, order, i, b.scope, c);
        GotIff(o, order, j, c);
        assert Served(table, o, n)[j] == order[j] && order[j] in Served(table, o, n);
        EarlierWantNeither(table, n, d, x, y, order[j], c);
      }
    }
    KeepsAll([x, y], c => !IsClaimed(claims, b.scope, c));
  }

  /** The override that is left once the other equals the defaults and is dropped. */
  lemma {:induction false} OneIsLeft(table: seq<Action>, b: Action, d: Action, x: string)
    requires GoodTable(table) && b in table && d in table && !b.fixed && !d.fixed && b.scope == d.scope
    requires b.id != d.id && b.defaults == [x] && d.slots >= 1 && x != []
    ensures Clean(table, map[d.id := [x]]) && x !in BindingsFor(Resolve(table, map[d.id := [x]]), b.id)
  {
    var o := map[d.id := [x]];
    forall e, f | e in table && f in table && e.id != f.id && Overlap(e.scope, f.scope) && IsStrong(o, e)
      && IsStrong(o, f)
      ensures Disjoint(Wanted(o, e), Wanted(o, f))
    {
      StrongWantOther(table, b, d, x, e);
      StrongWantOther(table, b, d, x, f);
      assert Overlap(f.scope, e.scope);
    }
    assert Sane(table, o) by {
      forall e | e in table && e.id in o
        ensures GoodList(o[e.id], e.slots)
      {
        SameIdSameAction(table, e, d);
      }
    }
    StrongGetsAll(table, o, d);
    assert Overlap(d.scope, b.scope) && x in Wanted(o, d);
    OneHoldsIt(table, o, d, b, x);
  }

  lemma {:induction false} StrongWantOther(table: seq<Action>, b: Action, d: Action, x: string, e: Action)
    requires GoodTable(table) && b in table && d in table && e in table && !b.fixed && !d.fixed && b.scope == d.scope
    requires b.id != d.id && b.defaults == [x] && IsStrong(map[d.id := [x]], e)
    ensures if e.id == d.id then e == d && Wanted(map[d.id := [x]], e) == [x]
      else e.fixed && Wanted(map[d.id := [x]], e) == e.defaults && (Overlap(e.scope, d.scope) ==> x !in e.defaults)
  {
    if e.id == d.id {
      SameIdSameAction(table, e, d);
    } else if Overlap(e.scope, d.scope) {
      SameFixed(table, b, e);
      assert Disjoint(b.defaults, e.defaults) && x in b.defaults;
    }
  }

  lemma {:induction false} SwapIsStored(table: seq<Action>, b: Action, d: Action, x: string, y: string)
    requires GoodTable(table) && b in table && d in table && b.id != d.id && b.defaults == [x] && x !in d.defaults
    requires InNormalForm(x) && InNormalForm(y) && Sane(table, Swapping(b, d, x, y))
    ensures Sanitized(table, AsStored(Swapping(b, d, x, y))) == Swapping(b, d, x, y)
  {
    var o := Swapping(b, d, x, y);
    hide InNormalForm, AsStored, Sanitized, Sane;
    TableIsUnique(table);
    forall a | a in table && a.id in o
      ensures o[a.id] != a.defaults
    {
      SameIdSameAction(table, a, if a.id == d.id then d else b);
      assert x in [x] && |[x, y]| == 2;
    }
    ReadBackAsIs(table, o);
  }

  lemma {:induction false} OnlyRepeatingIsDropped(table: seq<Action>, b: Action, d: Action, x: string)
    requires GoodTable(table) && b in table && d in table && b.id != d.id && b.defaults == [x] && x !in d.defaults
    requires InNormalForm(x) && !b.fixed && !d.fixed && b.slots >= 1 && d.slots >= 1 && x != []
    ensures Sanitized(table, AsStored(map[b.id := [x], d.id := [x]])) == map[d.id := [x]]
  {
    var o := map[b.id := [x], d.id := [x]];
    hide InNormalForm, AsStored, Sanitized;
    TableIsUnique(table);
    forall e | e in table && e.id in o
      ensures GoodList(o[e.id], e.slots)
    {
      SameIdSameAction(table, e, if e.id == b.id then b else d);
    }
    SanitizedIs(table, o);
    RepeatingIff(table, o, b);
    RepeatingIff(table, o, d);
    assert x in [x];
    hide Repeating;
    assert o - Repeating(table, o) == map[d.id := [x]];
  }

  /**
   Two stored overrides dispute a combination that is the first action's only default.
   Once a further combination is cleared from the first, its list equals its defaults:
   it still has the combination, but after a reload the second has.
   */
  lemma {:induction false} ReloadCanSwap(table: seq<Action>, b: Action, d: Action, x: string, y: string)
    requires GoodTable(table) && !b.fixed && !d.fixed && b.scope == d.scope && Precedes(table, b, d)
    requires b.slots >= 2 && d.slots >= 1 && b.defaults == [x]
    requires InNormalForm(x) && InNormalForm(y) && forall a | a in table :: y !in a.defaults
    ensures var o := Swapping(b, d, x, y); var cleared := EditedFrom(table, o, [Clear(b.id, 1)]);
      && Sanitized(table, AsStored(o)) == o
      && BindingsFor(Resolve(table, cleared), b.id) == [x]
      && x !in BindingsFor(Resolve(table, Edited(table, cleared, Reload)), b.id)
  {
    hide *;
    var n := PlaceInTable(table, b, d, x);
    var o := Swapping(b, d, x, y);
    TableIsUnique(table);
    NormalFormIsSet(x);
    NormalFormIsSet(y);
    assert y !in b.defaults;
    SwappingIsSane(table, b, d, x, y);
    SwapIsStored(table, b, d, x, y);
    FirstOfTwoGetsAll(table, n, d, x, y);
    ClearUnbinds(table, o, b, 1);
    OnlyRepeatingIsDropped(table, b, d, x);
    OneIsLeft(table, b, d, x);
    ClearingLeaves(table, b, d, x, y);
    ReloadingIs(table, map[b.id := [x], d.id := [x]]);
  }

  lemma {:induction false} ReloadingIs(table: seq<Action>, o: Overrides)
    ensures Edited(table, o, Reload) == Sanitized(table, AsStored(o))
  {
  }

  lemma {:induction false} PlaceInTable(table: seq<Action>, b: Action, d: Action, x: string) returns (n: nat)
    requires GoodTable(table) && Precedes(table, b, d) && b.scope == d.scope && b.defaults == [x]
    ensures n < |table| && table[n] == b && b in table && d in table && b.id != d.id && x in b.defaults
    ensures x !in d.defaults
  {
    PrecedingIsOther(table, b, d);
    n :| 0 <= n < |table| && table[n] == b;
    assert x in b.defaults && Disjoint(b.defaults, d.defaults);
  }

  lemma {:induction false} ClearingLeaves(table: seq<Action>, b: Action, d: Action, x: string, y: string)
    requires UniqueIds(table) && b in table && !b.fixed && b.id != d.id
    requires BindingsFor(Resolve(table, Swapping(b, d, x, y)), b.id) == [x, y]
    ensures EditedFrom(table, Swapping(b, d, x, y), [Clear(b.id, 1)]) == map[b.id := [x], d.id := [x]]
    ensures map[b.id := [x], d.id := [x]]
         == AfterClear(Swapping(b, d, x, y), Resolve(table, Swapping(b, d, x, y)), b, 1)
    ensures RemoveAt([x, y], 1) == [x]
  {
    var o := Swapping(b, d, x, y);
    FindFinds(table, b.id);
    SameIdSameAction(table, b, Find(table, b.id).value);
    hide Resolve, Find;
    assert [Clear(b.id, 1)][..0] == [];
    assert EditedFrom(table, o, []) == o;
    assert [x, y][..1] + [x, y][2..] == [x];
  }
}
