/** Resolution never leaves a conflict, and edited overrides survive it whole. */
module KeyBindingsTheorems {
  import opened Wrappers
  import opened KeyBindings

  predicate Disjoint(left: seq<string>, right: seq<string>) {
    forall combo | combo in left :: combo !in right
  }

  /** As many combinations as slots at most, none of them empty and none twice. */
  predicate GoodList(combos: seq<string>, slots: nat) {
    && |combos| <= slots
    && (forall i, j | 0 <= i < j < |combos| :: combos[i] != combos[j])
    && (forall i | 0 <= i < |combos| :: combos[i] != [])
  }

  /** Unique identifiers, and defaults that fit their slots and conflict with no others. */
  ghost predicate GoodTable(table: seq<Action>) {
    && UniqueIds(table)
    && (forall a | a in table :: GoodList(a.defaults, a.slots))
    && (forall a, b | a in table && b in table && a.id != b.id && Overlap(a.scope, b.scope) ::
      Disjoint(a.defaults, b.defaults))
  }

  /** No two actions that can be live together hold the same combination. */
  ghost predicate NoConflicts(table: seq<Action>, resolved: Bindings) {
    forall a, b | a in table && b in table && a.id != b.id && Overlap(a.scope, b.scope) ::
      Disjoint(BindingsFor(resolved, a.id), BindingsFor(resolved, b.id))
  }

  lemma {:induction false} KeepKeeps(combos: seq<string>, p: string -> bool)
    ensures forall c :: c in Keep(combos, p) <==> c in combos && p(c)
  {
    if combos != [] {
      KeepKeeps(combos[..|combos| - 1], p);
      assert combos == combos[..|combos| - 1] + [combos[|combos| - 1]];
    }
  }

  lemma {:induction false} KeepsAll(combos: seq<string>, p: string -> bool)
    requires forall c | c in combos :: p(c)
    ensures Keep(combos, p) == combos
  {
    if combos != [] {
      KeepsAll(combos[..|combos| - 1], p);
      assert combos == combos[..|combos| - 1] + [combos[|combos| - 1]];
    }
  }

  lemma {:induction false} KeepAgrees(combos: seq<string>, p: string -> bool, q: string -> bool)
    requires forall c | c in combos :: p(c) == q(c)
    ensures Keep(combos, p) == Keep(combos, q)
  {
    if combos != [] {
      KeepAgrees(combos[..|combos| - 1], p, q);
      assert combos[|combos| - 1] in combos;
    }
  }

  lemma {:induction false} KeepStaysGood(combos: seq<string>, p: string -> bool, slots: nat)
    requires GoodList(combos, slots)
    ensures GoodList(Keep(combos, p), slots) && |Keep(combos, p)| <= |combos|
  {
    if combos != [] {
      var n := |combos| - 1;
      KeepStaysGood(combos[..n], p, slots);
      KeepKeeps(combos[..n], p);
      assert combos[n] !in combos[..n];
      assert forall i | 0 <= i < |Keep(combos[..n], p)| :: Keep(combos[..n], p)[i] in combos[..n];
      assert |Keep(combos[..n], p)| <= n;
    }
  }

  // Resolution, for every overrides value.

  /** What the action at `i` of the priority order gets. */
  function Got(o: Overrides, order: seq<Action>, i: nat): seq<string>
    requires i < |order|
  {
    Accepted(o, Claimed(o, order[..i]), order[i])
  }

  lemma {:induction false} ResolvedAt(o: Overrides, order: seq<Action>, i: nat)
    requires UniqueIds(order) && i < |order|
    ensures order[i].id in ResolvedIn(o, order) && ResolvedIn(o, order)[order[i].id] == Got(o, order, i)
    decreases |order|
  {
    var n := |order| - 1;
    hide Claimed, Accepted;
    if i < n {
      ResolvedAt(o, order[..n], i);
      assert order[..n][..i] == order[..i] && order[..n][i] == order[i];
      assert order[i].id != order[n].id;
    }
  }

  /** Whether an action before `n` that can be live with a scope got a combination. */
  ghost predicate GotBefore(o: Overrides, order: seq<Action>, n: nat, scope: Scope, combo: string)
    requires n <= |order|
  {
    exists i | 0 <= i < n :: Overlap(order[i].scope, scope) && combo in Got(o, order, i)
  }

  lemma {:induction false} ClaimedGrows(o: Overrides, order: seq<Action>, n: nat)
    requires n < |order|
    ensures Claimed(o, order[..n + 1]) == Claimed(o, order[..n]) + ClaimsOf(order[n].scope, Got(o, order, n))
  {
    assert order[..n + 1][..n] == order[..n];
  }

  lemma {:induction false} GotBeforeGrows(o: Overrides, order: seq<Action>, n: nat, scope: Scope, combo: string)
    requires n < |order|
    ensures GotBefore(o, order, n + 1, scope, combo) <==>
              GotBefore(o, order, n, scope, combo) || (Overlap(order[n].scope, scope) && combo in Got(o, order, n))
  {
    hide Got, Overlap;
    if GotBefore(o, order, n + 1, scope, combo) {
      var i :| 0 <= i < n + 1 && Overlap(order[i].scope, scope) && combo in Got(o, order, i);
    }
  }

  lemma {:induction false} NothingClaimed(o: Overrides, order: seq<Action>, scope: Scope, combo: string)
    ensures !IsClaimed(Claimed(o, order[..0]), scope, combo) && !GotBefore(o, order, 0, scope, combo)
  {
  }

  lemma {:induction false} ClaimedIff(o: Overrides, order: seq<Action>, n: nat, scope: Scope, combo: string)
    requires n <= |order|
    ensures IsClaimed(Claimed(o, order[..n]), scope, combo) <==> GotBefore(o, order, n, scope, combo)
    decreases n
  {
    hide Claimed, Got, IsClaimed, GotBefore, Overlap;
    if n == 0 {
      NothingClaimed(o, order, scope, combo);
    } else {
      var last := order[n - 1];
      ClaimedIff(o, order, n - 1, scope, combo);
      ClaimedGrows(o, order, n - 1);
      GotBeforeGrows(o, order, n - 1, scope, combo);
      ClaimsOfIff(last.scope, Got(o, order, n - 1), scope, combo);
      IsClaimedAppend(Claimed(o, order[..n - 1]), ClaimsOf(last.scope, Got(o, order, n - 1)), scope, combo);
    }
  }

  lemma {:induction false} IsClaimedAppend(a: seq<Claim>, b: seq<Claim>, scope: Scope, combo: string)
    ensures IsClaimed(a + b, scope, combo) <==> IsClaimed(a, scope, combo) || IsClaimed(b, scope, combo)
  {
    if IsClaimed(a, scope, combo) {
      var i :| 0 <= i < |a| && a[i].combo == combo && Overlap(a[i].scope, scope);
      assert (a + b)[i] == a[i];
    }
    if IsClaimed(b, scope, combo) {
      var i :| 0 <= i < |b| && b[i].combo == combo && Overlap(b[i].scope, scope);
      assert (a + b)[|a| + i] == b[i];
    }
  }

  lemma {:induction false} ClaimsOfIff(owner: Scope, combos: seq<string>, scope: Scope, combo: string)
    ensures IsClaimed(ClaimsOf(owner, combos), scope, combo) <==> Overlap(owner, scope) && combo in combos
  {
    if combo in combos {
      var i :| 0 <= i < |combos| && combos[i] == combo;
      assert ClaimsOf(owner, combos)[i] == Claim(owner, combo);
    }
  }

  /** An action gets what it wants exactly as far as no earlier one in an overlapping scope got it. */
  lemma {:induction false} GotIff(o: Overrides, order: seq<Action>, i: nat, combo: string)
    requires i < |order|
    ensures combo in Got(o, order, i) <==>
              combo in Wanted(o, order[i]) && !GotBefore(o, order, i, order[i].scope, combo)
  {
    ClaimedIff(o, order, i, order[i].scope, combo);
    var claims := Claimed(o, order[..i]);
    KeepKeeps(Wanted(o, order[i]), c => !IsClaimed(claims, order[i].scope, c));
  }

  lemma {:induction false} PlaceOf(table: seq<Action>, o: Overrides, a: Action) returns (i: nat)
    requires UniqueIds(table) && a in table
    ensures i < |Order(table, o)| && Order(table, o)[i] == a
    ensures a.id in Resolve(table, o) && Resolve(table, o)[a.id] == Got(o, Order(table, o), i)
  {
    OrderIsWhole(table, o);
    i :| 0 <= i < |Order(table, o)| && Order(table, o)[i] == a;
    ResolvedAt(o, Order(table, o), i);
  }

  lemma {:induction false} OneHoldsIt(table: seq<Action>, o: Overrides, a: Action, b: Action, combo: string)
    requires UniqueIds(table) && a in table && b in table && a.id != b.id && Overlap(a.scope, b.scope)
    requires combo in BindingsFor(Resolve(table, o), a.id)
    ensures combo !in BindingsFor(Resolve(table, o), b.id)
  {
    hide Order, Resolve, Got, Wanted;
    var order := Order(table, o);
    var i := PlaceOf(table, o, a);
    var j := PlaceOf(table, o, b);
    GotIff(o, order, if i < j then j else i, combo);
  }

  /** Whatever the overrides say, resolution leaves no conflict. */
  lemma {:induction false} ResolutionHasNoConflicts(table: seq<Action>, o: Overrides)
    requires UniqueIds(table)
    ensures NoConflicts(table, Resolve(table, o))
  {
    forall a, b, combo | a in table && b in table && a.id != b.id && Overlap(a.scope, b.scope)
                         && combo in BindingsFor(Resolve(table, o), a.id)
      ensures combo !in BindingsFor(Resolve(table, o), b.id)
    {
      OneHoldsIt(table, o, a, b, combo);
    }
  }

  /** And it drops a wanted combination only where another action that can be live with this one holds it. */
  lemma {:induction false} WantedIsHeldSomewhere(table: seq<Action>, o: Overrides, a: Action, combo: string)
    requires UniqueIds(table) && a in table && combo in Wanted(o, a)
    ensures exists b | b in table :: Overlap(b.scope, a.scope) && combo in BindingsFor(Resolve(table, o), b.id)
  {
    var order := Order(table, o);
    var i := PlaceOf(table, o, a);
    OrderIsWhole(table, o);
    GotIff(o, order, i, combo);
    if combo !in Got(o, order, i) {
      var j :| 0 <= j < i && Overlap(order[j].scope, a.scope) && combo in Got(o, order, j);
      ResolvedAt(o, order, j);
      assert order[j] in order;
    } else {
      assert Overlap(a.scope, a.scope);
    }
  }

  /** While a page is open its scope is live, and those of the whole interface and of playback always are. */
  predicate IsLiveOn(scope: Scope, page: Scope) {
    scope == Global || scope == Playback || scope == page
  }

  /** Two scopes overlap exactly if on some page both are live. */
  lemma {:induction false} OverlapIff(a: Scope, b: Scope)
    ensures Overlap(a, b) <==> exists page | page == Video || page == Reader :: IsLiveOn(a, page) && IsLiveOn(b, page)
  {
    assert Overlap(a, b) ==> IsLiveOn(a, if a == Reader || b == Reader then Reader else Video);
  }

  /** On any page at most one action answers a combination, in whatever order the live scopes are searched. */
  lemma {:induction false} MatchIsTheOnlyOne(table: seq<Action>, o: Overrides, page: Scope, i: nat, j: nat,
      combo: string)
    requires forall k, l | 0 <= k < l < |table| :: table[k].id != table[l].id
    requires i < |table| && j < |table| && IsLiveOn(table[i].scope, page) && IsLiveOn(table[j].scope, page)
    requires var resolved := Resolve(table, o);
      && table[i].id in resolved && combo in resolved[table[i].id]
      && table[j].id in resolved && combo in resolved[table[j].id]
    ensures i == j
  {
    ResolutionHasNoConflicts(table, o);
    var a, b := table[i], table[j];
    assert combo in BindingsFor(Resolve(table, o), a.id) && combo in BindingsFor(Resolve(table, o), b.id);
    assert a in table && b in table;
    hide Resolve;
  }

  // Overrides as editing leaves them.

  /** Each override is a good list for an action that may have one. */
  ghost predicate Sane(table: seq<Action>, o: Overrides) {
    && (forall id | id in o :: exists a | a in table :: a.id == id && !a.fixed)
    && (forall a | a in table && a.id in o :: GoodList(o[a.id], a.slots))
  }

  /** And no two strong actions want the same combination. */
  ghost predicate Clean(table: seq<Action>, o: Overrides) {
    && Sane(table, o)
    && (forall a, b | a in table && b in table && a.id != b.id && Overlap(a.scope, b.scope)
                      && IsStrong(o, a) && IsStrong(o, b) :: Disjoint(Wanted(o, a), Wanted(o, b)))
  }

  /** Whether a strong action wants a combination in a scope that overlaps that of `a`. */
  ghost predicate TakenByStrong(table: seq<Action>, o: Overrides, a: Action, combo: string) {
    exists b | b in table :: b.id != a.id && IsStrong(o, b) && Overlap(b.scope, a.scope) && combo in Wanted(o, b)
  }

  lemma {:induction false} StrongComeFirst(table: seq<Action>, o: Overrides) returns (k: nat)
    ensures k <= |Order(table, o)|
    ensures forall i | 0 <= i < |Order(table, o)| :: IsStrong(o, Order(table, o)[i]) <==> i < k
  {
    var fixed := KeepActions(table, (a: Action) => a.fixed);
    var strong := KeepActions(table, (a: Action) => !a.fixed && a.id in o);
    var weak := KeepActions(table, (a: Action) => !a.fixed && a.id !in o);
    KeepActionsKeeps(table, (a: Action) => a.fixed);
    KeepActionsKeeps(table, (a: Action) => !a.fixed && a.id in o);
    KeepActionsKeeps(table, (a: Action) => !a.fixed && a.id !in o);
    k := |fixed| + |strong|;
    var order := fixed + strong + weak;
    forall i | 0 <= i < |order|
      ensures IsStrong(o, order[i]) <==> i < k
    {
      if i < |fixed| {
        assert order[i] in fixed;
      } else if i < k {
        assert order[i] == strong[i - |fixed|];
        assert order[i] in strong;
      } else {
        assert order[i] == weak[i - k];
        assert order[i] in weak;
      }
    }
  }

  lemma {:induction false} NobodyGotItBefore(table: seq<Action>, o: Overrides, i: nat, combo: string)
    requires GoodTable(table) && Clean(table, o) && i < |Order(table, o)| && IsStrong(o, Order(table, o)[i])
    requires combo in Wanted(o, Order(table, o)[i])
    ensures !GotBefore(o, Order(table, o), i, Order(table, o)[i].scope, combo)
  {
    var order := Order(table, o);
    var k := StrongComeFirst(table, o);
    OrderIsWhole(table, o);
    var a := order[i];
    assert a in order;
    forall j | 0 <= j < i && Overlap(order[j].scope, a.scope)
      ensures combo !in Got(o, order, j)
    {
      GotIff(o, order, j, combo);
      assert order[j] in order && IsStrong(o, order[j]);
      EarlierWantsOther(table, o, a, order[j], combo);
    }
  }

  lemma {:induction false} EarlierWantsOther(table: seq<Action>, o: Overrides, a: Action, b: Action, combo: string)
    requires Clean(table, o) && a in table && b in table && a.id != b.id && Overlap(b.scope, a.scope)
    requires IsStrong(o, a) && IsStrong(o, b) && combo in Wanted(o, a)
    ensures combo !in Wanted(o, b)
  {
    assert Overlap(a.scope, b.scope);
    assert Disjoint(Wanted(o, a), Wanted(o, b));
  }

  /** With clean overrides a strong action gets all it wants, */
  lemma {:induction false} StrongGetsAll(table: seq<Action>, o: Overrides, a: Action)
    requires GoodTable(table) && Clean(table, o) && a in table && IsStrong(o, a)
    ensures BindingsFor(Resolve(table, o), a.id) == Wanted(o, a)
  {
    var order := Order(table, o);
    var i := PlaceOf(table, o, a);
    var claims := Claimed(o, order[..i]);
    forall combo | combo in Wanted(o, a)
      ensures !IsClaimed(claims, a.scope, combo)
    {
      ClaimedIff(o, order, i, a.scope, combo);
      NobodyGotItBefore(table, o, i, combo);
    }
    KeepsAll(Wanted(o, a), c => !IsClaimed(claims, a.scope, c));
  }

  /** and a weak one its defaults that no strong one wants. */
  lemma {:induction false} WeakGetsTheRest(table: seq<Action>, o: Overrides, a: Action, combo: string)
    requires GoodTable(table) && Clean(table, o) && a in table && !IsStrong(o, a)
    ensures combo in BindingsFor(Resolve(table, o), a.id) <==> combo in a.defaults && !TakenByStrong(table, o, a, combo)
  {
    var order := Order(table, o);
    var i := PlaceOf(table, o, a);
    var k := StrongComeFirst(table, o);
    OrderIsWhole(table, o);
    GotIff(o, order, i, combo);
    if TakenByStrong(table, o, a, combo) {
      var b :| b in table && b.id != a.id && IsStrong(o, b) && Overlap(b.scope, a.scope) && combo in Wanted(o, b);
      var j := PlaceOf(table, o, b);
      StrongGetsAll(table, o, b);
      assert GotBefore(o, order, i, a.scope, combo);
    }
    if combo in a.defaults && GotBefore(o, order, i, a.scope, combo) {
      var j :| 0 <= j < i && Overlap(order[j].scope, a.scope) && combo in Got(o, order, j);
      GotIff(o, order, j, combo);
      assert order[j] in order && order[j].id != order[i].id;
      assert Overlap(a.scope, order[j].scope);
    }
  }
}
