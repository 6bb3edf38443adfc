/** The normal form of a key combination written as text, such as "ctrl+shift+k". */
module KeyCombos {
  import opened Wrappers
  import opened Text

  /**
   White space as JavaScript's trim removes it: white space and line ends of the
   language, and the byte order mark.
   */
  predicate IsScriptSpace(c: char) {
    || '\t' <= c <= '\r' || c == ' ' || c == '\U{00A0}' || c == '\U{1680}' || '\U{2000}' <= c <= '\U{200A}'
    || c == '\U{2028}' || c == '\U{2029}' || c == '\U{202F}' || c == '\U{205F}' || c == '\U{3000}' || c == '\U{FEFF}'
  }

  /** The length of a text in UTF-16 units. */
  function Units(s: string): nat {
    if s == [] then 0 else Units(s[..|s| - 1]) + if s[|s| - 1] < '\U{10000}' then 1 else 2
  }

  /** The parts of a text between its plus signs; there is always one. */
  function Split(s: string): (parts: seq<string>)
    ensures parts != []
  {
    if s == [] then [""]
    else
      var rest := Split(s[1..]);
      if s[0] == '+' then [""] + rest else [[s[0]] + rest[0]] + rest[1..]
  }

  function Join(parts: seq<string>): string
    requires parts != []
  {
    if |parts| == 1 then parts[0] else parts[0] + "+" + Join(parts[1..])
  }

  const MODIFIERS: seq<string> := ["ctrl", "alt", "shift"]

  function Canonical(modifier: string): string {
    if modifier == "meta" then "ctrl" else modifier
  }

  predicate AllModifiers(parts: seq<string>) {
    forall i | 0 <= i < |parts| :: Canonical(parts[i]) in MODIFIERS
  }

  function CanonicalSet(parts: seq<string>): set<string> {
    set i | 0 <= i < |parts| :: Canonical(parts[i])
  }

  predicate IsKey(key: string) {
    && key != [] && TrimBy(key, IsScriptSpace) == key
    && key != "ctrl" && key != "meta" && key != "alt" && key != "shift"
  }

  function When(present: bool, name: string): seq<string> {
    if present then [name] else []
  }

  /** The modifiers of a set in their fixed order. */
  function ModifierList(modifiers: set<string>): seq<string> {
    When("ctrl" in modifiers, "ctrl") + When("alt" in modifiers, "alt") + When("shift" in modifiers, "shift")
  }

  function Ordered(modifiers: set<string>, key: string): seq<string> {
    ModifierList(modifiers) + [key]
  }

  function Normalize(combo: string): Option<string> {
    NormalizeValue(Lower(TrimBy(combo, IsScriptSpace)))
  }

  /** The same of a text that is trimmed and in small letters. */
  function NormalizeValue(value: string): Option<string> {
    if value == "+" then Some("plus")
    else if value == [] || Units(value) > 80 then None
    else
      var parts := Split(value);
      var modifiers, key := parts[..|parts| - 1], parts[|parts| - 1];
      if !IsKey(key) || !AllModifiers(modifiers) then None
      else
        var name := if key == " " then "space" else if key == "+" then "plus" else key;
        Some(Join(Ordered(CanonicalSet(modifiers), name)))
  }

  /** The canonical modifiers of these parts, giving up at the first that is none. */
  method CollectModifiers(parts: seq<string>) returns (modifiers: Option<set<string>>)
    ensures modifiers == if AllModifiers(parts) then Some(CanonicalSet(parts)) else None
  {
    var found: set<string> := {};
    for n := 0 to |parts|
      invariant forall i | 0 <= i < n :: Canonical(parts[i]) in MODIFIERS
      invariant found == set i | 0 <= i < n :: Canonical(parts[i])
    {
      var canonical := Canonical(parts[n]);
      if canonical != "ctrl" && canonical != "alt" && canonical != "shift" {
        return None;
      }
      found := found + {canonical};
    }
    modifiers := Some(found);
  }

  method NormalizeCombo(combo: string) returns (r: Option<string>)
    ensures r == Normalize(combo)
  {
    var value := Lower(TrimBy(combo, IsScriptSpace));
    if value == "+" {
      return Some("plus");
    }
    if value == [] || Units(value) > 80 {
      return None;
    }
    var parts := Split(value);
    var key := parts[|parts| - 1];
    if !IsKey(key) {
      return None;
    }
    var modifiers := CollectModifiers(parts[..|parts| - 1]);
    if modifiers.None? {
      return None;
    }
    var last := if key == " " then "space" else if key == "+" then "plus" else key;
    r := Some(Join(Ordered(modifiers.value, last)));
  }

  lemma {:induction false} SplitHasNoPlus(s: string)
    ensures forall i | 0 <= i < |Split(s)| :: '+' !in Split(s)[i]
  {
    if s != [] {
      SplitHasNoPlus(s[1..]);
    }
  }

  lemma {:induction false} SplitKeepsCharacters(s: string, p: char -> bool)
    requires forall i | 0 <= i < |s| :: p(s[i])
    ensures forall i, j | 0 <= i < |Split(s)| && 0 <= j < |Split(s)[i]| :: p(Split(s)[i][j])
  {
    if s != [] {
      SplitKeepsCharacters(s[1..], p);
    }
  }

  lemma {:induction false} SplitPlain(s: string)
    requires '+' !in s
    ensures Split(s) == [s]
  {
    if s != [] {
      SplitPlain(s[1..]);
      assert s == [s[0]] + s[1..];
    }
  }

  lemma {:induction false} SplitFirst(s: string, rest: string)
    requires '+' !in s
    ensures Split(s + "+" + rest) == [s] + Split(rest)
  {
    var whole := s + "+" + rest;
    if s == [] {
      assert whole[1..] == rest;
      assert s + "+" == "+";
    } else {
      SplitFirst(s[1..], rest);
      assert whole[1..] == s[1..] + "+" + rest;
      assert [s[0]] + s[1..] == s;
    }
  }

  /** Splitting a joined text gives its parts back. */
  lemma {:induction false} SplitJoin(parts: seq<string>)
    requires parts != [] && forall i | 0 <= i < |parts| :: '+' !in parts[i]
    ensures Split(Join(parts)) == parts
  {
    if |parts| == 1 {
      SplitPlain(parts[0]);
    } else {
      SplitJoin(parts[1..]);
      SplitFirst(parts[0], Join(parts[1..]));
    }
  }

  lemma {:induction false} UnitsAdd(a: string, b: string)
    ensures Units(a + b) == Units(a) + Units(b)
  {
    if b == [] {
      assert a + b == a;
    } else {
      UnitsAdd(a, b[..|b| - 1]);
      assert (a + b)[..|a + b| - 1] == a + b[..|b| - 1];
    }
  }

  lemma {:induction false} JoinSplit(s: string)
    ensures Join(Split(s)) == s
  {
    if s != [] {
      JoinSplit(s[1..]);
      var rest := Split(s[1..]);
      if s[0] == '+' {
        assert ([""] + rest)[1..] == rest;
      } else {
        JoinFirst([s[0]], rest);
      }
      assert s == [s[0]] + s[1..];
    }
  }

  lemma {:induction false} JoinFirst(prefix: string, parts: seq<string>)
    requires parts != []
    ensures Join([prefix + parts[0]] + parts[1..]) == prefix + Join(parts)
  {
    var longer := [prefix + parts[0]] + parts[1..];
    assert longer[1..] == parts[1..];
  }

  lemma {:induction false} JoinKeepsCharacters(parts: seq<string>, p: char -> bool)
    requires parts != [] && p('+') && forall i, j | 0 <= i < |parts| && 0 <= j < |parts[i]| :: p(parts[i][j])
    ensures forall j | 0 <= j < |Join(parts)| :: p(Join(parts)[j])
  {
    if |parts| > 1 {
      JoinKeepsCharacters(parts[1..], p);
    }
  }

  lemma {:induction false} JoinEnds(parts: seq<string>)
    requires parts != [] && forall i | 0 <= i < |parts| :: parts[i] != []
    ensures |Join(parts)| >= |parts| && Join(parts)[0] == parts[0][0]
    ensures var last := parts[|parts| - 1]; Join(parts)[|Join(parts)| - 1] == last[|last| - 1]
  {
    if |parts| > 1 {
      JoinEnds(parts[1..]);
    }
  }

  // Lengths.

  function Weight(parts: seq<string>): nat {
    if parts == [] then 0 else Weight(parts[..|parts| - 1]) + Units(parts[|parts| - 1]) + 1
  }

  lemma {:induction false} WeightAdd(a: seq<string>, b: seq<string>)
    ensures Weight(a + b) == Weight(a) + Weight(b)
  {
    if b == [] {
      assert a + b == a;
    } else {
      WeightAdd(a, b[..|b| - 1]);
      assert (a + b)[..|a + b| - 1] == a + b[..|b| - 1];
    }
  }

  lemma {:induction false} JoinUnits(parts: seq<string>)
    requires parts != []
    ensures Units(Join(parts)) + 1 == Weight(parts)
  {
    if |parts| == 1 {
      assert parts[..0] == [];
    } else {
      JoinUnits(parts[1..]);
      UnitsAdd(parts[0] + "+", Join(parts[1..]));
      UnitsAdd(parts[0], "+");
      assert Units("+") == 1 by {
        PlainUnits("+");
      }
      WeightAdd([parts[0]], parts[1..]);
      assert [parts[0]] + parts[1..] == parts;
      assert [parts[0]][..0] == [];
    }
  }

  lemma {:induction false} PlainUnits(s: string)
    requires forall i | 0 <= i < |s| :: s[i] < '\U{10000}'
    ensures Units(s) == |s|
  {
    if s != [] {
      PlainUnits(s[..|s| - 1]);
    }
  }

  function ModifierWeight(modifiers: set<string>): nat {
    (if "ctrl" in modifiers then 5 else 0) + (if "alt" in modifiers then 4 else 0)
    + if "shift" in modifiers then 6 else 0
  }

  predicate IsLowerChar(c: char) {
    LowerChar(c) == c
  }

  predicate IsModifier(name: string) {
    name == "ctrl" || name == "alt" || name == "shift"
  }

  lemma {:induction false} ModifierName(name: string)
    requires IsModifier(name)
    ensures name != [] && '+' !in name && Canonical(name) == name && name in MODIFIERS && !IsScriptSpace(name[0])
    ensures forall i | 0 <= i < |name| :: IsLowerChar(name[i]) && name[i] < '\U{10000}'
  {
  }

  lemma {:induction false} WhenWeight(present: bool, name: string)
    requires IsModifier(name)
    ensures Weight(When(present, name)) == if present then |name| + 1 else 0
  {
    ModifierName(name);
    PlainUnits(name);
    assert [name][..0] == [];
  }

  lemma {:induction false} WeightOfFour(a: seq<string>, b: seq<string>, c: seq<string>, key: string)
    ensures Weight(a + b + c + [key]) == Weight(a) + Weight(b) + Weight(c) + Units(key) + 1
  {
    WeightAdd(a + b + c, [key]);
    WeightAdd(a + b, c);
    WeightAdd(a, b);
    assert [key][..0] == [];
  }

  lemma {:induction false} OrderedWeight(modifiers: set<string>, key: string)
    ensures Weight(Ordered(modifiers, key)) == ModifierWeight(modifiers) + Units(key) + 1
  {
    WhenWeight("ctrl" in modifiers, "ctrl");
    WhenWeight("alt" in modifiers, "alt");
    WhenWeight("shift" in modifiers, "shift");
    hide Weight, When;
    WeightOfFour(When("ctrl" in modifiers, "ctrl"), When("alt" in modifiers, "alt"),
      When("shift" in modifiers, "shift"), key);
  }

  lemma {:induction false} OneMoreModifier(modifiers: set<string>, name: string)
    requires IsModifier(name)
    ensures ModifierWeight(modifiers + {name}) <= ModifierWeight(modifiers) + |name| + 1
  {
  }

  lemma {:induction false} CanonicalSetGrows(parts: seq<string>, part: string)
    ensures CanonicalSet(parts + [part]) == CanonicalSet(parts) + {Canonical(part)}
  {
    assert (parts + [part])[|parts|] == part;
    assert forall i | 0 <= i < |parts| :: (parts + [part])[i] == parts[i];
  }

  lemma {:induction false} CanonicalWeight(parts: seq<string>)
    requires AllModifiers(parts)
    ensures ModifierWeight(CanonicalSet(parts)) <= Weight(parts)
  {
    if parts != [] {
      var n := |parts| - 1;
      CanonicalWeight(parts[..n]);
      CanonicalSetGrows(parts[..n], parts[n]);
      assert parts == parts[..n] + [parts[n]];
      ModifierUnits(parts[n]);
      OneMoreModifier(CanonicalSet(parts[..n]), Canonical(parts[n]));
    }
  }

  lemma {:induction false} ModifierUnits(modifier: string)
    requires Canonical(modifier) in MODIFIERS
    ensures Units(modifier) == |Canonical(modifier)| && IsModifier(Canonical(modifier))
  {
    PlainUnits("meta");
    PlainUnits("ctrl");
    PlainUnits("alt");
    PlainUnits("shift");
  }

  // The normal form is one.

  /** The modifiers and the key of a combination in normal form. */
  ghost predicate IsNormal(modifiers: set<string>, key: string) {
    && (forall m | m in modifiers :: IsModifier(m))
    && IsKey(key) && '+' !in key && (forall i | 0 <= i < |key| :: IsLowerChar(key[i]))
    && Units(Join(Ordered(modifiers, key))) <= 80
  }

  lemma {:induction false} ListMembers(modifiers: set<string>)
    requires forall m | m in modifiers :: IsModifier(m)
    ensures forall m :: m in ModifierList(modifiers) <==> m in modifiers
  {
  }

  lemma {:induction false} OrderedParts(modifiers: set<string>, key: string)
    requires IsNormal(modifiers, key)
    ensures var parts := Ordered(modifiers, key);
      && (forall i | 0 <= i < |parts| :: parts[i] != [] && '+' !in parts[i])
      && (forall i, j | 0 <= i < |parts| && 0 <= j < |parts[i]| :: IsLowerChar(parts[i][j]))
      && !IsScriptSpace(parts[0][0])
      && CanonicalSet(ModifierList(modifiers)) == modifiers && AllModifiers(ModifierList(modifiers))
  {
    hide ModifierList, TrimBy, Units, Join, IsModifier, IsScriptSpace, Canonical;
    var ms := ModifierList(modifiers);
    ListMembers(modifiers);
    TrimByTrims(key, IsScriptSpace);
    forall i | 0 <= i < |ms|
      ensures ms[i] != [] && '+' !in ms[i] && Canonical(ms[i]) == ms[i] && ms[i] in MODIFIERS
            && !IsScriptSpace(ms[i][0])
      ensures forall j | 0 <= j < |ms[i]| :: IsLowerChar(ms[i][j])
    {
      ModifierName(ms[i]);
    }
    forall m | m in modifiers
      ensures m in CanonicalSet(ms)
    {
      var i :| 0 <= i < |ms| && ms[i] == m;
      assert Canonical(ms[i]) == m;
    }
  }

  lemma {:induction false} NormalizesTo(value: string, modifiers: seq<string>, key: string)
    requires value != "+" && value != [] && Units(value) <= 80 && Split(value) == modifiers + [key]
    ensures NormalizeValue(value) == if IsKey(key) && AllModifiers(modifiers)
      then Some(Join(Ordered(CanonicalSet(modifiers), key))) else None
  {
    SplitHasNoPlus(value);
    assert Split(value)[|modifiers|] == key && '+' !in key;
    assert Split(value)[..|modifiers|] == modifiers;
    SpaceIsNoKey();
    hide Split, Join, IsKey, AllModifiers, CanonicalSet, Ordered, Units;
  }

  lemma {:induction false} SpaceIsNoKey()
    ensures !IsKey(" ")
  {
    TrimByTrims(" ", IsScriptSpace);
    hide TrimBy;
  }

  lemma {:induction false} NormalFormIsFixed(modifiers: set<string>, key: string)
    requires IsNormal(modifiers, key)
    ensures Normalize(Join(Ordered(modifiers, key))) == Some(Join(Ordered(modifiers, key)))
  {
    var parts := Ordered(modifiers, key);
    var n := Join(parts);
    OrderedParts(modifiers, key);
    JoinEnds(parts);
    TrimByTrims(key, IsScriptSpace);
    TrimmedStays(n, IsScriptSpace);
    JoinKeepsCharacters(parts, IsLowerChar);
    assert Lower(n) == n;
    SplitJoin(parts);
    assert n != "+" by {
      assert parts[0][0] != '+';
    }
    assert parts == ModifierList(modifiers) + [key];
    hide NormalizeValue, Split, Join, TrimBy, Lower, Units, CanonicalSet, AllModifiers, IsScriptSpace, ModifierList;
    NormalizesTo(n, ModifierList(modifiers), key);
  }

  lemma {:induction false} PlusIsNormal()
    ensures IsNormal({}, "plus") && Join(Ordered({}, "plus")) == "plus"
  {
    PlainUnits("plus");
    TrimmedStays("plus", IsScriptSpace);
    assert Ordered({}, "plus") == ["plus"];
  }

  lemma {:induction false} PartsFit(value: string, ms: seq<string>, key: string)
    requires Split(value) == ms + [key] && Units(value) <= 80 && AllModifiers(ms)
    ensures Units(Join(Ordered(CanonicalSet(ms), key))) <= 80
  {
    JoinSplit(value);
    JoinUnits(ms + [key]);
    WeightOfFour(ms, [], [], key);
    assert ms + [] + [] + [key] == ms + [key];
    CanonicalWeight(ms);
    OrderedWeight(CanonicalSet(ms), key);
    JoinUnits(Ordered(CanonicalSet(ms), key));
  }

  /** What normalization accepts has a normal modifier set and key. */
  lemma {:induction false} NormalizeGivesNormal(combo: string) returns (modifiers: set<string>, key: string)
    requires Normalize(combo).Some?
    ensures IsNormal(modifiers, key) && Normalize(combo) == Some(Join(Ordered(modifiers, key)))
  {
    var value := Lower(TrimBy(combo, IsScriptSpace));
    assert forall i | 0 <= i < |value| :: IsLowerChar(value[i]);
    hide Lower, TrimBy;
    modifiers, key := ValueIsNormal(value);
  }

  lemma {:induction false} CanonicalAreModifiers(modifiers: seq<string>)
    requires AllModifiers(modifiers)
    ensures forall m | m in CanonicalSet(modifiers) :: IsModifier(m)
  {
    hide Canonical;
  }

  lemma {:induction false} LastIsPlain(value: string, modifiers: seq<string>, key: string)
    requires Split(value) == modifiers + [key] && forall i | 0 <= i < |value| :: IsLowerChar(value[i])
    ensures '+' !in key && forall i | 0 <= i < |key| :: IsLowerChar(key[i])
  {
    SplitHasNoPlus(value);
    SplitKeepsCharacters(value, IsLowerChar);
    assert Split(value)[|modifiers|] == key;
    hide Split, IsLowerChar;
  }

  lemma {:induction false} ValueIsNormal(value: string) returns (modifiers: set<string>, key: string)
    requires NormalizeValue(value).Some? && forall i | 0 <= i < |value| :: IsLowerChar(value[i])
    ensures IsNormal(modifiers, key) && NormalizeValue(value) == Some(Join(Ordered(modifiers, key)))
  {
    if value == "+" {
      modifiers, key := {}, "plus";
      PlusIsNormal();
    } else {
      var parts := Split(value);
      var ms := parts[..|parts| - 1];
      modifiers, key := CanonicalSet(ms), parts[|parts| - 1];
      assert parts == ms + [key] && value != [] && Units(value) <= 80;
      hide NormalizeValue, Units, Join, Ordered, Split, IsLowerChar, IsKey, CanonicalSet, AllModifiers, IsModifier;
      NormalizesTo(value, ms, key);
      PartsFit(value, ms, key);
      LastIsPlain(value, ms, key);
      CanonicalAreModifiers(ms);
    }
  }

  /** Normalizing twice is normalizing once. */
  lemma {:induction false} NormalizeIsIdempotent(combo: string)
    requires Normalize(combo).Some?
    ensures Normalize(Normalize(combo).value) == Normalize(combo)
  {
    var modifiers, key := NormalizeGivesNormal(combo);
    NormalFormIsFixed(modifiers, key);
  }

  // Which combinations are accepted, and as what.

  /** Modifiers as they are written before a key. */
  function Written(modifiers: seq<string>): string {
    if modifiers == [] then "" else modifiers[0] + "+" + Written(modifiers[1..])
  }

  /**
   Modifiers, as often and in whatever order, before a key that is none, holds no plus sign and is
   not blank at an end.
   */
  predicate Writes(value: string, modifiers: seq<string>, key: string) {
    && value == Written(modifiers) + key
    && (forall m | m in modifiers :: m in ["ctrl", "meta", "alt", "shift"])
    && key !in ["", "ctrl", "meta", "alt", "shift"] && '+' !in key
    && !IsScriptSpace(key[0]) && !IsScriptSpace(key[|key| - 1])
  }

  /** Each modifier once, in a fixed order, with that of the other system as ctrl. */
  function Rewritten(modifiers: seq<string>, key: string): string {
    (if "ctrl" in modifiers || "meta" in modifiers then "ctrl+" else "")
    + (if "alt" in modifiers then "alt+" else "") + (if "shift" in modifiers then "shift+" else "") + key
  }

  lemma {:induction false} JoinIsWritten(modifiers: seq<string>, key: string)
    ensures Join(modifiers + [key]) == Written(modifiers) + key
  {
    if modifiers != [] {
      JoinIsWritten(modifiers[1..], key);
      assert (modifiers + [key])[1..] == modifiers[1..] + [key];
    } else {
      assert modifiers + [key] == [key];
    }
  }

  lemma {:induction false} KeyIff(key: string)
    ensures IsKey(key) <==>
              key !in ["", "ctrl", "meta", "alt", "shift"] && !IsScriptSpace(key[0]) && !IsScriptSpace(key[|key| - 1])
  {
    TrimByTrims(key, IsScriptSpace);
    if key != [] && !IsScriptSpace(key[0]) && !IsScriptSpace(key[|key| - 1]) {
      TrimmedStays(key, IsScriptSpace);
    }
    hide TrimBy;
  }

  lemma {:induction false} OrderedIsRewritten(modifiers: seq<string>, key: string)
    requires forall m | m in modifiers :: m in ["ctrl", "meta", "alt", "shift"]
    ensures Join(Ordered(CanonicalSet(modifiers), key)) == Rewritten(modifiers, key)
  {
    var all := CanonicalSet(modifiers);
    forall m
      ensures m in all <==> exists i | 0 <= i < |modifiers| :: Canonical(modifiers[i]) == m
    {
    }
    assert "ctrl" in all <==> "ctrl" in modifiers || "meta" in modifiers;
    assert "alt" in all <==> "alt" in modifiers;
    assert "shift" in all <==> "shift" in modifiers;
    JoinIsWritten(ModifierList(all), key);
    ListIsWritten("ctrl" in all, "alt" in all, "shift" in all);
  }

  lemma {:induction false} ListIsWritten(ctrl: bool, alt: bool, shift: bool)
    ensures Written(When(ctrl, "ctrl") + When(alt, "alt") + When(shift, "shift"))
         == (if ctrl then "ctrl+" else "") + (if alt then "alt+" else "") + (if shift then "shift+" else "")
  {
    WrittenAdds(When(ctrl, "ctrl") + When(alt, "alt"), When(shift, "shift"));
    WrittenAdds(When(ctrl, "ctrl"), When(alt, "alt"));
    WrittenOne("ctrl");
    WrittenOne("alt");
    WrittenOne("shift");
  }

  lemma {:induction false} WrittenOne(name: string)
    ensures Written([name]) == name + "+"
  {
    assert [name][1..] == [];
  }

  lemma {:induction false} WrittenAdds(a: seq<string>, b: seq<string>)
    ensures Written(a + b) == Written(a) + Written(b)
  {
    if a == [] {
      assert a + b == b;
    } else {
      WrittenAdds(a[1..], b);
      assert (a + b)[1..] == a[1..] + b;
    }
  }

  lemma {:induction false} ModifiersIff(parts: seq<string>)
    ensures AllModifiers(parts) <==> forall m | m in parts :: m in ["ctrl", "meta", "alt", "shift"]
  {
    if AllModifiers(parts) {
      forall m | m in parts
        ensures m in ["ctrl", "meta", "alt", "shift"]
      {
        var i :| 0 <= i < |parts| && parts[i] == m;
        assert Canonical(parts[i]) in MODIFIERS;
      }
    } else {
      var i :| 0 <= i < |parts| && Canonical(parts[i]) !in MODIFIERS;
      assert parts[i] in parts;
    }
  }

  lemma {:induction false} WrittenSplits(modifiers: seq<string>, key: string)
    requires (forall m | m in modifiers :: m in ["ctrl", "meta", "alt", "shift"]) && '+' !in key
    ensures Split(Written(modifiers) + key) == modifiers + [key]
  {
    JoinIsWritten(modifiers, key);
    var parts := modifiers + [key];
    forall i | 0 <= i < |parts|
      ensures '+' !in parts[i]
    {
      if i < |modifiers| {
        assert modifiers[i] in modifiers;
      }
    }
    SplitJoin(parts);
  }

  /** The normal form of a text without white space around it, in small letters. */
  ghost predicate IsNormalOf(value: string, r: string) {
    if value == "+" then r == "plus"
    else Units(value) <= 80 && exists modifiers, key :: Writes(value, modifiers, key) && r == Rewritten(modifiers, key)
  }

  lemma {:induction false} WrittenKeepsKey(modifiers: seq<string>, key: string)
    ensures |Written(modifiers) + key| >= |key|
  {
  }

  /** A text can be written in one way only, which is how it is split. */
  lemma {:induction false} WritesIff(value: string, modifiers: seq<string>, key: string)
    ensures Writes(value, modifiers, key) <==>
              Split(value) == modifiers + [key] && IsKey(key) && AllModifiers(modifiers)
  {
    KeyIff(key);
    ModifiersIff(modifiers);
    JoinIsWritten(modifiers, key);
    JoinSplit(value);
    SplitHasNoPlus(value);
    hide Split, Join, Written, IsKey, AllModifiers, IsScriptSpace;
    if Split(value) == modifiers + [key] {
      assert Split(value)[|modifiers|] == key;
    }
    if Writes(value, modifiers, key) {
      WrittenSplits(modifiers, key);
    }
  }

  lemma {:induction false} ValueIff(value: string, r: string)
    ensures NormalizeValue(value) == Some(r) <==> IsNormalOf(value, r)
  {
    if value != "+" && value != [] && Units(value) <= 80 {
      var parts := Split(value);
      var ms, key := parts[..|parts| - 1], parts[|parts| - 1];
      assert parts == ms + [key];
      hide NormalizeValue, Split, Join, IsKey, AllModifiers, CanonicalSet, Ordered, Units, Rewritten, Writes;
      NormalizesTo(value, ms, key);
      WritesIff(value, ms, key);
      forall modifiers, other | Writes(value, modifiers, other)
        ensures modifiers == ms && other == key
      {
        WritesIff(value, modifiers, other);
        assert (modifiers + [other])[..|modifiers|] == modifiers;
      }
      if Writes(value, ms, key) {
        WrittenModifiers(value, ms, key);
        OrderedIsRewritten(ms, key);
      }
    } else if value == [] {
      forall modifiers, other
        ensures !Writes(value, modifiers, other)
      {
        NothingIsWritten(modifiers, other);
      }
      hide Writes, Units, Split;
    }
  }

  lemma {:induction false} WrittenModifiers(value: string, modifiers: seq<string>, key: string)
    requires Writes(value, modifiers, key)
    ensures forall m | m in modifiers :: m in ["ctrl", "meta", "alt", "shift"]
  {
  }

  lemma {:induction false} NothingIsWritten(modifiers: seq<string>, key: string)
    ensures !Writes("", modifiers, key)
  {
    WrittenKeepsKey(modifiers, key);
    hide Written, IsScriptSpace;
  }

  /**
   A combination is accepted exactly if, trimmed and in small letters, it is a plus sign or
   modifiers before a key, of at most 80 units; and then as that key behind each of its
   modifiers once.
   */
  lemma {:induction false} NormalizeIff(combo: string, r: string)
    ensures Normalize(combo) == Some(r) <==> IsNormalOf(Lower(TrimBy(combo, IsScriptSpace)), r)
  {
    ValueIff(Lower(TrimBy(combo, IsScriptSpace)), r);
    hide NormalizeValue, IsNormalOf;
  }
}
