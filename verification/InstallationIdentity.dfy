/** The identifier of an installation made from part of a scanned root. */
module InstallationIdentity {
  import opened Wrappers
  import opened Text
  import opened InstallationScope

  newtype Byte = b: int | 0 <= b < 256

  /** The UTF-8 bytes of a character, as in section 3 of RFC 3629. */
  function CharBytes(c: char): seq<Byte> {
    var n := c as int;
    if n < 0x80 then [n as Byte]
    else if n < 0x800 then [(0xC0 + n / 64) as Byte, (0x80 + n % 64) as Byte]
    else if n < 0x10000 then [(0xE0 + n / 4096) as Byte, (0x80 + n / 64 % 64) as Byte, (0x80 + n % 64) as Byte]
    else
      [(0xF0 + n / 262144) as Byte, (0x80 + n / 4096 % 64) as Byte, (0x80 + n / 64 % 64) as Byte,
        (0x80 + n % 64) as Byte]
  }

  function Utf8(s: string): seq<Byte> {
    if s == [] then [] else CharBytes(s[0]) + Utf8(s[1..])
  }

  function HexDigit(n: nat): char
    requires n < 16
  {
    if n < 10 then '0' + (n as char) else 'a' + ((n - 10) as char)
  }

  function Hex(bytes: seq<Byte>): string {
    if bytes == [] then []
    else [HexDigit(bytes[0] as int / 16), HexDigit(bytes[0] as int % 16)] + Hex(bytes[1..])
  }

  function RootId(rootId: string): string {
    "installation-" + rootId
  }

  function ScopedId(rootId: string, key: string): string {
    "installation-" + rootId + "-scope-" + Hex(Utf8(key))
  }

  lemma {:induction false} HexDigitsDiffer(a: nat, b: nat)
    requires a < 16 && b < 16 && HexDigit(a) == HexDigit(b)
    ensures a == b
  {
  }

  lemma {:induction false} HexIsInjective(a: seq<Byte>, b: seq<Byte>)
    requires Hex(a) == Hex(b)
    ensures a == b
  {
    if a != [] && b != [] {
      assert Hex(a)[0] == Hex(b)[0] && Hex(a)[1] == Hex(b)[1];
      HexDigitsDiffer(a[0] as int / 16, b[0] as int / 16);
      HexDigitsDiffer(a[0] as int % 16, b[0] as int % 16);
      assert Hex(a)[2..] == Hex(a[1..]) && Hex(b)[2..] == Hex(b[1..]);
      HexIsInjective(a[1..], b[1..]);
      assert a == [a[0]] + a[1..] && b == [b[0]] + b[1..];
    }
  }

  /** Two digits for each byte, the higher half first. */
  predicate IsHexOf(text: string, bytes: seq<Byte>) {
    && |text| == 2 * |bytes|
    && forall i | 0 <= i < |bytes| ::
      text[2 * i] == "0123456789abcdef"[bytes[i] as int / 16]
        && text[2 * i + 1] == "0123456789abcdef"[bytes[i] as int % 16]
  }

  lemma {:induction false} DigitIs(n: nat)
    requires n < 16
    ensures HexDigit(n) == "0123456789abcdef"[n]
  {
  }

  lemma {:induction false} HexIs(bytes: seq<Byte>)
    ensures IsHexOf(Hex(bytes), bytes)
  {
    if bytes != [] {
      var text, rest := Hex(bytes), Hex(bytes[1..]);
      HexIs(bytes[1..]);
      DigitIs(bytes[0] as int / 16);
      DigitIs(bytes[0] as int % 16);
      forall i | 1 <= i < |bytes|
        ensures text[2 * i] == rest[2 * (i - 1)] && text[2 * i + 1] == rest[2 * (i - 1) + 1]
      {
      }
    }
  }

  /** The number a character's bytes spell. */
  function Spelled(bytes: seq<Byte>): int
    requires 0 < |bytes| <= 4
  {
    if |bytes| == 1 then bytes[0] as int
    else if |bytes| == 2 then (bytes[0] as int - 0xC0) * 64 + (bytes[1] as int - 0x80)
    else if |bytes| == 3 then (bytes[0] as int - 0xE0) * 4096 + (bytes[1] as int - 0x80) * 64 + (bytes[2] as int - 0x80)
    else
      (bytes[0] as int - 0xF0) * 262144 + (bytes[1] as int - 0x80) * 4096 + (bytes[2] as int - 0x80) * 64
      + (bytes[3] as int - 0x80)
  }

  function LengthFrom(first: Byte): nat {
    if first < 0x80 then 1 else if first < 0xE0 then 2 else if first < 0xF0 then 3 else 4
  }

  /** The first byte tells how many there are, and all of them the character. */
  lemma {:induction false} CharBytesSpell(c: char)
    ensures |CharBytes(c)| == LengthFrom(CharBytes(c)[0]) && Spelled(CharBytes(c)) == c as int
  {
    var n := c as int;
    assert n == n / 64 * 64 + n % 64;
    assert n / 64 == n / 64 / 64 * 64 + n / 64 % 64;
    assert n / 64 / 64 == n / 4096;
    assert n / 4096 == n / 4096 / 64 * 64 + n / 4096 % 64;
    assert n / 4096 / 64 == n / 262144;
  }

  lemma {:induction false} Utf8IsInjective(a: string, b: string)
    requires Utf8(a) == Utf8(b)
    ensures a == b
  {
    if a != [] && b != [] {
      CharBytesSpell(a[0]);
      CharBytesSpell(b[0]);
      assert Utf8(a)[0] == CharBytes(a[0])[0] && Utf8(b)[0] == CharBytes(b[0])[0];
      var n := |CharBytes(a[0])|;
      assert Utf8(a)[..n] == CharBytes(a[0]) && Utf8(b)[..n] == CharBytes(b[0]);
      assert Utf8(a)[n..] == Utf8(a[1..]) && Utf8(b)[n..] == Utf8(b[1..]);
      Utf8IsInjective(a[1..], b[1..]);
      assert a == [a[0]] + a[1..] && b == [b[0]] + b[1..];
    }
  }

  /** Bytes of the only form that spells each character: a first byte that tells how many follow, each 0x80 to 0xBF. */
  ghost predicate AreUtf8Of(bytes: seq<Byte>, s: string) {
    exists parts: seq<seq<Byte>> :: ArePartsOf(parts, bytes, s)
  }

  ghost predicate ArePartsOf(parts: seq<seq<Byte>>, bytes: seq<Byte>, s: string) {
    && |parts| == |s| && bytes == Joined(parts)
    && forall i | 0 <= i < |s| :: IsFormOf(parts[i], s[i])
  }

  predicate IsFormOf(part: seq<Byte>, c: char) {
    && 0 < |part| <= 4 && |part| == LengthFrom(part[0]) && Spelled(part) == c as int
    && forall j | 1 <= j < |part| :: 0x80 <= part[j] < 0xC0
  }

  function Joined(parts: seq<seq<Byte>>): seq<Byte> {
    if parts == [] then [] else parts[0] + Joined(parts[1..])
  }

  lemma {:induction false} Utf8Is(s: string)
    ensures AreUtf8Of(Utf8(s), s)
  {
    if s == [] {
      assert ArePartsOf([], Utf8(s), s);
    } else {
      Utf8Is(s[1..]);
      var parts :| ArePartsOf(parts, Utf8(s[1..]), s[1..]);
      CharBytesSpell(s[0]);
      var more := [CharBytes(s[0])] + parts;
      assert more[1..] == parts;
      assert forall i | 1 <= i < |s| :: more[i] == parts[i - 1];
      assert ArePartsOf(more, Utf8(s), s);
    }
  }

  /** What the identifier of a scope reads: its root's, and its key in UTF-8 and hexadecimal digits. */
  lemma {:induction false} ScopedIdReads(rootId: string, key: string)
    ensures RootId(rootId) == "installation-" + rootId
    ensures exists hex, bytes ::
              ScopedId(rootId, key) == RootId(rootId) + "-scope-" + hex && IsHexOf(hex, bytes) && AreUtf8Of(bytes, key)
  {
    HexIs(Utf8(key));
    Utf8Is(key);
    assert ScopedId(rootId, key) == RootId(rootId) + "-scope-" + Hex(Utf8(key));
  }

  /** For one root the identifier of a scope tells its key, and is never that of the whole root. */
  lemma {:induction false} ScopedIdTellsItsKey(rootId: string, a: string, b: string)
    ensures ScopedId(rootId, a) == ScopedId(rootId, b) <==> a == b
    ensures ScopedId(rootId, a) != RootId(rootId)
  {
    var prefix := "installation-" + rootId + "-scope-";
    assert |ScopedId(rootId, a)| >= |RootId(rootId)| + 7;
    if ScopedId(rootId, a) == ScopedId(rootId, b) {
      assert ScopedId(rootId, a)[|prefix|..] == Hex(Utf8(a)) && ScopedId(rootId, b)[|prefix|..] == Hex(Utf8(b));
      HexIsInjective(Utf8(a), Utf8(b));
      Utf8IsInjective(a, b);
    }
  }

  datatype Kind = Package | Directory | Single

  function KeyFor(kind: Kind, name: string): string {
    match kind
    case Package => PackageKey(name)
    case Directory => DirectoryKey(name)
    case Single => EntryKey(name)
  }

  /** Archive sets, folders and files never share a key, so within one root their identifiers never meet. */
  lemma {:induction false} DifferentScopesDifferentIds(rootId: string, k: Kind, a: string, l: Kind, b: string)
    ensures ScopedId(rootId, KeyFor(k, a)) == ScopedId(rootId, KeyFor(l, b)) <==> k == l && a == b
  {
    ScopedIdTellsItsKey(rootId, KeyFor(k, a), KeyFor(l, b));
    var x, y := KeyFor(k, a), KeyFor(l, b);
    if x == y {
      assert x[0] == y[0];
      var n := match k case Package => 14 case Directory => 10 case Single => 6;
      assert x[n..] == a && y[n..] == b;
    }
  }
}
