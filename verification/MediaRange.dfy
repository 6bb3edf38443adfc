/** Serving part of a file for a Range header, as section 14.1.2 of RFC 9110 describes it. */
module MediaRange {
  import opened Wrappers
  import opened Text

  const MAX_RANGE_BYTES: nat := 0x10_0000

  datatype ByteRange = ByteRange(start: nat, end: nat) {
    function Length(): int {
      end - start + 1
    }
  }

  datatype RangeError = RangeNotSatisfiable(length: nat)

  function Least(a: nat, b: nat): nat {
    if a < b then a else b
  }

  /** The two sides of the first occurrence of a character. */
  function SplitOnce(s: string, c: char): Option<(string, string)> {
    if s == [] then None
    else if s[0] == c then Some(([], s[1..]))
    else match SplitOnce(s[1..], c)
      case Some((before, after)) => Some(([s[0]] + before, after))
      case None => None
  }

  const UNIT: string := "bytes="

  /** A range of a file, at most a mebibyte from its start. */
  function Capped(start: nat, end: nat): ByteRange {
    ByteRange(start, Least(end, Least(start + MAX_RANGE_BYTES - 1, U64_LIMIT - 1)))
  }

  function ParseRange(value: string, length: nat): Result<ByteRange, RangeError> {
    if !(UNIT <= value) || ',' in value[|UNIT|..] then Err(RangeNotSatisfiable(length))
    else match SplitOnce(value[|UNIT|..], '-')
      case None => Err(RangeNotSatisfiable(length))
      case Some((first, last)) => ParseParts(first, last, length)
  }

  function ParseParts(first: string, last: string, length: nat): Result<ByteRange, RangeError> {
    var refused := Err(RangeNotSatisfiable(length));
    if length == 0 then refused
    else if first == [] then
      match ParseU64(last)
      case None => refused
      case Some(suffix) => if suffix == 0 then refused else Ok(Capped(length - Least(suffix, length), length - 1))
    else
      match ParseU64(first)
      case None => refused
      case Some(start) =>
        if start >= length then refused
        else if last == [] then Ok(Capped(start, length - 1))
        else match ParseU64(last)
          case None => refused
          case Some(end) =>
            if Least(end, length - 1) < start then refused else Ok(Capped(start, Least(end, length - 1)))
  }

  /** Every accepted range lies within the file, is not empty and covers at most a mebibyte. */
  lemma {:induction false} AcceptedRangesFit(value: string, length: nat)
    requires length < U64_LIMIT && ParseRange(value, length).Ok?
    ensures var r := ParseRange(value, length).value;
      r.start <= r.end < length && 1 <= r.Length() <= MAX_RANGE_BYTES
  {
  }

  // Headers as a client writes them.

  function Decimal(n: nat): string {
    (if n < 10 then [] else Decimal(n / 10)) + ['0' + (n % 10) as char]
  }

  lemma {:induction false} DecimalReadsBack(n: nat)
    ensures Decimal(n) != [] && AllDigits(Decimal(n)) && Digits(Decimal(n)) == n
  {
    if n >= 10 {
      DecimalReadsBack(n / 10);
    }
    var s := Decimal(n);
    assert s[..|s| - 1] == if n < 10 then [] else Decimal(n / 10);
  }

  lemma {:induction false} ParsesDecimal(n: nat)
    ensures ParseU64(Decimal(n)) == if n < U64_LIMIT then Some(n) else None
  {
    DecimalReadsBack(n);
    assert Decimal(n)[0] != '+';
  }

  lemma {:induction false} SplitAtDash(first: string, rest: string)
    requires '-' !in first
    ensures SplitOnce(first + "-" + rest, '-') == Some((first, rest))
  {
    var s := first + "-" + rest;
    if first == [] {
      assert s[1..] == rest;
    } else {
      SplitAtDash(first[1..], rest);
      assert s[1..] == first[1..] + "-" + rest;
      assert [first[0]] + first[1..] == first;
    }
  }

  function FromHeader(start: nat): string {
    UNIT + (Decimal(start) + "-" + [])
  }

  function BetweenHeader(start: nat, end: nat): string {
    UNIT + (Decimal(start) + "-" + Decimal(end))
  }

  function SuffixHeader(suffix: nat): string {
    UNIT + ([] + "-" + Decimal(suffix))
  }

  lemma {:induction false} HeaderParts(first: string, last: string)
    requires '-' !in first && ',' !in first && ',' !in last
    ensures var value := UNIT + (first + "-" + last);
      UNIT <= value && ',' !in value[|UNIT|..] && SplitOnce(value[|UNIT|..], '-') == Some((first, last))
  {
    SplitAtDash(first, last);
    assert (UNIT + (first + "-" + last))[|UNIT|..] == first + "-" + last;
  }

  lemma {:induction false} DecimalIsPlain(n: nat)
    ensures Decimal(n) != [] && ParseU64(Decimal(n)) == (if n < U64_LIMIT then Some(n) else None)
    ensures '-' !in Decimal(n) && ',' !in Decimal(n)
  {
    ParsesDecimal(n);
    DecimalReadsBack(n);
    hide Decimal;
  }

  /** An open range is satisfied exactly if it starts within the file, and runs to its end or a mebibyte on. */
  lemma {:induction false} OpenRange(start: nat, length: nat)
    requires length < U64_LIMIT
    ensures ParseRange(FromHeader(start), length) ==
      if start < length then Ok(ByteRange(start, Least(length - 1, start + MAX_RANGE_BYTES - 1)))
      else Err(RangeNotSatisfiable(length))
  {
    DecimalIsPlain(start);
    HeaderParts(Decimal(start), []);
    hide Decimal, ParseU64, SplitOnce;
  }

  lemma {:induction false} ClosedParts(first: string, last: string, start: nat, end: nat, length: nat)
    requires first != [] && last != [] && length < U64_LIMIT
    requires ParseU64(first) == (if start < U64_LIMIT then Some(start) else None)
    requires ParseU64(last) == if end < U64_LIMIT then Some(end) else None
    ensures ParseParts(first, last, length) ==
      if start < length && start <= end < U64_LIMIT
      then Ok(ByteRange(start, Least(Least(end, length - 1), start + MAX_RANGE_BYTES - 1)))
      else Err(RangeNotSatisfiable(length))
  {
    hide ParseU64;
  }

  /**
   A closed range is satisfied exactly if it is no empty one, starts within the file and
   ends at a number of 64 bits; its end is cut to the file.
   */
  lemma {:induction false} ClosedRange(start: nat, end: nat, length: nat)
    requires length < U64_LIMIT
    ensures ParseRange(BetweenHeader(start, end), length) ==
      if start < length && start <= end < U64_LIMIT
      then Ok(ByteRange(start, Least(Least(end, length - 1), start + MAX_RANGE_BYTES - 1)))
      else Err(RangeNotSatisfiable(length))
  {
    DecimalIsPlain(start);
    DecimalIsPlain(end);
    HeaderParts(Decimal(start), Decimal(end));
    ClosedParts(Decimal(start), Decimal(end), start, end, length);
    hide Decimal, ParseU64, SplitOnce, ParseParts;
  }

  lemma {:induction false} SuffixParts(last: string, suffix: nat, length: nat)
    requires length < U64_LIMIT && ParseU64(last) == if suffix < U64_LIMIT then Some(suffix) else None
    ensures ParseParts([], last, length) ==
      if 0 < suffix < U64_LIMIT && length > 0
      then
        var start := length - Least(suffix, length);
        Ok(ByteRange(start, Least(length - 1, start + MAX_RANGE_BYTES - 1)))
      else Err(RangeNotSatisfiable(length))
  {
    hide ParseU64;
  }

  /**
   A suffix range is satisfied exactly if neither it nor the file is empty and it is a
   number of 64 bits; it starts that far from the end.
   */
  lemma {:induction false} SuffixRange(suffix: nat, length: nat)
    requires length < U64_LIMIT
    ensures ParseRange(SuffixHeader(suffix), length) ==
      if 0 < suffix < U64_LIMIT && length > 0
      then
        var start := length - Least(suffix, length);
        Ok(ByteRange(start, Least(length - 1, start + MAX_RANGE_BYTES - 1)))
      else Err(RangeNotSatisfiable(length))
  {
    DecimalIsPlain(suffix);
    HeaderParts([], Decimal(suffix));
    SuffixParts(Decimal(suffix), suffix, length);
    hide Decimal, ParseU64, SplitOnce, ParseParts;
  }

  // The grammar of section 14.1.2 of RFC 9110, for one range.

  /** An int-range, whose end is no less than its start if given, or a suffix-range, each of decimal digits only. */
  predicate IsRangeSpec(first: string, last: string) {
    && AllDigits(first) && AllDigits(last) && (first != [] || last != [])
    && (first != [] && last != [] ==> Digits(first) <= Digits(last))
  }

  ghost predicate IsByteRange(value: string) {
    exists first, last :: value == UNIT + (first + "-" + last) && IsRangeSpec(first, last)
  }

  lemma {:induction false} SplitJoins(s: string, c: char)
    ensures SplitOnce(s, c).Some? ==> s == SplitOnce(s, c).value.0 + [c] + SplitOnce(s, c).value.1
  {
    if s != [] && s[0] != c {
      SplitJoins(s[1..], c);
      assert s == [s[0]] + s[1..];
    }
  }

  /** A number that is read is digits, but for a plus sign before them. */
  lemma {:induction false} ReadNumberIsDigits(s: string)
    requires ParseU64(s).Some?
    ensures s != [] && (AllDigits(s) <==> '+' !in s) && ('+' !in s ==> Digits(s) == ParseU64(s).value)
  {
    if s[0] != '+' {
      assert AllDigits(s);
    }
  }

  lemma {:induction false} AcceptedParts(value: string, length: nat) returns (first: string, last: string)
    requires ParseRange(value, length).Ok?
    ensures value == UNIT + (first + "-" + last) && ParseParts(first, last, length) == ParseRange(value, length)
  {
    var rest := value[|UNIT|..];
    SplitJoins(rest, '-');
    first, last := SplitOnce(rest, '-').value.0, SplitOnce(rest, '-').value.1;
    assert value == UNIT + rest;
  }

  lemma {:induction false} AcceptedPartsAreSpec(first: string, last: string, length: nat)
    requires ParseParts(first, last, length).Ok?
    ensures IsRangeSpec(first, last) <==> '+' !in first && '+' !in last
  {
    if first != [] {
      ReadNumberIsDigits(first);
    }
    if last != [] {
      ReadNumberIsDigits(last);
    }
    hide ParseU64;
  }

  lemma {:induction false} SpecHasNoPlus(first: string, last: string)
    requires IsRangeSpec(first, last)
    ensures '+' !in UNIT + (first + "-" + last)
  {
    hide Digits;
    assert '+' !in first && '+' !in last && '+' !in UNIT;
  }

  /** An accepted header is a range of the grammar exactly if there is no plus sign in it. */
  lemma {:induction false} AcceptedIsByteRangeIff(value: string, length: nat)
    requires ParseRange(value, length).Ok?
    ensures IsByteRange(value) <==> '+' !in value
  {
    var first, last := AcceptedParts(value, length);
    AcceptedPartsAreSpec(first, last, length);
    hide IsRangeSpec, ParseRange, ParseParts;
    if IsByteRange(value) {
      var f, l :| value == UNIT + (f + "-" + l) && IsRangeSpec(f, l);
      SpecHasNoPlus(f, l);
    } else if '+' !in value {
      PartsAreInside(first, last, '+');
      assert false;
    }
  }

  lemma {:induction false} PartsAreInside(first: string, last: string, c: char)
    requires c !in UNIT + (first + "-" + last)
    ensures c !in first && c !in last
  {
    var value := UNIT + (first + "-" + last);
    assert forall i | 0 <= i < |first| :: first[i] == value[|UNIT| + i];
    assert forall i | 0 <= i < |last| :: last[i] == value[|UNIT| + |first| + 1 + i];
  }

  // Every header text that is satisfied.

  predicate AllZero(s: string) {
    forall i | 0 <= i < |s| :: s[i] == '0'
  }

  /** A number as a header may write it: its decimal digits, behind any zeros, behind a plus sign or none. */
  ghost predicate Writes(s: string, n: nat) {
    exists sign, zeros :: (sign == "" || sign == "+") && AllZero(zeros) && s == sign + (zeros + Decimal(n))
  }

  lemma {:induction false} DigitsOfLast(s: string, c: char)
    requires AllDigits(s) && IsDigit(c)
    ensures AllDigits(s + [c]) && Digits(s + [c]) == 10 * Digits(s) + DigitValue(c)
  {
    assert (s + [c])[..|s|] == s;
  }

  lemma {:induction false} ZerosMeanNothing(zeros: string, s: string)
    requires AllZero(zeros) && AllDigits(s)
    ensures AllDigits(zeros + s) && Digits(zeros + s) == Digits(s)
  {
    if s != [] {
      var n := |s| - 1;
      ZerosMeanNothing(zeros, s[..n]);
      assert zeros + s == zeros + s[..n] + [s[n]];
      DigitsOfLast(zeros + s[..n], s[n]);
    } else if zeros != [] {
      var n := |zeros| - 1;
      ZerosMeanNothing(zeros[..n], []);
      assert zeros[..n] + [] == zeros[..n] && zeros + [] == zeros[..n] + [zeros[n]];
      DigitsOfLast(zeros[..n], zeros[n]);
    }
  }

  lemma {:induction false} DecimalGrows(n: nat, c: char)
    requires IsDigit(c)
    ensures Decimal(10 * n + DigitValue(c)) == if n > 0 then Decimal(n) + [c] else [c]
  {
    var m := 10 * n + DigitValue(c);
    assert m / 10 == n && m % 10 == DigitValue(c);
    assert '0' + DigitValue(c) as char == c;
  }

  /** One more digit behind zeros and the decimal form of a number. */
  lemma {:induction false} OneMoreDigit(before: string, n: nat, c: char) returns (zeros: string)
    requires AllZero(before) && IsDigit(c)
    ensures AllZero(zeros) && before + Decimal(n) + [c] == zeros + Decimal(10 * n + DigitValue(c))
  {
    DecimalGrows(n, c);
    if n > 0 {
      hide Decimal;
      zeros := before;
    } else {
      assert Decimal(0) == "0";
      hide Decimal;
      zeros := before + "0";
    }
  }

  /** Digits are the decimal form of their number behind zeros. */
  lemma {:induction false} DigitsAreDecimal(s: string) returns (zeros: string)
    requires s != [] && AllDigits(s)
    ensures AllZero(zeros) && s == zeros + Decimal(Digits(s))
  {
    var n := |s| - 1;
    hide Decimal;
    if n == 0 {
      DecimalGrows(0, s[0]);
      assert Digits(s[..0]) == 0;
      zeros := [];
    } else {
      var before := DigitsAreDecimal(s[..n]);
      zeros := OneMoreDigit(before, Digits(s[..n]), s[n]);
      assert s == s[..n] + [s[n]];
    }
  }

  /** A text is read as a number exactly if it writes it and it has 64 bits. */
  lemma {:induction false} ReadIffWritten(s: string, n: nat)
    ensures ParseU64(s) == Some(n) <==> Writes(s, n) && n < U64_LIMIT
  {
    if ParseU64(s) == Some(n) {
      ReadIsWritten(s, n);
    }
    if Writes(s, n) {
      var sign, zeros :| (sign == "" || sign == "+") && AllZero(zeros) && s == sign + (zeros + Decimal(n));
      DecimalReadsBack(n);
      ZerosMeanNothing(zeros, Decimal(n));
      SignIsDropped(sign, zeros + Decimal(n));
    }
  }

  lemma {:induction false} ReadIsWritten(s: string, n: nat)
    requires ParseU64(s) == Some(n)
    ensures Writes(s, n)
  {
    var digits := if s[0] == '+' then s[1..] else s;
    var zeros := DigitsAreDecimal(digits);
    hide Digits, Decimal;
    if s[0] == '+' {
      assert s == "+" + (zeros + Decimal(n));
    } else {
      assert s == "" + (zeros + Decimal(n));
    }
  }

  lemma {:induction false} SignIsDropped(sign: string, digits: string)
    requires (sign == "" || sign == "+") && digits != [] && AllDigits(digits)
    ensures ParseU64(sign + digits) == if Digits(digits) < U64_LIMIT then Some(Digits(digits)) else None
  {
    var s := sign + digits;
    if sign == "+" {
      assert s[1..] == digits;
    } else {
      assert s == digits && IsDigit(s[0]);
    }
  }

  /** The three forms of a range, and how a header writes them. */
  datatype Form = Open(start: nat) | Closed(start: nat, end: nat) | Suffix(suffix: nat)

  ghost predicate PartsWrite(first: string, last: string, form: Form) {
    match form
    case Open(start) => Writes(first, start) && last == []
    case Closed(start, end) => Writes(first, start) && Writes(last, end)
    case Suffix(suffix) => first == [] && Writes(last, suffix)
  }

  ghost predicate HeaderWrites(value: string, form: Form) {
    exists first, last :: value == UNIT + (first + "-" + last) && PartsWrite(first, last, form)
  }

  predicate IsSatisfiable(form: Form, length: nat) {
    match form
    case Open(start) => start < length
    case Closed(start, end) => start < length && start <= end < U64_LIMIT
    case Suffix(suffix) => 0 < suffix < U64_LIMIT && length > 0
  }

  /** Where it starts, to where it runs in the file, and how far that is served at once. */
  function RangeOf(form: Form, length: nat): ByteRange
    requires IsSatisfiable(form, length)
  {
    var start := match form case Suffix(suffix) => length - Least(suffix, length) case _ => form.start;
    var end := match form case Closed(_, end) => Least(end, length - 1) case _ => length - 1;
    ByteRange(start, Least(end, start + MAX_RANGE_BYTES - 1))
  }

  ghost predicate IsServed(value: string, length: nat, form: Form, r: ByteRange) {
    HeaderWrites(value, form) && IsSatisfiable(form, length) && r == RangeOf(form, length)
  }

  lemma {:induction false} WrittenIsPlain(s: string, n: nat)
    requires Writes(s, n)
    ensures s != [] && '-' !in s && ',' !in s
  {
    var sign, zeros :| (sign == "" || sign == "+") && AllZero(zeros) && s == sign + (zeros + Decimal(n));
    DecimalReadsBack(n);
    assert AllDigits(zeros + Decimal(n));
    hide Decimal;
    assert forall i | |sign| <= i < |s| :: IsDigit(s[i]);
  }

  /** The form of a range that its parts are read as. */
  lemma {:induction false} PartsHaveForm(first: string, last: string, length: nat) returns (form: Form)
    requires length < U64_LIMIT && ParseParts(first, last, length).Ok?
    ensures HeaderWrites(UNIT + (first + "-" + last), form) && IsSatisfiable(form, length)
    ensures ParseParts(first, last, length) == Ok(RangeOf(form, length))
  {
    hide Writes, ParseU64;
    if first == [] {
      var suffix := ParseU64(last).value;
      ReadIffWritten(last, suffix);
      form := Suffix(suffix);
    } else {
      var start := ParseU64(first).value;
      ReadIffWritten(first, start);
      if last == [] {
        form := Open(start);
      } else {
        ReadIffWritten(last, ParseU64(last).value);
        form := Closed(start, ParseU64(last).value);
      }
    }
    assert PartsWrite(first, last, form);
  }

  lemma {:induction false} PartsAreParsed(first: string, last: string, form: Form, length: nat)
    requires length < U64_LIMIT && IsSatisfiable(form, length) && PartsWrite(first, last, form)
    ensures ParseParts(first, last, length) == Ok(RangeOf(form, length))
  {
    hide Writes, ParseU64;
    match form {
      case Open(start) =>
        WrittenIsPlain(first, start);
        ReadIffWritten(first, start);
      case Closed(start, end) =>
        WrittenIsPlain(first, start);
        WrittenIsPlain(last, end);
        ReadIffWritten(first, start);
        ReadIffWritten(last, end);
        ClosedParts(first, last, start, end, length);
      case Suffix(suffix) =>
        ReadIffWritten(last, suffix);
        SuffixParts(last, suffix, length);
    }
  }

  lemma {:induction false} PartsArePlain(first: string, last: string, form: Form)
    requires PartsWrite(first, last, form)
    ensures '-' !in first && ',' !in first && ',' !in last
  {
    hide Writes;
    match form {
      case Open(start) => WrittenIsPlain(first, start);
      case Closed(start, end) =>
        WrittenIsPlain(first, start);
        WrittenIsPlain(last, end);
      case Suffix(suffix) => WrittenIsPlain(last, suffix);
    }
  }

  lemma {:induction false} FormIsParsed(first: string, last: string, form: Form, length: nat)
    requires length < U64_LIMIT && IsSatisfiable(form, length) && PartsWrite(first, last, form)
    ensures ParseRange(UNIT + (first + "-" + last), length) == Ok(RangeOf(form, length))
  {
    PartsArePlain(first, last, form);
    PartsAreParsed(first, last, form, length);
    HeaderParts(first, last);
    hide PartsWrite, SplitOnce, ParseParts, RangeOf;
  }

  /**
   Every header text: it is answered by a range exactly if it writes one of the three
   forms, with zeros and plus signs before a number as it likes, which the file can
   satisfy, and then by that range; any other is refused.
   */
  lemma {:induction false} ParseRangeIff(value: string, length: nat, r: ByteRange)
    requires length < U64_LIMIT
    ensures ParseRange(value, length) == Ok(r) <==> exists form :: IsServed(value, length, form, r)
    ensures ParseRange(value, length).Err? ==> ParseRange(value, length).error == RangeNotSatisfiable(length)
  {
    hide HeaderWrites, ParseParts, IsSatisfiable, RangeOf;
    if ParseRange(value, length).Ok? {
      var first, last := AcceptedParts(value, length);
      var form := PartsHaveForm(first, last, length);
      assert IsServed(value, length, form, RangeOf(form, length));
    }
    forall form | IsServed(value, length, form, r)
      ensures ParseRange(value, length) == Ok(r)
    {
      var first, last := WrittenParts(value, form);
      FormIsParsed(first, last, form, length);
    }
    if ParseRange(value, length).Err? {
      RefusalIsUnsatisfiable(value, length);
    }
  }

  lemma {:induction false} WrittenParts(value: string, form: Form) returns (first: string, last: string)
    requires HeaderWrites(value, form)
    ensures value == UNIT + (first + "-" + last) && PartsWrite(first, last, form)
  {
    first, last :| value == UNIT + (first + "-" + last) && PartsWrite(first, last, form);
  }

  lemma {:induction false} RefusalIsUnsatisfiable(value: string, length: nat)
    requires ParseRange(value, length).Err?
    ensures ParseRange(value, length).error == RangeNotSatisfiable(length)
  {
    hide ParseU64, SplitOnce;
  }

  // Serving and reassembling.

  type File = seq<bv8>

  /** Seeks to the start of the range and reads its length. */
  method Serve(file: File, value: string) returns (r: Result<(ByteRange, seq<bv8>), RangeError>)
    requires |file| < U64_LIMIT
    ensures r == Served(file, value)
  {
    var range := ParseRange(value, |file|);
    if range.Err? {
      return Err(range.error);
    }
    AcceptedRangesFit(value, |file|);
    var position := range.value.start;
    var bytes: seq<bv8> := [];
    while |bytes| < range.value.Length()
      invariant |bytes| <= range.value.Length() && position == range.value.start + |bytes|
      invariant bytes == file[range.value.start..position]
    {
      bytes := bytes + [file[position]];
      position := position + 1;
    }
    r := Ok((range.value, bytes));
  }

  function Served(file: File, value: string): Result<(ByteRange, seq<bv8>), RangeError>
    requires |file| < U64_LIMIT
  {
    match ParseRange(value, |file|)
    case Err(error) => Err(error)
    case Ok(r) =>
      AcceptedRangesFit(value, |file|);
      Ok((r, file[r.start..r.end + 1]))
  }

  lemma {:induction false} ServedFrom(file: File, start: nat)
    requires start <= |file| < U64_LIMIT
    ensures Served(file, FromHeader(start)) ==
      if start < |file|
      then var end := Least(|file| - 1, start + MAX_RANGE_BYTES - 1); Ok((ByteRange(start, end), file[start..end + 1]))
      else Err(RangeNotSatisfiable(|file|))
  {
    OpenRange(start, |file|);
    hide ParseRange, FromHeader;
  }

  /** What a client has that asks from `start` on, and again from behind each answer, and how many answers that took. */
  function Reassembled(file: File, start: nat): (seq<bv8>, nat)
    requires start <= |file| < U64_LIMIT
    decreases |file| - start
  {
    ServedFrom(file, start);
    match Served(file, FromHeader(start))
    case Err(_) => ([], 0)
    case Ok((range, bytes)) =>
      var rest := Reassembled(file, range.end + 1);
      (bytes + rest.0, rest.1 + 1)
  }

  /** How many mebibytes hold `n` bytes. */
  function Answers(n: nat): nat {
    (n + MAX_RANGE_BYTES - 1) / MAX_RANGE_BYTES
  }

  lemma {:induction false} OneAnswerLess(n: nat)
    requires n > 0
    ensures Answers(n) == 1 + Answers(n - Least(n, MAX_RANGE_BYTES))
  {
  }

  /** It gets exactly the rest of the file, in as many answers as there are mebibytes in it, rounded up. */
  lemma {:induction false} ReassemblesTheFile(file: File, start: nat)
    requires start <= |file| < U64_LIMIT
    ensures Reassembled(file, start) == (file[start..], Answers(|file| - start))
    decreases |file| - start
  {
    hide Served, FromHeader, Answers;
    ServedFrom(file, start);
    if start < |file| {
      var end := Least(|file| - 1, start + MAX_RANGE_BYTES - 1);
      ReassemblesTheFile(file, end + 1);
      OneAnswerLess(|file| - start);
      assert file[start..] == file[start..end + 1] + file[end + 1..];
    } else {
      NoAnswers();
      assert file[start..] == [];
    }
  }

  lemma {:induction false} NoAnswers()
    ensures Answers(0) == 0
  {
  }
}
