/** The human-readable durations that backoff settings are written in. */
module DurationText {
  import opened Values

  // ----- Characters -----

  predicate IsDigit(c: char) { '0' <= c <= '9' }

  /** The class \s of ECMA-262: white space and line terminators. */
  predicate IsSpace(c: char) {
    || '\U{0009}' <= c <= '\U{000D}' || c == ' ' || c == '\U{00A0}' || c == '\U{1680}'
    || '\U{2000}' <= c <= '\U{200A}' || c == '\U{2028}' || c == '\U{2029}' || c == '\U{202F}'
    || c == '\U{205F}' || c == '\U{3000}' || c == '\U{FEFF}'
  }

  /** Case folding of the pattern's letters. Other characters never fold to an ASCII letter there. */
  function Lower(c: char): char {
    if 'A' <= c <= 'Z' then c - 'A' + 'a' else c
  }

  function Lowered(s: string): string {
    seq(|s|, i requires 0 <= i < |s| => Lower(s[i]))
  }

  // ----- The grammar -----

  /** The spellings of milliseconds, seconds, minutes, hours and days, which are the units 0 to 4. */
  predicate Spelling(text: string, unit: nat) {
    if unit == 0 then text in ["ms", "millisecond", "milliseconds"]
    else if unit == 1 then text in ["s", "sec", "second", "seconds"]
    else if unit == 2 then text in ["m", "min", "minute", "minutes"]
    else if unit == 3 then text in ["h", "hr", "hour", "hours"]
    else unit == 4 && text in ["d", "day", "days"]
  }

  const SMALL := "abcdefghijklmnopqrstuvwxyz"
  const LARGE := "ABCDEFGHIJKLMNOPQRSTUVWXYZ"

  /** The same text but for capital letters. */
  ghost predicate Capitalises(text: string, small: string) {
    |text| == |small| && forall i :: 0 <= i < |text| ==> text[i] == small[i] || IsCapital(text[i], small[i])
  }

  ghost predicate IsCapital(large: char, small: char) {
    exists i :: 0 <= i < 26 && SMALL[i] == small && LARGE[i] == large
  }

  /** The text spells the unit, with any of its letters capital. */
  ghost predicate Spells(text: string, unit: nat) {
    exists spelling :: Spelling(spelling, unit) && Capitalises(text, spelling)
  }

  lemma CapitalsLower(large: char, small: char)
    ensures IsCapital(large, small) ==> small == Lower(large)
    ensures 'A' <= large <= 'Z' ==> IsCapital(large, Lower(large))
  {
    assert forall i :: 0 <= i < 26 ==> SMALL[i] as int == 'a' as int + i && LARGE[i] as int == 'A' as int + i;
    if 'A' <= large <= 'Z' {
      var i := large as int - 'A' as int;
      assert SMALL[i] == Lower(large) && LARGE[i] == large;
    }
  }

  const DIGITS := "0123456789"
  const SPACES := "\t\n\U{000B}\U{000C}\r \U{00A0}\U{1680}\U{2000}\U{2001}\U{2002}\U{2003}\U{2004}\U{2005}"
    + "\U{2006}\U{2007}\U{2008}\U{2009}\U{200A}\U{2028}\U{2029}\U{202F}\U{205F}\U{3000}\U{FEFF}"

  /** The digits and the spaces of the pattern, one by one. */
  lemma Characters(c: char)
    ensures IsDigit(c) <==> c in DIGITS
    ensures IsSpace(c) <==> c in SPACES
  {
    if IsDigit(c) {
      assert DIGITS[c as int - '0' as int] == c;
    }
  }

  lemma SpellingIsSmall(text: string, unit: nat)
    requires Spelling(text, unit)
    ensures forall c | c in text :: 'a' <= c <= 'z'
  {
  }

  /** Folding the case of a text finds its spelling. */
  lemma SpellsLowered(text: string, unit: nat)
    ensures Spells(text, unit) <==> Spelling(Lowered(text), unit)
  {
    forall i | 0 <= i < |text| ensures Lowered(text)[i] == text[i] || IsCapital(text[i], Lowered(text)[i]) {
      CapitalsLower(text[i], Lower(text[i]));
    }
    assert Capitalises(text, Lowered(text));
    if Spells(text, unit) {
      var spelling :| Spelling(spelling, unit) && Capitalises(text, spelling);
      SpellingIsSmall(spelling, unit);
      forall i | 0 <= i < |text| ensures Lower(text[i]) == spelling[i] {
        CapitalsLower(text[i], spelling[i]);
        assert spelling[i] in spelling;
      }
      assert Lowered(text) == spelling;
    }
  }

  ghost predicate IsUnit(text: string) { exists unit :: 0 <= unit < 5 && Spells(text, unit) }

  /** The spellings that the pattern accepts. */
  predicate Listed(unit: string) {
    unit in ["s", "sec", "second", "seconds", "m", "min", "minute", "minutes", "h", "hr", "hour", "hours",
             "d", "day", "days", "ms", "millisecond", "milliseconds"]
  }

  /** A value of a unit in milliseconds. */
  function InMillis(value: real, unit: string): Option<real> {
    if unit in ["ms", "millisecond", "milliseconds"] then Some(value)
    else if unit in ["s", "sec", "second", "seconds"] then Some(value * 1000.0)
    else if unit in ["m", "min", "minute", "minutes"] then Some(value * 60.0 * 1000.0)
    else if unit in ["h", "hr", "hour", "hours"] then Some(value * 60.0 * 60.0 * 1000.0)
    else if unit in ["d", "day", "days"] then Some(value * 24.0 * 60.0 * 60.0 * 1000.0)
    else None
  }

  lemma UnitsListed(text: string)
    ensures IsUnit(text) <==> Listed(Lowered(text))
    ensures IsUnit(text) ==> text != ""
  {
    forall unit | 0 <= unit < 5 ensures Spells(text, unit) <==> Spelling(Lowered(text), unit) {
      SpellsLowered(text, unit);
    }
    if Listed(Lowered(text)) {
      assert Spells(text, 0) || Spells(text, 1) || Spells(text, 2) || Spells(text, 3) || Spells(text, 4);
    }
  }

  predicate All(p: char -> bool, s: string) { forall c | c in s :: p(c) }

  /** One way to read a text: digits, an optional fraction, spaces, and a unit that may be missing. */
  datatype Split = Split(whole: string, fraction: Option<string>, spaces: string, unit: string) {

    function Text(): string {
      whole + (if fraction.Some? then "." + fraction.value else "") + spaces + unit
    }

    ghost predicate WellFormed() {
      && whole != "" && All(IsDigit, whole)
      && (fraction.Some? ==> fraction.value != "" && All(IsDigit, fraction.value))
      && All(IsSpace, spaces)
      && (unit != "" ==> IsUnit(unit))
    }
  }

  function Digits(s: string): int
    requires All(IsDigit, s)
  {
    if s == "" then 0 else Digits(s[..|s| - 1]) * 10 + (s[|s| - 1] as int - '0' as int)
  }

  function Scale(n: nat): real {
    if n == 0 then 1.0 else 10.0 * Scale(n - 1)
  }

  lemma ScalePositive(n: nat)
    ensures Scale(n) >= 1.0
  {
  }

  function Decimal(whole: string, fraction: Option<string>): real
    requires All(IsDigit, whole) && (fraction.Some? ==> All(IsDigit, fraction.value))
  {
    if fraction.None? then Digits(whole) as real
    else
      ScalePositive(|fraction.value|);
      Digits(whole) as real + Digits(fraction.value) as real / Scale(|fraction.value|)
  }

  // ----- The parser -----

  function Span(p: char -> bool, s: string): (n: nat)
    ensures n <= |s| && All(p, s[..n])
    ensures n < |s| ==> !p(s[n])
  {
    if s == "" || !p(s[0]) then 0
    else
      var n := Span(p, s[1..]);
      assert s[..n + 1] == [s[0]] + s[1..][..n];
      n + 1
  }

  function Scan(s: string): Option<Split> {
    var n := Span(IsDigit, s);
    if n == 0 then None else ScanRest(s[..n], s[n..])
  }

  function ScanRest(whole: string, rest: string): Option<Split> {
    if |rest| >= 2 && rest[0] == '.' && IsDigit(rest[1]) then
      var m := Span(IsDigit, rest[1..]);
      ScanUnit(whole, Some(rest[1..][..m]), rest[1..][m..])
    else ScanUnit(whole, None, rest)
  }

  function ScanUnit(whole: string, fraction: Option<string>, rest: string): Option<Split> {
    var k := Span(IsSpace, rest);
    if rest[k..] == "" || Listed(Lowered(rest[k..])) then Some(Split(whole, fraction, rest[..k], rest[k..]))
    else None
  }

  datatype Input = Millis(ms: real) | Text(s: string)

  /** parseDuration; None is the thrown error. */
  function Parse(d: Input): (r: Option<real>)
  {
    match d
    case Millis(ms) => Some(ms)
    case Text(s) =>
      (match Scan(s)
       case None => None
       case Some(sp) =>
         ScanSound(s);
         InMillis(Decimal(sp.whole, sp.fraction), if sp.unit == "" then "ms" else Lowered(sp.unit)))
  }

  // ----- The parser reads exactly the grammar -----

  lemma ScanUnitSound(whole: string, fraction: Option<string>, rest: string)
    requires whole != "" && All(IsDigit, whole)
    requires fraction.Some? ==> fraction.value != "" && All(IsDigit, fraction.value)
    ensures var r := ScanUnit(whole, fraction, rest);
            r.Some? ==>
              && r.value.WellFormed()
              && r.value.Text() == whole + (if fraction.Some? then "." + fraction.value else "") + rest
  {
    var k := Span(IsSpace, rest);
    UnitsListed(rest[k..]);
    SplitTail(whole + (if fraction.Some? then "." + fraction.value else ""), rest, k);
  }

  lemma SplitTail(head: string, tail: string, k: nat)
    requires k <= |tail|
    ensures head + tail[..k] + tail[k..] == head + tail
  {
  }

  lemma ScanSound(s: string)
    ensures Scan(s).Some? ==> Scan(s).value.WellFormed() && Scan(s).value.Text() == s
  {
    var n := Span(IsDigit, s);
    if n > 0 {
      var rest := s[n..];
      if |rest| >= 2 && rest[0] == '.' && IsDigit(rest[1]) {
        var m := Span(IsDigit, rest[1..]);
        assert m > 0;
        ScanUnitSound(s[..n], Some(rest[1..][..m]), rest[1..][m..]);
        Rejoin(s, n, m);
      } else {
        ScanUnitSound(s[..n], None, rest);
        assert s[..n] + "" + rest == s;
      }
    }
  }

  lemma Rejoin(s: string, n: nat, m: nat)
    requires n < |s| && s[n] == '.' && m <= |s| - n - 1
    ensures s[..n] + ("." + s[n..][1..][..m]) + s[n..][1..][m..] == s
  {
  }

  lemma {:induction false} SpanOf(p: char -> bool, a: string, b: string)
    requires All(p, a) && (b != "" ==> !p(b[0]))
    ensures Span(p, a + b) == |a|
  {
    if a == "" {
      assert a + b == b;
    } else {
      assert (a + b)[1..] == a[1..] + b;
      assert a[0] in a;
      SpanOf(p, a[1..], b);
    }
  }

  lemma UnitStarts(unit: string)
    requires IsUnit(unit)
    ensures !IsDigit(unit[0]) && !IsSpace(unit[0]) && unit[0] != '.'
  {
    UnitsListed(unit);
    var l := Lowered(unit);
    assert l[0] == Lower(unit[0]);
    assert l[0] in "mshd";
  }

  lemma ScanUnitComplete(sp: Split)
    requires sp.WellFormed()
    ensures ScanUnit(sp.whole, sp.fraction, sp.spaces + sp.unit) == Some(sp)
  {
    if sp.unit != "" {
      UnitStarts(sp.unit);
      UnitsListed(sp.unit);
    }
    SpanOf(IsSpace, sp.spaces, sp.unit);
    var tail := sp.spaces + sp.unit;
    assert tail[..|sp.spaces|] == sp.spaces && tail[|sp.spaces|..] == sp.unit;
  }

  lemma ScanFraction(whole: string, fraction: string, tail: string)
    requires fraction != "" && All(IsDigit, fraction)
    requires tail != "" ==> !IsDigit(tail[0])
    ensures ScanRest(whole, "." + fraction + tail) == ScanUnit(whole, Some(fraction), tail)
  {
    var rest := "." + fraction + tail;
    assert rest[1..] == fraction + tail;
    assert rest[1] == fraction[0] && fraction[0] in fraction;
    SpanOf(IsDigit, fraction, tail);
    assert rest[1..][..|fraction|] == fraction && rest[1..][|fraction|..] == tail;
  }

  lemma ScanWhole(whole: string, rest: string)
    requires whole != "" && All(IsDigit, whole)
    requires rest != "" ==> !IsDigit(rest[0])
    ensures Scan(whole + rest) == ScanRest(whole, rest)
  {
    SpanOf(IsDigit, whole, rest);
    assert (whole + rest)[|whole|..] == rest && (whole + rest)[..|whole|] == whole;
  }

  /** Every well-formed reading is the one the parser finds. */
  lemma ScanComplete(sp: Split)
    requires sp.WellFormed()
    ensures Scan(sp.Text()) == Some(sp)
  {
    TailStarts(sp);
    ScanUnitComplete(sp);
    if sp.fraction.Some? {
      ScanDecimal(sp.whole, sp.fraction.value, sp.spaces + sp.unit);
      TextOf(sp);
    } else {
      ScanWhole(sp.whole, sp.spaces + sp.unit);
      TextOf(sp);
    }
  }

  lemma TextOf(sp: Split)
    ensures sp.Text() == sp.whole + if sp.fraction.Some? then "." + sp.fraction.value + (sp.spaces + sp.unit)
                                    else sp.spaces + sp.unit
  {
  }

  lemma ScanDecimal(whole: string, fraction: string, tail: string)
    requires whole != "" && All(IsDigit, whole) && fraction != "" && All(IsDigit, fraction)
    requires tail != "" ==> !IsDigit(tail[0])
    ensures Scan(whole + ("." + fraction + tail)) == ScanUnit(whole, Some(fraction), tail)
  {
    ScanWhole(whole, "." + fraction + tail);
    ScanFraction(whole, fraction, tail);
  }

  lemma TailStarts(sp: Split)
    requires sp.WellFormed()
    ensures var tail := sp.spaces + sp.unit; tail != "" ==> !IsDigit(tail[0]) && tail[0] != '.'
  {
    if sp.spaces != "" {
      assert (sp.spaces + sp.unit)[0] == sp.spaces[0];
      assert sp.spaces[0] in sp.spaces;
    } else if sp.unit != "" {
      UnitStarts(sp.unit);
    }
  }

  lemma ListedConverts(d: real, unit: string)
    ensures Listed(unit) <==> InMillis(d, unit).Some?
  {
  }

  /** What is scanned is never refused afterwards. */
  lemma ParseAccepts(s: string)
    ensures Parse(Text(s)).Some? <==> Scan(s).Some?
  {
    ScanSound(s);
    if Scan(s).Some? {
      var sp := Scan(s).value;
      UnitsListed(sp.unit);
      ListedConverts(Decimal(sp.whole, sp.fraction), if sp.unit == "" then "ms" else Lowered(sp.unit));
    }
  }

  /** A text is accepted exactly when the grammar has a reading of it. */
  lemma AcceptsExactlyGrammar(s: string)
    ensures Parse(Text(s)).Some? <==> exists sp: Split :: sp.WellFormed() && sp.Text() == s
  {
    ScanSound(s);
    ParseAccepts(s);
    if Scan(s).Some? {
      assert Scan(s).value.WellFormed() && Scan(s).value.Text() == s;
    } else {
      forall sp: Split | sp.WellFormed() && sp.Text() == s ensures false {
        ScanComplete(sp);
      }
    }
  }

  /** No text has two readings. */
  lemma OneReading(a: Split, b: Split)
    requires a.WellFormed() && b.WellFormed() && a.Text() == b.Text()
    ensures a == b
  {
    ScanComplete(a);
    ScanComplete(b);
  }

  // ----- What the units mean -----

  /** A number of some unit, in one of its spellings or, for milliseconds, without any. */
  ghost predicate InUnit(sp: Split, unit: nat) {
    sp.WellFormed() && unit < 5 && (Spells(sp.unit, unit) || (unit == 0 && sp.unit == ""))
  }

  /** A number of some unit in milliseconds, from each unit to the next smaller one. */
  function Converted(d: real, unit: nat): real {
    if unit == 0 then d else if unit == 1 then 1000.0 * d
    else if unit < 4 then 60.0 * Converted(d, unit - 1) else 24.0 * Converted(d, 3)
  }

  lemma SpellingConverts(d: real, spelling: string, unit: nat)
    requires unit < 5 && Spelling(spelling, unit)
    ensures InMillis(d, spelling) == Some(Converted(d, unit))
  {
    assert Converted(d, 2) == 60000.0 * d && Converted(d, 3) == 3600000.0 * d;
  }

  lemma UnitConverts(d: real, text: string, unit: nat)
    requires unit < 5 && (Spells(text, unit) || (unit == 0 && text == ""))
    ensures InMillis(d, if text == "" then "ms" else Lowered(text)) == Some(Converted(d, unit))
  {
    SpellsLowered(text, unit);
    if text == "" {
      assert Lowered(text) == "";
    }
    SpellingConverts(d, if text == "" then "ms" else Lowered(text), unit);
  }

  /**
   * Printing any decimal, any spacing and any spelling of a unit in any letter case, or none for milliseconds, and
   * parsing it back gives that many of the unit, in milliseconds.
   */
  lemma ParsePrinted(sp: Split, unit: nat)
    requires InUnit(sp, unit)
    ensures Parse(Text(sp.Text())) == Some(Converted(Decimal(sp.whole, sp.fraction), unit))
  {
    ScanComplete(sp);
    UnitConverts(Decimal(sp.whole, sp.fraction), sp.unit, unit);
  }

  /** All spellings of a unit, in any letter case and after any spaces, stand for the same; none means milliseconds. */
  lemma SpellingsAgree(a: Split, b: Split, unit: nat)
    requires InUnit(a, unit) && InUnit(b, unit) && a.whole == b.whole && a.fraction == b.fraction
    ensures Parse(Text(a.Text())).Some? && Parse(Text(a.Text())) == Parse(Text(b.Text()))
  {
    ParsePrinted(a, unit);
    ParsePrinted(b, unit);
  }

  /** A second is 1000 milliseconds, a minute 60 seconds, an hour 60 minutes, and a day 24 hours. */
  lemma UnitsConvert(small: Split, large: Split, unit: nat)
    requires unit < 4 && InUnit(small, unit) && InUnit(large, unit + 1)
    requires small.whole == large.whole && small.fraction == large.fraction
    ensures var x, y := Parse(Text(small.Text())), Parse(Text(large.Text()));
            && x.Some? && y.Some?
            && y.value == if unit == 0 then 1000.0 * x.value else if unit == 3 then 24.0 * x.value else 60.0 * x.value
  {
    ParsePrinted(small, unit);
    ParsePrinted(large, unit + 1);
  }

  // ----- What the digits mean -----

  /** The place of a digit in 0123456789. */
  function DigitValue(c: char): (n: nat)
    requires IsDigit(c)
    ensures n < 10 && DIGITS[n] == c
  {
    c as int - '0' as int
  }

  function Tens(n: nat): nat { if n == 0 then 1 else 10 * Tens(n - 1) }

  /** The sum of the digits, each times the power of ten of its place. */
  function PlaceValue(s: string): nat
    requires All(IsDigit, s)
  {
    if s == "" then 0
    else
      assert s[0] in s;
      DigitValue(s[0]) * Tens(|s| - 1) + PlaceValue(s[1..])
  }

  lemma {:induction false} PlacesThenLast(s: string, c: char)
    requires All(IsDigit, s) && IsDigit(c)
    ensures All(IsDigit, s + [c]) && PlaceValue(s + [c]) == 10 * PlaceValue(s) + DigitValue(c)
    decreases |s|
  {
    if s == "" {
      assert (s + [c])[1..] == "";
    } else {
      assert s[0] in s;
      assert (s + [c])[1..] == s[1..] + [c];
      PlacesThenLast(s[1..], c);
      TenTimes(DigitValue(s[0]), |s| - 1);
    }
  }

  lemma TenTimes(d: nat, n: nat)
    ensures d * Tens(n + 1) == 10 * (d * Tens(n))
  {
    var t := Tens(n);
    assert d * (10 * t) == 10 * (d * t);
  }

  lemma {:induction false} DigitsArePlaces(s: string)
    requires All(IsDigit, s)
    ensures Digits(s) == PlaceValue(s)
    decreases |s|
  {
    if s != "" {
      var init, c := s[..|s| - 1], s[|s| - 1];
      assert s == init + [c] && c in s;
      DigitsArePlaces(init);
      PlacesThenLast(init, c);
    }
  }

  /** Multiplication by name, so that products are compared factor by factor. */
  function Times(x: real, y: real): real { x * y }

  function Shifted(x: nat, scale: nat): nat { x * scale }

  lemma {:induction false} PlacesConcat(a: string, b: string)
    requires All(IsDigit, a) && All(IsDigit, b)
    ensures All(IsDigit, a + b) && PlaceValue(a + b) == Shifted(PlaceValue(a), Tens(|b|)) + PlaceValue(b)
    decreases |b|
  {
    if b == "" {
      assert a + b == a;
    } else {
      var init, c := b[..|b| - 1], b[|b| - 1];
      assert b == init + [c] && c in b && a + b == (a + init) + [c];
      PlacesConcat(a, init);
      PlacesThenLast(a + init, c);
      PlacesThenLast(init, c);
      TenTimes(PlaceValue(a), |init|);
    }
  }

  lemma {:induction false} ScaleIsTens(n: nat)
    ensures Scale(n) == Tens(n) as real
  {
    if n > 0 {
      ScaleIsTens(n - 1);
    }
  }

  /**
   * A number of milliseconds is read as the number its digits write: all digits together, before and after the point,
   * are that number times the power of ten of the digits after the point. The number given as such means the same.
   */
  lemma DigitsAreRead(sp: Split)
    requires InUnit(sp, 0)
    ensures var ms, fraction := Parse(Text(sp.Text())), if sp.fraction.Some? then sp.fraction.value else "";
            && ms.Some? && All(IsDigit, sp.whole + fraction)
            && Times(ms.value, Tens(|fraction|) as real) == PlaceValue(sp.whole + fraction) as real
            && Parse(Millis(ms.value)) == ms
  {
    ParsePrinted(sp, 0);
    DecimalIsPlaces(sp.whole, sp.fraction);
  }

  lemma DecimalIsPlaces(whole: string, part: Option<string>)
    requires All(IsDigit, whole) && (part.Some? ==> All(IsDigit, part.value))
    ensures var fraction := if part.Some? then part.value else "";
            && All(IsDigit, whole + fraction)
            && Times(Decimal(whole, part), Tens(|fraction|) as real) == PlaceValue(whole + fraction) as real
  {
    DigitsArePlaces(whole);
    if part.None? {
      assert whole + "" == whole;
      assert Times(Decimal(whole, part), 1.0) == Decimal(whole, part);
    } else {
      DigitsArePlaces(part.value);
      PlacesConcat(whole, part.value);
      ScaleIsTens(|part.value|);
      ScalePositive(|part.value|);
      Unscaled(Digits(whole), Digits(part.value), Tens(|part.value|), Decimal(whole, part));
    }
  }

  lemma Unscaled(whole: nat, part: nat, scale: nat, x: real)
    requires scale >= 1 && x == whole as real + part as real / scale as real
    ensures Times(x, scale as real) == (Shifted(whole, scale) + part) as real
  {
    assert whole as real * scale as real == (whole * scale) as real;
  }
}
