/**
 The scanner of OpenCL directives against a declarative grammar: a directive is a run of distinct
 flags, a numeral, a dotted numeral, a vector specifier, a length modifier and a conversion.
 */
module FormatGrammar {
  import opened Wrappers
  import opened Sequences
  import opened FormatModel
  import opened FormatProofs

  // ----- The grammar

  /** Distinct flags, in any order. */
  predicate FlagRun(t: string, f: Flags) {
    && (forall i :: 0 <= i < |t| ==> IsFlag(t[i]))
    && (forall i, j :: 0 <= i < j < |t| ==> t[i] != t[j])
    && (f.left <==> '-' in t) && (f.plus <==> '+' in t) && (f.space <==> ' ' in t)
    && (f.alt <==> '#' in t) && (f.zero <==> '0' in t)
  }

  /** Digits of value `n`; a strict numeral has no leading zero and may be empty. */
  predicate Numeral(t: string, n: nat, strict: bool) {
    AllDigits(t) && Horner(t, 0) == n && n <= MAX_NUMBER && (strict && t != [] ==> t[0] != '0')
  }

  predicate PrecisionRun(t: string, precision: int) {
    if precision < 0 then t == [] && precision == -1
    else t != [] && t[0] == '.' && Numeral(t[1..], precision, false)
  }

  predicate VectorRun(t: string, vector: nat) {
    if vector == 1 then t == []
    else t != [] && t[0] == 'v' && Numeral(t[1..], vector, true) && IsVectorLength(vector)
  }

  /** The parts of a directive with more than one spelling. */
  datatype Parts = Parts(flags: string, width: string, precision: string, vector: string)

  predicate Derives(p: Parts, d: Directive) {
    var flags := FlagRun(p.flags, d.flags);
    var width := Numeral(p.width, d.width, true);
    var precision := PrecisionRun(p.precision, d.precision);
    var vector := VectorRun(p.vector, d.vector);
    var length := d.length in {0, 1, 2, 4, 8} && (d.vector == 1 ==> d.length != 4) && (d.vector != 1 ==> d.length != 0);
    flags && width && precision && vector && length
  }

  /** The text of a derivation, followed by `rest`. */
  function Text(p: Parts, d: Directive, rest: string): string {
    p.flags + (p.width + (p.precision + (p.vector + (LengthText(d.length) + ([d.conv] + rest)))))
  }

  // ----- Derived texts are scanned

  function Join(f: Flags, g: Flags): Flags {
    Flags(f.left || g.left, f.plus || g.plus, f.space || g.space, f.alt || g.alt, f.zero || g.zero)
  }

  function FlagsOf(t: string): Flags { Flags('-' in t, '+' in t, ' ' in t, '#' in t, '0' in t) }

  lemma {:induction false} FlagRunScans(t: string, rest: string, f: Flags)
    requires forall i :: 0 <= i < |t| ==> IsFlag(t[i]) && !HasFlag(f, t[i])
    requires forall i, j :: 0 <= i < j < |t| ==> t[i] != t[j]
    requires NoFlag(rest)
    ensures ScanFlags(t + rest, f) == Some((Join(f, FlagsOf(t)), rest))
  {
    if t == [] {
      assert t + rest == rest;
    } else {
      var u := t[1..];
      assert (t + rest)[1..] == u + rest && t == [t[0]] + u;
      forall i | 0 <= i < |u| ensures IsFlag(u[i]) && !HasFlag(WithFlag(f, t[0]), u[i]) {
        assert u[i] == t[i + 1] && t[0] != t[i + 1];
      }
      FlagRunScans(u, rest, WithFlag(f, t[0]));
      hide ScanFlags;
      JoinStep(t[0], u, f);
    }
  }

  lemma JoinStep(c: char, u: string, f: Flags)
    requires IsFlag(c)
    ensures Join(WithFlag(f, c), FlagsOf(u)) == Join(f, FlagsOf([c] + u))
  {
    var t := [c] + u;
    assert forall x: char :: x in t <==> x == c || x in u;
  }

  lemma NumeralScans(t: string, n: nat, rest: string, strict: bool)
    requires Numeral(t, n, strict) && NoDigit(rest)
    ensures ScanNumber(t + rest, 0, strict) == Some((n, rest))
  {
    NumberExact(t, rest, 0, strict);
  }

  lemma PrecisionScans(t: string, precision: int, rest: string)
    requires PrecisionRun(t, precision) && NoDigit(rest) && (rest == [] || rest[0] != '.')
    ensures ScanPrecision(t + rest) == Some((precision, rest))
  {
    if precision < 0 {
      assert t + rest == rest;
    } else {
      assert (t + rest)[1..] == t[1..] + rest;
      NumeralScans(t[1..], precision, rest, false);
    }
  }

  lemma VectorScans(t: string, vector: nat, rest: string)
    requires VectorRun(t, vector) && NoDigit(rest) && (rest == [] || rest[0] != 'v')
    ensures ScanVector(t + rest) == Some((if vector == 1 then 0 else vector, rest))
  {
    if vector == 1 {
      assert t + rest == rest;
    } else {
      assert (t + rest)[1..] == t[1..] + rest;
      NumeralScans(t[1..], vector, rest, true);
    }
  }

  lemma LengthScans(length: nat, c: char, rest: string)
    requires length in {0, 1, 2, 4, 8} && IsConversion(c)
    ensures ScanLength(LengthText(length) + ([c] + rest)) == (length, [c] + rest)
  {
    var s := LengthText(length) + ([c] + rest);
    assert s[|LengthText(length)|..] == [c] + rest;
    assert s[|LengthText(length)|] == c;
  }

  /** A vector specifier or a precision in front keeps digits, dots and flags away. */
  lemma RunStarts(t: string, c: char, tail: string)
    requires t == [] || (t[0] == c && c in {'v', '.'})
    requires NoDigit(tail) && NoFlag(tail)
    ensures NoDigit(t + tail) && NoFlag(t + tail)
    ensures c == 'v' && (tail == [] || tail[0] != '.') ==> t + tail == [] || (t + tail)[0] != '.'
  {
    if t == [] { assert t + tail == tail; }
  }

  lemma NumeralStarts(t: string, n: nat, tail: string)
    requires Numeral(t, n, true) && NoFlag(tail)
    ensures NoFlag(t + tail)
  {
    if t == [] { assert t + tail == tail; }
  }

  lemma FlagRunOf(t: string, f: Flags)
    requires FlagRun(t, f)
    ensures f == FlagsOf(t) && Join(NO_FLAGS, f) == f
  {
  }

  lemma DerivedScans(p: Parts, d: Directive, rest: string)
    requires Derives(p, d) && IsConversion(d.conv)
    ensures ScanDirective(Text(p, d, rest)) == Some((d, rest))
  {
    var s5 := [d.conv] + rest;
    var s4 := LengthText(d.length) + s5;
    var s3 := p.vector + s4;
    var s2 := p.precision + s3;
    var s1 := p.width + s2;
    assert s4[0] in {'h', 'l', d.conv};
    assert s5[0] == d.conv && s5[1..] == rest;
    LengthScans(d.length, d.conv, rest);
    TailStarts(d.conv, s4);
    RunStarts(p.vector, 'v', s4);
    RunStarts(p.precision, '.', s3);
    FlagRunOf(p.flags, d.flags);
    assert p.flags + s1 == Text(p, d, rest);
    hide FlagRun, Numeral, PrecisionRun, VectorRun, NoFlag, NoDigit, LengthText, FlagsOf, Join, Text;
    hide ScanFlags, ScanNumber, ScanPrecision, ScanVector, ScanLength;
    NumeralStarts(p.width, d.width, s2);
    FlagRunReads(p.flags, d.flags, s1);
    NumeralScans(p.width, d.width, s2, true);
    PrecisionScans(p.precision, d.precision, s3);
    VectorScans(p.vector, d.vector, s4);
  }

  lemma FlagRunReads(t: string, f: Flags, rest: string)
    requires FlagRun(t, f) && NoFlag(rest)
    ensures ScanFlags(t + rest, NO_FLAGS) == Some((f, rest))
  {
    FlagRunOf(t, f);
    FlagRunScans(t, rest, NO_FLAGS);
  }

  // ----- Scanned texts are derived

  lemma {:induction false} ScannedFlags(s: string, f: Flags) returns (t: string)
    requires ScanFlags(s, f).Some?
    ensures var (g, rest) := ScanFlags(s, f).value;
      s == t + rest && g == Join(f, FlagsOf(t)) && NoFlag(rest)
    ensures forall i :: 0 <= i < |t| ==> IsFlag(t[i]) && !HasFlag(f, t[i])
    ensures forall i, j :: 0 <= i < j < |t| ==> t[i] != t[j]
    decreases |s|
  {
    if s == [] || !IsFlag(s[0]) {
      t := [];
    } else {
      var u := ScannedFlags(s[1..], WithFlag(f, s[0]));
      t := [s[0]] + u;
      JoinStep(s[0], u, f);
      assert s == [s[0]] + s[1..];
      forall i | 0 <= i < |u| ensures !HasFlag(f, u[i]) && u[i] != s[0] {
        WithFlagHas(f, s[0], u[i]);
      }
      hide ScanFlags, HasFlag, Join, FlagsOf;
    }
  }

  lemma WithFlagHas(f: Flags, c: char, x: char)
    requires IsFlag(c) && IsFlag(x)
    ensures HasFlag(WithFlag(f, c), x) <==> x == c || HasFlag(f, x)
  {
  }

  lemma ScannedNumeral(s: string, strict: bool) returns (t: string)
    requires ScanNumber(s, 0, strict).Some?
    ensures var (n, rest) := ScanNumber(s, 0, strict).value; s == t + rest && Numeral(t, n, strict)
  {
    NumberSound(s, 0, strict);
    t := s[..|s| - |ScanNumber(s, 0, strict).value.1|];
  }

  lemma ScannedPrecision(s: string) returns (t: string)
    requires ScanPrecision(s).Some?
    ensures var (n, rest) := ScanPrecision(s).value; s == t + rest && PrecisionRun(t, n)
  {
    t := [];
    if s != [] && s[0] == '.' {
      var u := ScannedNumeral(s[1..], false);
      t := ['.'] + u;
      assert t[1..] == u && s == ['.'] + s[1..];
    }
  }

  lemma ScannedVector(s: string) returns (t: string)
    requires ScanVector(s).Some?
    ensures var (n, rest) := ScanVector(s).value;
      s == t + rest && VectorRun(t, if n == 0 then 1 else n) && n != 1
  {
    t := [];
    if s != [] && s[0] == 'v' {
      var u := ScannedNumeral(s[1..], true);
      t := ['v'] + u;
      assert t[1..] == u && s == ['v'] + s[1..];
    }
  }

  lemma ScannedLength(s: string)
    ensures var (length, rest) := ScanLength(s); s == LengthText(length) + rest && length in {0, 1, 2, 4, 8}
  {
    if |s| > 1 { assert s == [s[0], s[1]] + s[2..]; }
    if s != [] { assert s == [s[0]] + s[1..]; }
  }

  lemma ScannedDerives(s: string) returns (p: Parts)
    requires ScanDirective(s).Some?
    ensures var (d, rest) := ScanDirective(s).value; Derives(p, d) && s == Text(p, d, rest)
  {
    hide ScanFlags, ScanNumber, ScanPrecision, ScanVector, ScanLength, LengthText;
    hide Numeral, PrecisionRun, VectorRun, HasFlag, Join, FlagsOf;
    var (d, rest) := ScanDirective(s).value;
    var flags := ScannedFlagRun(s);
    var s1 := ScanFlags(s, NO_FLAGS).value.1;
    var width := ScannedNumeral(s1, true);
    var s2 := ScanNumber(s1, 0, true).value.1;
    var precision := ScannedPrecision(s2);
    var s3 := ScanPrecision(s2).value.1;
    var vector := ScannedVector(s3);
    var s4 := ScanVector(s3).value.1;
    ScannedLength(s4);
    var s5 := ScanLength(s4).1;
    assert s5 == [d.conv] + rest;
    hide FlagRun;
    p := Parts(flags, width, precision, vector);
  }

  lemma ScannedFlagRun(s: string) returns (t: string)
    requires ScanFlags(s, NO_FLAGS).Some?
    ensures var (g, rest) := ScanFlags(s, NO_FLAGS).value; s == t + rest && FlagRun(t, g)
  {
    t := ScannedFlags(s, NO_FLAGS);
  }

  // ----- The scanner is the grammar

  /** On every text and for every conversion, the scanner yields a directive and leaves a rest exactly
      when the grammar derives the directive from the text before that rest. */
  lemma ScannerIsGrammar(s: string, d: Directive, rest: string)
    requires IsConversion(d.conv)
    ensures ScanDirective(s) == Some((d, rest)) <==> exists p :: Derives(p, d) && s == Text(p, d, rest)
  {
    hide ScanDirective, Derives, Text;
    if ScanDirective(s) == Some((d, rest)) {
      var p := ScannedDerives(s);
    }
    forall p | Derives(p, d) && s == Text(p, d, rest) ensures ScanDirective(s) == Some((d, rest)) {
      DerivedScans(p, d, rest);
    }
  }

  // ----- Every well-formed directive has a spelling

  function VectorText(vector: nat): string { if vector == 1 then "" else "v" + Digits(vector) }

  lemma NumNumeral(n: nat)
    requires n <= MAX_NUMBER
    ensures Numeral(Num(n), n, true)
  {
    if n > 0 { DigitsValue(n); }
  }

  lemma FlagTextRun(f: Flags)
    ensures FlagRun(FlagText(f), f)
  {
    FlagsScan(f, "");
    hide FlagText, FlagRun, ScanFlags;
    var t := ScannedFlagRun(FlagText(f) + "");
    assert FlagText(f) + "" == FlagText(f) && t + "" == t;
  }

  lemma SpellDerives(d: Directive)
    requires WellFormed(d)
    ensures Derives(Parts(FlagText(d.flags), Num(d.width), PrecisionText(d.precision), VectorText(d.vector)), d)
  {
    FlagTextRun(d.flags);
    NumNumeral(d.width);
    var p, v := PrecisionText(d.precision), VectorText(d.vector);
    if d.precision >= 0 {
      NumNumeral(d.precision);
      assert p[1..] == Num(d.precision);
    }
    if d.vector != 1 {
      NumNumeral(d.vector);
      assert v[1..] == Num(d.vector);
    }
    hide FlagRun, FlagText, Numeral, Num;
  }

  /** Scanning the spelling of a directive gives the directive back and leaves the rest. */
  lemma DirectiveRoundTrip(d: Directive, rest: string)
    requires WellFormed(d) && IsConversion(d.conv)
    ensures ScanDirective(Spell(d) + rest) == Some((d, rest))
  {
    SpellDerives(d);
    SpellSplits(d, rest);
    hide Derives, Spell, ScanDirective;
    DerivedScans(Parts(FlagText(d.flags), Num(d.width), PrecisionText(d.precision), VectorText(d.vector)), d, rest);
  }

  lemma SpellSplits(d: Directive, rest: string)
    ensures Spell(d) + rest ==
      FlagText(d.flags) + (Num(d.width) + (PrecisionText(d.precision) +
      (VectorText(d.vector) + (LengthText(d.length) + ([d.conv] + rest)))))
  {
    hide FlagText, Num, PrecisionText, LengthText, Digits;
  }

  // ----- Whole format strings

  function SpellItem(item: Item): string {
    match item
    case Literal(c) => if c == '%' then "%%" else [c]
    case Conversion(d) => "%" + Spell(d)
  }

  function SpellItems(items: seq<Item>): string {
    if items == [] then [] else SpellItem(items[0]) + SpellItems(items[1..])
  }

  /** Any character, or a directive that is printed. */
  predicate Printable(item: Item) {
    item.Conversion? ==> WellFormed(item.d) && IsConversion(item.d.conv) && Convert(item.d).Prints?
  }

  /** A directive does not begin with a percent sign. */
  lemma NoPercent(s: string)
    requires s != [] && s[0] == '%' && ScanDirective(s).Some?
    ensures ScanDirective(s).value.0.conv == '%'
  {
  }

  lemma LiteralScans(c: char, rest: string)
    ensures ScanFormat(SpellItem(Literal(c)) + rest) == ([Literal(c)] + ScanFormat(rest).0, ScanFormat(rest).1)
  {
    var s := SpellItem(Literal(c)) + rest;
    if c == '%' {
      assert s[0] == '%' && s[1] == '%' && s[2..] == rest;
    } else {
      assert s[0] == c && s[1..] == rest;
    }
  }

  lemma ConversionScans(d: Directive, rest: string)
    requires Printable(Conversion(d))
    ensures ScanFormat(SpellItem(Conversion(d)) + rest) == ([Conversion(d)] + ScanFormat(rest).0, ScanFormat(rest).1)
  {
    var s := SpellItem(Conversion(d)) + rest;
    var body := Spell(d) + rest;
    assert s == "%" + body && s[0] == '%' && s[1..] == body;
    DirectiveRoundTrip(d, rest);
    hide Spell, WellFormed;
    if body != [] && body[0] == '%' { NoPercent(body); }
    hide ScanDirective, Convert;
    assert |s| > 1 ==> s[1] == body[0];
  }

  /** A format string that begins with the spelling of items prints these items and goes on with the rest:
      every literal character, at its place, and every directive. */
  lemma {:induction false} FormatRoundTrip(items: seq<Item>, rest: string)
    requires forall i :: 0 <= i < |items| ==> Printable(items[i])
    ensures ScanFormat(SpellItems(items) + rest) == (items + ScanFormat(rest).0, ScanFormat(rest).1)
  {
    hide ScanFormat, SpellItem;
    if items == [] {
      assert SpellItems(items) + rest == rest && items + ScanFormat(rest).0 == ScanFormat(rest).0;
    } else {
      var tail := items[1..];
      FormatRoundTrip(tail, rest);
      Regroup(SpellItem(items[0]), SpellItems(tail), rest);
      hide SpellItems;
      ItemScans(items[0], SpellItems(tail) + rest);
      Regroup([items[0]], tail, ScanFormat(rest).0);
      assert [items[0]] + tail == items;
    }
  }

  lemma ItemScans(item: Item, rest: string)
    requires Printable(item)
    ensures ScanFormat(SpellItem(item) + rest) == ([item] + ScanFormat(rest).0, ScanFormat(rest).1)
  {
    hide ScanFormat, SpellItem, Printable;
    match item
    case Literal(c) => LiteralScans(c, rest);
    case Conversion(d) => ConversionScans(d, rest);
  }

  /** The end, and the first thing that is not printed: nothing follows it. */
  lemma FormatStops(s: string)
    ensures s == [] ==> ScanFormat(s) == ([], Done)
    ensures s != [] && s[0] == '%' && (|s| == 1 || s[1] != '%') ==>
      var d := ScanDirective(s[1..]);
      && (ScanFormat(s) == ([], FormatError) <==> d.None? || Convert(d.value.0).Rejects?)
      && (ScanFormat(s) == ([], UndefinedBehaviour) <==> d.Some? && Convert(d.value.0).Undefined?)
  {
    hide ScanDirective, Convert;
  }

  /** A string with both a width and a precision: "%5.1s" is rebuilt as "%.1s". */
  lemma StringWidthDropped()
    ensures var d := Directive(NO_FLAGS, 5, 1, 1, 0, 's');
      ScanDirective("5.1s") == Some((d, "")) && C99Parse(Build(PrintString, d)) == Some(C99(NO_FLAGS, 0, 1, "", 's'))
  {
    var d := Directive(NO_FLAGS, 5, 1, 1, 0, 's');
    assert Digits(5) == "5" && Digits(1) == "1";
    assert Spell(d) + "" == "5.1s";
    DirectiveRoundTrip(d, "");
    BuiltIsRendered(d);
    C99RoundTrip(d.(width := 0), "");
  }
}
