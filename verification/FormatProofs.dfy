/** Round trips of the format language: OpenCL directives, and the C99 directives built from them. */
module FormatProofs {
  import opened Wrappers
  import opened FormatModel

  // ----- Numbers

  predicate AllDigits(s: string) { forall i :: 0 <= i < |s| ==> IsDigit(s[i]) }

  /** `s` does not go on with a digit. */
  predicate NoDigit(s: string) { s == [] || !IsDigit(s[0]) }

  function Horner(s: string, acc: nat): nat
    requires AllDigits(s)
  {
    if s == [] then acc else Horner(s[1..], 10 * acc + Val(s[0]))
  }

  lemma {:induction false} HornerSnoc(s: string, c: char, acc: nat)
    requires AllDigits(s) && IsDigit(c)
    ensures AllDigits(s + [c]) && Horner(s + [c], acc) == 10 * Horner(s, acc) + Val(c)
  {
    if s != [] {
      assert (s + [c])[1..] == s[1..] + [c];
      HornerSnoc(s[1..], c, 10 * acc + Val(s[0]));
    } else {
      assert s + [c] == [c];
    }
  }

  lemma {:induction false} DigitsValue(n: nat)
    ensures AllDigits(Digits(n)) && Horner(Digits(n), 0) == n && Digits(n) != []
    ensures n > 0 ==> Digits(n)[0] != '0'
    ensures Horner(Digits(n)[..|Digits(n)| - 1], 0) == n / 10
  {
    var c := ('0' as int + n % 10) as char;
    if n < 10 {
      assert Horner([c], 0) == Val(c);
    } else {
      DigitsValue(n / 10);
      HornerSnoc(Digits(n / 10), c, 0);
      assert Digits(n)[..|Digits(n)| - 1] == Digits(n / 10);
    }
  }

  lemma {:induction false} DigitsLength(n: nat, k: nat)
    requires k > 0 && n < Pow10(k)
    ensures |Digits(n)| <= k
  {
    if n >= 10 { DigitsLength(n / 10, k - 1); }
  }

  function Pow10(k: nat): nat { if k == 0 then 1 else 10 * Pow10(k - 1) }

  lemma IntLength(n: nat)
    requires n <= INT_MAX
    ensures |Num(n)| <= 10
  {
    assert Pow10(10) == 10000000000 by {
      assert Pow10(4) == 10000;
      assert Pow10(8) == 10000 * Pow10(4);
    }
    if n > 0 { DigitsLength(n, 10); }
  }

  lemma {:induction false} HornerGrows(s: string, acc: nat)
    requires AllDigits(s)
    ensures Horner(s, acc) >= acc
  {
    if s != [] { HornerGrows(s[1..], 10 * acc + Val(s[0])); }
  }

  /** The scanner accepts a run of digits exactly when its value is at most MAX_NUMBER. */
  lemma {:induction false} NumberExact(ds: string, rest: string, acc: nat, strict: bool)
    requires AllDigits(ds) && NoDigit(rest) && acc <= MAX_NUMBER
    requires strict && acc == 0 && ds != [] ==> ds[0] != '0'
    ensures ScanNumber(ds + rest, acc, strict) ==
            if Horner(ds, acc) <= MAX_NUMBER then Some((Horner(ds, acc), rest)) else None
  {
    if ds == [] {
      assert ds + rest == rest;
    } else {
      var acc' := 10 * acc + Val(ds[0]);
      assert (ds + rest)[0] == ds[0] && (ds + rest)[1..] == ds[1..] + rest;
      HornerGrows(ds[1..], acc');
      if acc <= LIMIT {
        NumberExact(ds[1..], rest, acc', strict);
      }
    }
  }

  /** Whatever it scans is the value of the digits it consumed, and fits an int. */
  lemma {:induction false} NumberSound(s: string, acc: nat, strict: bool)
    requires acc <= MAX_NUMBER && ScanNumber(s, acc, strict).Some?
    ensures var (n, rest) := ScanNumber(s, acc, strict).value;
      && n <= MAX_NUMBER <= INT_MAX && NoDigit(rest)
      && var used := |s| - |rest|;
         s[used..] == rest && AllDigits(s[..used]) && Horner(s[..used], acc) == n
  {
    if s != [] && IsDigit(s[0]) {
      var acc' := 10 * acc + Val(s[0]);
      NumberSound(s[1..], acc', strict);
      var (n, rest) := ScanNumber(s, acc, strict).value;
      assert ScanNumber(s[1..], acc', strict) == Some((n, rest));
      hide ScanNumber;
      DigitsCons(s, rest, acc, n);
    } else {
      assert s[..0] == [];
    }
  }

  /** A digit in front of digits. */
  lemma DigitsCons(s: string, rest: string, acc: nat, n: nat)
    requires s != [] && IsDigit(s[0]) && |rest| < |s|
    requires var t, used := s[1..], |s| - 1 - |rest|;
      t[used..] == rest && AllDigits(t[..used]) && Horner(t[..used], 10 * acc + Val(s[0])) == n
    ensures var used := |s| - |rest|; s[used..] == rest && AllDigits(s[..used]) && Horner(s[..used], acc) == n
  {
    var used := |s| - |rest|;
    var front := s[1..][..used - 1];
    assert s[1..][used - 1..] == s[used..];
    assert s[..used] == [s[0]] + front;
    assert s[..used][1..] == front;
  }

  // ----- Flags

  predicate NoFlag(s: string) { s == [] || !IsFlag(s[0]) }

  lemma ScanFlag(c: char, s: string, f: Flags)
    requires IsFlag(c) && !HasFlag(f, c)
    ensures ScanFlags([c] + s, f) == ScanFlags(s, WithFlag(f, c))
    ensures C99Flags([c] + s, f) == C99Flags(s, WithFlag(f, c))
  {
    assert ([c] + s)[1..] == s;
  }

  /** A flag that may be there, in front of text that is read. */
  lemma OptionalFlag(on: bool, c: char, s: string, f: Flags)
    requires IsFlag(c) && !HasFlag(f, c)
    ensures var t := (if on then [c] else []) + s;
      var g := if on then WithFlag(f, c) else f;
      ScanFlags(t, f) == ScanFlags(s, g) && C99Flags(t, f) == C99Flags(s, g)
  {
    if on {
      ScanFlag(c, s, f);
    } else {
      assert [] + s == s;
    }
  }

  lemma FlagTextSplits(f: Flags, rest: string)
    ensures FlagText(f) + rest ==
      (if f.left then ['-'] else []) + ((if f.plus then ['+'] else []) + ((if f.space then [' '] else []) +
      ((if f.alt then ['#'] else []) + ((if f.zero then ['0'] else []) + rest))))
  {
  }

  /** Flag texts are read back, by either parser. */
  lemma FlagsScan(f: Flags, rest: string)
    requires NoFlag(rest)
    ensures ScanFlags(FlagText(f) + rest, NO_FLAGS) == Some((f, rest))
    ensures C99Flags(FlagText(f) + rest, NO_FLAGS) == (f, rest)
  {
    assert ScanFlags(rest, f) == Some((f, rest)) && C99Flags(rest, f) == (f, rest);
    hide ScanFlags, C99Flags, FlagText, NoFlag;
    var s4 := (if f.zero then ['0'] else []) + rest;
    var s3 := (if f.alt then ['#'] else []) + s4;
    var s2 := (if f.space then [' '] else []) + s3;
    var s1 := (if f.plus then ['+'] else []) + s2;
    var g1 := Flags(f.left, false, false, false, false);
    var g2 := Flags(f.left, f.plus, false, false, false);
    var g3 := Flags(f.left, f.plus, f.space, false, false);
    var g4 := Flags(f.left, f.plus, f.space, f.alt, false);
    FlagTextSplits(f, rest);
    OptionalFlag(f.left, '-', s1, NO_FLAGS);
    OptionalFlag(f.plus, '+', s2, g1);
    OptionalFlag(f.space, ' ', s3, g2);
    OptionalFlag(f.alt, '#', s4, g3);
    OptionalFlag(f.zero, '0', rest, g4);
  }

  // ----- Scanned directives

  /** The directives that the scanner can produce. */
  predicate WellFormed(d: Directive) {
    && d.width <= MAX_NUMBER && -1 <= d.precision <= MAX_NUMBER
    && d.length in {0, 1, 2, 4, 8}
    && (d.vector == 1 || IsVectorLength(d.vector))
    && (d.vector == 1 ==> d.length != 4) && (d.vector != 1 ==> d.length != 0)
  }

  predicate IsConversion(c: char) { IsInteger(c) || IsFloat(c) || c in {'c', 's', 'p'} }

  /** What comes first after a width: a dot, a letter. */
  lemma TailStarts(c: char, tail: string)
    requires tail != [] && tail[0] in {'h', 'l', c} && IsConversion(c)
    ensures NoDigit(tail) && tail[0] != 'v' && tail[0] != '.' && NoFlag(tail)
  {
  }

  lemma NumStarts(n: nat, tail: string)
    requires NoFlag(tail)
    ensures NoFlag(Num(n) + tail)
  {
    if n > 0 { DigitsValue(n); } else { assert Num(n) + tail == tail; }
  }

  /** What the scanner produces is well formed: it cannot reach the unreachable cases of vector and
      integer lengths. */
  lemma DirectiveSound(s: string)
    requires ScanDirective(s).Some?
    ensures WellFormed(ScanDirective(s).value.0)
  {
    var (flags, s1) := ScanFlags(s, NO_FLAGS).value;
    NumberSound(s1, 0, true);
    var (width, s2) := ScanNumber(s1, 0, true).value;
    if s2 != [] && s2[0] == '.' { NumberSound(s2[1..], 0, false); }
  }

  // ----- The C99 round trip

  lemma {:induction false} NumberReads(ds: string, rest: string, acc: nat)
    requires AllDigits(ds) && NoDigit(rest)
    ensures Number(ds + rest, acc) == (Horner(ds, acc), rest)
  {
    if ds == [] {
      assert ds + rest == rest;
    } else {
      assert (ds + rest)[1..] == ds[1..] + rest;
      NumberReads(ds[1..], rest, 10 * acc + Val(ds[0]));
    }
  }

  lemma NumReads(n: nat, rest: string)
    requires NoDigit(rest)
    ensures Number(Num(n) + rest, 0) == (n, rest)
  {
    if n == 0 {
      assert Num(n) + rest == rest;
    } else {
      DigitsValue(n);
      NumberReads(Digits(n), rest, 0);
    }
  }

  predicate IsModifier(m: string) { m in {"", "hh", "h", "l", "ll"} }

  lemma ModifierReads(m: string, c: char)
    requires IsModifier(m) && IsConversion(c)
    ensures C99Modifier(m + [c]) == (m, [c])
  {
    var s := m + [c];
    assert s[|m|..] == [c] && s[..|m|] == m;
    assert s[|m|] == c;
  }

  lemma RenderSplits(d: Directive, m: string)
    requires WellFormed(d) && IsModifier(m)
    ensures Render(d, m) == "%" + (FlagText(d.flags) + (Num(d.width) + (PrecisionText(d.precision) + (m + [d.conv]))))
    ensures |Render(d, m)| < 1000
  {
    IntLength(d.width);
    if d.precision >= 0 { IntLength(d.precision); }
    assert |PrecisionText(d.precision)| <= 11 && |FlagText(d.flags)| <= 5 && |m| <= 2;
    hide Num, FlagText, PrecisionText, IsModifier;
  }

  /** The directive that the helpers build fits the buffer of 1000 bytes, and a C99 parser reads back
      the flags, width, precision, length modifier and conversion. */
  lemma C99RoundTrip(d: Directive, m: string)
    requires WellFormed(d) && IsModifier(m) && IsConversion(d.conv)
    ensures |Render(d, m)| < 1000
    ensures C99Parse(Render(d, m)) == Some(C99(d.flags, d.width, d.precision, m, d.conv))
  {
    var s4 := m + [d.conv];
    var s3 := PrecisionText(d.precision) + s4;
    var s2 := Num(d.width) + s3;
    var s1 := FlagText(d.flags) + s2;
    RenderSplits(d, m);
    assert ("%" + s1)[1..] == s1;
    assert s4[0] in {'h', 'l', d.conv};
    ModifierReads(m, d.conv);
    TailStarts(d.conv, s4);
    PrecisionReads(d.precision, s4);
    hide PrecisionText, Num, FlagText, NoFlag, NoDigit, Render, Number, C99Flags, C99Modifier;
    NumReads(d.width, s3);
    NumStarts(d.width, s3);
    FlagsScan(d.flags, s2);
  }

  lemma PrecisionReads(precision: int, tail: string)
    requires -1 <= precision && tail != [] && tail[0] != '.' && NoDigit(tail)
    ensures var s := PrecisionText(precision) + tail;
      if precision == -1 then s == tail else s[0] == '.' && Number(s[1..], 0) == (precision, tail)
  {
    var s := PrecisionText(precision) + tail;
    if precision == -1 {
      assert s == tail;
    } else {
      assert s[1..] == Num(precision) + tail;
      NumReads(precision, tail);
    }
  }

  // ----- Helpers

  function Size(e: Element): nat {
    match e case Char => 1 case Short => 2 case Int => 4 case Long => 8 case Float => 4 case Double => 8
  }

  /** The element size that an OpenCL directive asks for: int and double are the defaults. */
  function AskedSize(d: Directive): nat {
    if d.length != 0 then d.length else if IsFloat(d.conv) then 8 else 4
  }

  /** The type with which a helper passes one component to printf: char, short and float are promoted. */
  function Passed(h: Helper): CType {
    match h
    case PrintInts(Long) => CLongLong
    case PrintInts(_) => CInt
    case PrintFloats(_) => CDouble
    case PrintChar => CInt
    case PrintString => CString
    case PrintPointer => CPointer
  }

  /** The helper reads elements of the size asked for. */
  predicate ReadsAsked(h: Helper, d: Directive) {
    (h.PrintInts? || h.PrintFloats?) ==> Size(h.element) == AskedSize(d)
  }

  /** The format fits the buffer and takes what the helper passes; an integer is converted back to the
      size of the element it was promoted from. */
  predicate Suits(h: Helper, format: string) {
    && |format| < 1000
    && var c := C99Parse(format);
       && c.Some? && ArgumentType(c.value) == Some(Passed(h))
       && (h.PrintInts? ==> ConvertedSize(c.value) == Some(Size(h.element)))
  }

  /** What a C99 printf must be told to print one component of the argument. */
  function Meaning(h: Helper, d: Directive): C99 {
    C99(d.flags, d.width, d.precision, Modifier(h), d.conv)
  }

  /** The switch chooses a helper for the conversion that reads elements of the size asked for. */
  lemma HelperChosen(d: Directive)
    requires WellFormed(d) && Convert(d).Prints?
    ensures var h := Convert(d).helper;
      && IsConversion(d.conv) && IsModifier(Modifier(h)) && ReadsAsked(h, d)
      && (IsInteger(d.conv) <==> h.PrintInts?) && (IsFloat(d.conv) <==> h.PrintFloats?)
      && (h.PrintInts? ==> h.element in {Char, Short, Int, Long}) && (h.PrintFloats? ==> h.element in {Float, Double})
  {
  }

  /** The only flag is '-', and there is neither a vector nor a length. */
  predicate Plain(d: Directive) {
    !d.flags.plus && !d.flags.space && !d.flags.alt && !d.flags.zero && d.vector == 1 && d.length == 0
  }

  /** Which scanned directives are printed, and by which helper; which are rejected, and which reach a case
      declared unreachable. */
  lemma ConvertExact(s: string)
    requires ScanDirective(s).Some?
    ensures var d := ScanDirective(s).value.0;
      && (Convert(d).Prints? <==>
            || IsInteger(d.conv)
            || (IsFloat(d.conv) && d.length in {0, 4, 8})
            || (d.conv == 's' && Plain(d))
            || (d.conv in {'c', 'p'} && Plain(d) && d.precision == -1))
      && (Convert(d).Undefined? <==> IsFloat(d.conv) && d.length in {1, 2})
      && (Convert(d) == Prints(PrintInts(Char)) <==> IsInteger(d.conv) && d.length == 1)
      && (Convert(d) == Prints(PrintInts(Short)) <==> IsInteger(d.conv) && d.length == 2)
      && (Convert(d) == Prints(PrintInts(Int)) <==> IsInteger(d.conv) && d.length in {0, 4})
      && (Convert(d) == Prints(PrintInts(Long)) <==> IsInteger(d.conv) && d.length == 8)
      && (Convert(d) == Prints(PrintFloats(Float)) <==> IsFloat(d.conv) && d.length == 4)
      && (Convert(d) == Prints(PrintFloats(Double)) <==> IsFloat(d.conv) && d.length in {0, 8})
      && (Convert(d) == Prints(PrintString) <==> d.conv == 's' && Plain(d))
      && (Convert(d) == Prints(PrintChar) <==> d.conv == 'c' && Plain(d) && d.precision == -1)
      && (Convert(d) == Prints(PrintPointer) <==> d.conv == 'p' && Plain(d) && d.precision == -1)
  {
    DirectiveSound(s);
    hide ScanDirective;
    var d := ScanDirective(s).value.0;
    assert IsFloat(d.conv) ==> !IsInteger(d.conv);
  }

  lemma BuiltIsRendered(d: Directive)
    requires Convert(d).Prints? && WellFormed(d)
    ensures var h := Convert(d).helper;
      Build(h, d) == Render(if d.conv == 's' && d.precision >= 0 then d.(width := 0) else d, Modifier(h))
  {
    hide Digits, C99Parse;
    assert Num(0) == [];
    if d.conv in {'s', 'c', 'p'} {
      assert FlagText(d.flags) == if d.flags.left then "-" else "";
    }
  }

  lemma PassedSuits(h: Helper, c: C99)
    requires h.PrintInts? ==> h.element in {Char, Short, Int, Long}
    requires h.PrintFloats? ==> h.element in {Float, Double}
    requires c.modifier == Modifier(h)
    requires match h
      case PrintInts(_) => IsInteger(c.conv)
      case PrintFloats(_) => IsFloat(c.conv)
      case PrintChar => c.conv == 'c'
      case PrintString => c.conv == 's'
      case PrintPointer => c.conv == 'p'
    ensures ArgumentType(c) == Some(Passed(h))
    ensures h.PrintInts? ==> ConvertedSize(c) == Some(Size(h.element))
  {
    assert IsFloat(c.conv) ==> !IsInteger(c.conv);
  }

  /** For every directive that the scanner accepts and prints: the helper chosen by the length switch
      reads elements of the size asked for, and the format it builds suits it. A C99 parse gives back
      the same flags, width, precision and conversion, except that a string loses its width when it
      also has a precision. */
  lemma BuildRoundTrip(s: string)
    requires ScanDirective(s).Some? && Convert(ScanDirective(s).value.0).Prints?
    ensures var d := ScanDirective(s).value.0;
      var h := Convert(d).helper;
      && ReadsAsked(h, d) && Suits(h, Build(h, d))
      && (C99Parse(Build(h, d)).value == Meaning(h, d) <==> !(d.conv == 's' && d.precision >= 0 && d.width > 0))
  {
    DirectiveSound(s);
    var d := ScanDirective(s).value.0;
    var h := Convert(d).helper;
    var d' := if d.conv == 's' && d.precision >= 0 then d.(width := 0) else d;
    HelperChosen(d);
    hide ScanDirective, Build, Render, C99Parse, WellFormed, ReadsAsked;
    BuiltIsRendered(d);
    C99RoundTrip(d', Modifier(h));
    PassedSuits(h, Meaning(h, d'));
  }
}
