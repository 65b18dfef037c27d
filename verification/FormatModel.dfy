/**
 The format language of the OpenCL printf: a recursive grammar for its directives, the C99
 directive that the helpers build from a parsed one, and a C99 directive parser.
 */
module FormatModel {
  import opened Wrappers

  const INT_MAX := 2147483647

  /** Accumulators above this make the next digit an error. */
  const LIMIT := (INT_MAX - 9) / 10

  /** The largest number the scanner accepts. */
  const MAX_NUMBER := 10 * LIMIT + 9

  datatype Flags = Flags(left: bool, plus: bool, space: bool, alt: bool, zero: bool)

  const NO_FLAGS := Flags(false, false, false, false, false)

  /** `precision` is -1 when absent; `vector` is 1 for scalars; `length` is 0, 1, 2, 4 or 8 bytes. */
  datatype Directive = Directive(flags: Flags, width: nat, precision: int, vector: nat, length: nat, conv: char)

  predicate IsDigit(c: char) { '0' <= c <= '9' }

  predicate IsFlag(c: char) { c in {'-', '+', ' ', '#', '0'} }

  function Val(c: char): nat
    requires IsDigit(c)
  {
    c as int - '0' as int
  }

  predicate HasFlag(f: Flags, c: char)
    requires IsFlag(c)
  {
    match c case '-' => f.left case '+' => f.plus case ' ' => f.space case '#' => f.alt case _ => f.zero
  }

  function WithFlag(f: Flags, c: char): Flags
    requires IsFlag(c)
  {
    match c
    case '-' => f.(left := true)
    case '+' => f.(plus := true)
    case ' ' => f.(space := true)
    case '#' => f.(alt := true)
    case _ => f.(zero := true)
  }

  predicate IsInteger(c: char) { c in {'d', 'i', 'o', 'u', 'x', 'X'} }

  predicate IsFloat(c: char) { c in {'f', 'F', 'e', 'E', 'g', 'G', 'a', 'A'} }

  predicate IsVectorLength(n: nat) { n in {2, 3, 4, 8, 16} }

  // ----- The OpenCL grammar, on the text that is left

  /** Flags in any order, none of them twice. */
  function ScanFlags(s: string, f: Flags): (r: Option<(Flags, string)>)
    ensures r.Some? ==> |r.value.1| <= |s|
  {
    if s == [] || !IsFlag(s[0]) then Some((f, s))
    else if HasFlag(f, s[0]) then None
    else ScanFlags(s[1..], WithFlag(f, s[0]))
  }

  /** Digits after an accumulator; `strict` numbers have no leading zero. */
  function ScanNumber(s: string, acc: nat, strict: bool): (r: Option<(nat, string)>)
    ensures r.Some? ==> |r.value.1| <= |s|
  {
    if s == [] || !IsDigit(s[0]) then Some((acc, s))
    else if strict && s[0] == '0' && acc == 0 then None
    else if acc > LIMIT then None
    else ScanNumber(s[1..], 10 * acc + Val(s[0]), strict)
  }

  function ScanPrecision(s: string): (r: Option<(int, string)>)
    ensures r.Some? ==> |r.value.1| <= |s|
  {
    var absent: int := -1;
    if s == [] || s[0] != '.' then Some((absent, s))
    else
      match ScanNumber(s[1..], 0, false)
      case None => None
      case Some((n, rest)) => Some((n as int, rest))
  }

  /** 0 when there is no vector specifier. */
  function ScanVector(s: string): (r: Option<(nat, string)>)
    ensures r.Some? ==> |r.value.1| <= |s|
  {
    if s == [] || s[0] != 'v' then Some((0, s))
    else
      match ScanNumber(s[1..], 0, true)
      case None => None
      case Some((n, rest)) => if IsVectorLength(n) then Some((n, rest)) else None
  }

  function ScanLength(s: string): (r: (nat, string))
    ensures |r.1| <= |s|
  {
    if s != [] && s[0] == 'h' then
      if |s| > 1 && s[1] == 'h' then (1, s[2..])
      else if |s| > 1 && s[1] == 'l' then (4, s[2..])
      else (2, s[1..])
    else if s != [] && s[0] == 'l' then (8, s[1..])
    else (0, s)
  }

  /** The text after the percent sign, up to and including the conversion specifier. */
  function ScanDirective(s: string): (r: Option<(Directive, string)>)
    ensures r.Some? ==> |r.value.1| < |s|
  {
    match ScanFlags(s, NO_FLAGS)
    case None => None
    case Some((flags, s1)) =>
      match ScanNumber(s1, 0, true)
      case None => None
      case Some((width, s2)) =>
        match ScanPrecision(s2)
        case None => None
        case Some((precision, s3)) =>
          match ScanVector(s3)
          case None => None
          case Some((vector, s4)) =>
            var (length, s5) := ScanLength(s4);
            if (vector > 0 && length == 0) || (vector == 0 && length == 4) || s5 == [] then None
            else Some((Directive(flags, width, precision, if vector == 0 then 1 else vector, length, s5[0]), s5[1..]))
  }

  /** Element types of the arguments. */
  datatype Element = Char | Short | Int | Long | Float | Double

  /** The output helpers. */
  datatype Helper = PrintInts(element: Element) | PrintFloats(element: Element) | PrintChar | PrintString | PrintPointer

  /** What the conversion switch does with a directive; `Undefined` is a case that the code declares
      unreachable. */
  datatype Effect = Prints(helper: Helper) | Rejects | Undefined

  /** The length switches of the integer and of the floating-point conversions. */
  function IntElement(length: nat): Option<Element> {
    match length
    case 1 => Some(Char)
    case 2 => Some(Short)
    case 0 => Some(Int)
    case 4 => Some(Int)
    case 8 => Some(Long)
    case _ => None
  }

  function FloatElement(length: nat): Option<Element> {
    match length
    case 0 => Some(Double)
    case 8 => Some(Double)
    case 4 => Some(Float)
    case _ => None
  }

  /** The switch that fetches an argument of `n` components. */
  predicate Fetchable(n: nat) { n in {1, 2, 3, 4, 8, 16} }

  function Convert(d: Directive): Effect {
    var plain := !d.flags.plus && !d.flags.space && !d.flags.alt && !d.flags.zero && d.vector == 1 && d.length == 0;
    if IsInteger(d.conv) then
      var element := IntElement(d.length);
      if element.None? || !Fetchable(d.vector) then Undefined else Prints(PrintInts(element.value))
    else if IsFloat(d.conv) then
      var element := FloatElement(d.length);
      if element.None? || !Fetchable(d.vector) then Undefined else Prints(PrintFloats(element.value))
    else if d.conv == 's' then if plain then Prints(PrintString) else Rejects
    else if d.conv == 'c' then if plain && d.precision == -1 then Prints(PrintChar) else Rejects
    else if d.conv == 'p' then if plain && d.precision == -1 then Prints(PrintPointer) else Rejects
    else Rejects
  }

  datatype Item = Literal(c: char) | Conversion(d: Directive)

  datatype Outcome = Done | FormatError | UndefinedBehaviour

  /** The whole format: what is printed before the end or the first error. */
  function ScanFormat(s: string): (r: (seq<Item>, Outcome))
    decreases |s|
  {
    if s == [] then ([], Done)
    else if s[0] != '%' then
      var (items, o) := ScanFormat(s[1..]);
      ([Literal(s[0])] + items, o)
    else if |s| > 1 && s[1] == '%' then
      var (items, o) := ScanFormat(s[2..]);
      ([Literal('%')] + items, o)
    else
      match ScanDirective(s[1..])
      case None => ([], FormatError)
      case Some((d, rest)) =>
        if Convert(d) == Rejects then ([], FormatError)
        else if Convert(d) == Undefined then ([], UndefinedBehaviour)
        else
          var (items, o) := ScanFormat(rest);
          ([Conversion(d)] + items, o)
  }

  // ----- Spelling

  function Digits(n: nat): string {
    var c := ('0' as int + n % 10) as char;
    if n < 10 then [c] else Digits(n / 10) + [c]
  }

  /** What the format "%.0d" prints: nothing for zero. */
  function Num(n: nat): string { if n == 0 then [] else Digits(n) }

  function FlagText(f: Flags): string {
    (if f.left then "-" else "") + (if f.plus then "+" else "") + (if f.space then " " else "") +
    (if f.alt then "#" else "") + (if f.zero then "0" else "")
  }

  function PrecisionText(precision: int): string { if precision < 0 then [] else "." + Num(precision) }

  function LengthText(length: nat): string {
    match length
    case 1 => "hh"
    case 2 => "h"
    case 4 => "hl"
    case 8 => "l"
    case _ => ""
  }

  /** A spelling of the directive in OpenCL. */
  function Spell(d: Directive): string {
    FlagText(d.flags) + Num(d.width) + PrecisionText(d.precision) +
    (if d.vector == 1 then "" else "v" + Digits(d.vector)) + LengthText(d.length) + [d.conv]
  }

  /** The length modifier that a helper writes. */
  function Modifier(h: Helper): string {
    match h
    case PrintInts(Char) => "hh"
    case PrintInts(Short) => "h"
    case PrintInts(Long) => "ll"
    case PrintFloats(Double) => "l"
    case _ => ""
  }

  /** The format that the helpers for integers and floating-point numbers build with snprintf. */
  function Render(d: Directive, modifier: string): string {
    "%" + FlagText(d.flags) + Num(d.width) + PrecisionText(d.precision) + modifier + [d.conv]
  }

  /** The C99 format that a helper builds. */
  function Build(h: Helper, d: Directive): string {
    var left := if d.flags.left then "-" else "";
    match h
    case PrintInts(_) => Render(d, Modifier(h))
    case PrintFloats(_) => Render(d, Modifier(h))
    case PrintChar => "%" + left + Num(d.width) + "c"
    case PrintString =>
      if d.precision < 0 then "%" + left + Num(d.width) + "s" else "%" + left + "." + Num(d.precision) + "s"
    case PrintPointer => "%" + left + Num(d.width) + "p"
  }

  // ----- C99 directives

  datatype C99 = C99(flags: Flags, width: nat, precision: int, modifier: string, conv: char)

  function C99Flags(s: string, f: Flags): (Flags, string) {
    if s == [] || !IsFlag(s[0]) then (f, s) else C99Flags(s[1..], WithFlag(f, s[0]))
  }

  function Number(s: string, acc: nat): (nat, string) {
    if s == [] || !IsDigit(s[0]) then (acc, s) else Number(s[1..], 10 * acc + Val(s[0]))
  }

  function C99Modifier(s: string): (string, string) {
    if s != [] && (s[0] == 'h' || s[0] == 'l') then
      if |s| > 1 && s[1] == s[0] then (s[..2], s[2..]) else (s[..1], s[1..])
    else if s != [] && s[0] in {'j', 'z', 't', 'L'} then (s[..1], s[1..])
    else ("", s)
  }

  /** A string that is one C99 conversion specification. */
  function C99Parse(s: string): Option<C99> {
    if s == [] || s[0] != '%' then None
    else
      var (flags, s1) := C99Flags(s[1..], NO_FLAGS);
      var (width, s2) := Number(s1, 0);
      var dot := s2 != [] && s2[0] == '.';
      var (precision, s3) := if dot then Number(s2[1..], 0) else (0, s2);
      var (modifier, s4) := C99Modifier(s3);
      if |s4| == 1 then Some(C99(flags, width, if dot then precision else -1, modifier, s4[0])) else None
  }

  // ----- Arguments of a C99 printf

  /** Types of variadic arguments, after the default argument promotions. */
  datatype CType = CInt | CLong | CLongLong | CDouble | CLongDouble | CWideChar | CString | CWideString | CPointer

  /** The argument that a conversion specification takes (section 7.19.6.1 of ISO C99); None where the
      standard leaves the combination undefined, and for the modifiers j, z and t. */
  function ArgumentType(c: C99): Option<CType> {
    if IsInteger(c.conv) then
      if c.modifier in {"", "h", "hh"} then Some(CInt)
      else if c.modifier == "l" then Some(CLong)
      else if c.modifier == "ll" then Some(CLongLong)
      else None
    else if IsFloat(c.conv) then
      if c.modifier in {"", "l"} then Some(CDouble) else if c.modifier == "L" then Some(CLongDouble) else None
    else if c.conv == 'c' then
      if c.modifier == "" then Some(CInt) else if c.modifier == "l" then Some(CWideChar) else None
    else if c.conv == 's' then
      if c.modifier == "" then Some(CString) else if c.modifier == "l" then Some(CWideString) else None
    else if c.conv == 'p' && c.modifier == "" then Some(CPointer)
    else None
  }

  /** The bytes to which an integer conversion converts its argument before printing; None for others. */
  function ConvertedSize(c: C99): Option<nat> {
    if !IsInteger(c.conv) then None
    else if c.modifier == "hh" then Some(1)
    else if c.modifier == "h" then Some(2)
    else if c.modifier == "ll" then Some(8)
    else Some(4)
  }
}
