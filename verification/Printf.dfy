/**
 The OpenCL printf routine: loops that advance an index into the format string, one argument index,
 and the output so far. Every read goes through `At`, whose precondition keeps it at or before the
 terminator.
 */
module Printf {
  import opened Wrappers
  import opened Sequences
  import opened FormatModel
  import FormatProofs

  /** The characters before the terminator of a C string. */
  predicate CString(s: string) { forall i :: 0 <= i < |s| ==> s[i] != '\0' }

  function At(s: string, i: nat): char
    requires i <= |s|
  {
    if i < |s| then s[i] else '\0'
  }

  /** Output: a literal character, or a component of an argument that a helper prints with a C99 format. */
  datatype Output = Plain(c: char) | Formatted(helper: Helper, format: string, arg: nat, component: nat)

  lemma Suffix(s: string, i: nat)
    requires i < |s|
    ensures s[i..] != [] && s[i..][0] == s[i] && s[i..][1..] == s[i + 1..]
  {
  }

  // ----- Scanning

  method ParseFlags(fmt: string, start: nat) returns (ok: bool, flags: Flags, i: nat)
    requires start <= |fmt|
    ensures start <= i <= |fmt|
    ensures ScanFlags(fmt[start..], NO_FLAGS) == if ok then Some((flags, fmt[i..])) else None
  {
    flags := NO_FLAGS;
    i := start;
    while IsFlag(At(fmt, i))
      invariant start <= i <= |fmt|
      invariant ScanFlags(fmt[start..], NO_FLAGS) == ScanFlags(fmt[i..], flags)
      decreases |fmt| - i
    {
      Suffix(fmt, i);
      if HasFlag(flags, fmt[i]) { return false, flags, i; }
      flags := WithFlag(flags, fmt[i]);
      i := i + 1;
    }
    ok := true;
  }

  /** The accumulator stays within a C int. */
  method ParseNumber(fmt: string, start: nat, strict: bool) returns (ok: bool, n: nat, i: nat)
    requires start <= |fmt|
    ensures start <= i <= |fmt| && n <= MAX_NUMBER <= INT_MAX
    ensures ScanNumber(fmt[start..], 0, strict) == if ok then Some((n, fmt[i..])) else None
  {
    n := 0;
    i := start;
    while IsDigit(At(fmt, i))
      invariant start <= i <= |fmt| && n <= MAX_NUMBER
      invariant ScanNumber(fmt[start..], 0, strict) == ScanNumber(fmt[i..], n, strict)
      decreases |fmt| - i
    {
      Suffix(fmt, i);
      if strict && fmt[i] == '0' && n == 0 { return false, n, i; }
      if n > LIMIT { return false, n, i; }
      n := 10 * n + Val(fmt[i]);
      i := i + 1;
    }
    ok := true;
  }

  method ParsePrecision(fmt: string, start: nat) returns (ok: bool, precision: int, i: nat)
    requires start <= |fmt|
    ensures start <= i <= |fmt| && -1 <= precision <= MAX_NUMBER
    ensures ScanPrecision(fmt[start..]) == if ok then Some((precision, fmt[i..])) else None
  {
    ok, precision, i := true, -1, start;
    if At(fmt, i) == '.' {
      Suffix(fmt, i);
      ok, precision, i := ParseNumber(fmt, i + 1, false);
    }
  }

  method ParseVector(fmt: string, start: nat) returns (ok: bool, vector: nat, i: nat)
    requires start <= |fmt|
    ensures start <= i <= |fmt|
    ensures ScanVector(fmt[start..]) == if ok then Some((vector, fmt[i..])) else None
  {
    ok, vector, i := true, 0, start;
    if At(fmt, i) == 'v' {
      Suffix(fmt, i);
      ok, vector, i := ParseNumber(fmt, i + 1, true);
      ok := ok && IsVectorLength(vector);
    }
  }

  method ParseLength(fmt: string, start: nat) returns (length: nat, i: nat)
    requires start <= |fmt|
    ensures start <= i <= |fmt|
    ensures ScanLength(fmt[start..]) == (length, fmt[i..])
  {
    length, i := 0, start;
    if At(fmt, i) == 'h' {
      Suffix(fmt, i);
      i := i + 1;
      if i < |fmt| { Suffix(fmt, i); }
      if At(fmt, i) == 'h' {
        length, i := 1, i + 1;
      } else if At(fmt, i) == 'l' {
        length, i := 4, i + 1;
      } else {
        length := 2;
      }
    } else if At(fmt, i) == 'l' {
      Suffix(fmt, i);
      length, i := 8, i + 1;
    }
  }

  method ParseDirective(fmt: string, start: nat) returns (ok: bool, d: Directive, i: nat)
    requires start <= |fmt|
    ensures start <= i <= |fmt|
    ensures ok ==> start < i
    ensures ScanDirective(fmt[start..]) == if ok then Some((d, fmt[i..])) else None
  {
    hide ScanFlags, ScanNumber, ScanPrecision, ScanVector, ScanLength;
    d := Directive(NO_FLAGS, 0, -1, 1, 0, 'd');
    var flags, width, precision, vector, length;
    ok, flags, i := ParseFlags(fmt, start);
    if !ok { return; }
    ok, width, i := ParseNumber(fmt, i, true);
    if !ok { return; }
    ok, precision, i := ParsePrecision(fmt, i);
    if !ok { return; }
    ok, vector, i := ParseVector(fmt, i);
    if !ok { return; }
    length, i := ParseLength(fmt, i);
    if (vector > 0 && length == 0) || (vector == 0 && length == 4) { return false, d, i; }
    if vector == 0 { vector := 1; }
    // The terminator is no conversion specifier.
    if i == |fmt| { return false, d, i; }
    Suffix(fmt, i);
    d := Directive(flags, width, precision, vector, length, fmt[i]);
    i := i + 1;
  }

  // ----- Printing

  /** The components of a vector, with commas between them. */
  function Components(h: Helper, format: string, arg: nat, n: nat): seq<Output> {
    seq(if n == 0 then 0 else 2 * n - 1,
        k requires 0 <= k => if k % 2 == 0 then Formatted(h, format, arg, k / 2) else Plain(','))
  }

  lemma ComponentsAt(h: Helper, format: string, arg: nat, n: nat)
    ensures var out := Components(h, format, arg, n);
      && |out| == (if n == 0 then 0 else 2 * n - 1)
      && (forall k :: 0 <= k < n ==> out[2 * k] == Formatted(h, format, arg, k))
      && (forall k :: 0 <= k < n - 1 ==> out[2 * k + 1] == Plain(','))
  {
    var out := Components(h, format, arg, n);
    forall k | 0 <= k < n ensures out[2 * k] == Formatted(h, format, arg, k) { assert (2 * k) % 2 == 0; }
    forall k | 0 <= k < n - 1 ensures out[2 * k + 1] == Plain(',') { assert (2 * k + 1) % 2 == 1; }
  }

  lemma ComponentsNext(h: Helper, format: string, arg: nat, d: nat)
    ensures Components(h, format, arg, d + 1) ==
      Components(h, format, arg, d) + (if d != 0 then [Plain(',')] else []) + [Formatted(h, format, arg, d)]
  {
    var longer := Components(h, format, arg, d + 1);
    assert longer[2 * d] == Formatted(h, format, arg, d);
    if d > 0 { assert longer[2 * d - 1] == Plain(','); }
  }

  method PrintVector(h: Helper, format: string, arg: nat, n: nat) returns (out: seq<Output>)
    ensures out == Components(h, format, arg, n)
    ensures |out| == if n == 0 then 0 else 2 * n - 1
    ensures forall k :: 0 <= k < n ==> out[2 * k] == Formatted(h, format, arg, k)
    ensures forall k :: 0 <= k < n - 1 ==> out[2 * k + 1] == Plain(',')
  {
    ComponentsAt(h, format, arg, n);
    assert Components(h, format, arg, 0) == [];
    hide Components;
    out := [];
    for d := 0 to n
      invariant out == Components(h, format, arg, d)
    {
      ComponentsNext(h, format, arg, d);
      if d != 0 { out := out + [Plain(',')]; }
      out := out + [Formatted(h, format, arg, d)];
    }
  }

  /** The output of a list of items, with arguments numbered from `arg`. */
  function Emit(items: seq<Item>, arg: nat): seq<Output> {
    if items == [] then []
    else
      match items[0]
      case Literal(c) => [Plain(c)] + Emit(items[1..], arg)
      case Conversion(d) => Printed(d, arg) + Emit(items[1..], arg + 1)
  }

  /** The output of a directive. */
  function Printed(d: Directive, arg: nat): seq<Output> {
    match Convert(d)
    case Prints(h) => Components(h, Build(h, d), arg, d.vector)
    case _ => []
  }

  /** The directives, in the order of the arguments they consume. */
  function Conversions(items: seq<Item>): seq<Directive> {
    if items == [] then []
    else
      match items[0]
      case Literal(_) => Conversions(items[1..])
      case Conversion(d) => [d] + Conversions(items[1..])
  }

  lemma PrintedBy(d: Directive, arg: nat)
    requires Convert(d).Prints?
    ensures Printed(d, arg) == Components(Convert(d).helper, Build(Convert(d).helper, d), arg, d.vector)
    ensures Emit([Conversion(d)], arg) == Printed(d, arg)
  {
    hide Convert, Components, Build;
    assert [Conversion(d)][1..] == [];
  }

  const ERROR_TEXT := "(printf format string error)"

  function Message(s: string): seq<Output> { seq(|s|, i requires 0 <= i < |s| => Plain(s[i])) }

  /** The items still to be scanned at index `i`, put after those already scanned. */
  ghost predicate Progress(fmt: string, i: nat, done: seq<Item>)
    requires i <= |fmt|
  {
    ScanFormat(fmt) == (done + ScanFormat(fmt[i..]).0, ScanFormat(fmt[i..]).1)
  }

  lemma ProgressItem(fmt: string, i: nat, done: seq<Item>, item: Item, j: nat)
    requires i <= j <= |fmt| && Progress(fmt, i, done)
    requires ScanFormat(fmt[i..]) == ([item] + ScanFormat(fmt[j..]).0, ScanFormat(fmt[j..]).1)
    ensures Progress(fmt, j, done + [item])
  {
    hide ScanFormat;
    assert done + ([item] + ScanFormat(fmt[j..]).0) == done + [item] + ScanFormat(fmt[j..]).0;
  }

  lemma EmitCons(item: Item, tail: seq<Item>, arg: nat)
    ensures Emit([item] + tail, arg) == Emit([item], arg) + Emit(tail, if item.Literal? then arg else arg + 1)
    ensures Conversions([item] + tail) == Conversions([item]) + Conversions(tail)
    ensures |Conversions([item])| == if item.Literal? then 0 else 1
  {
    hide Printed;
    var all := [item] + tail;
    assert all[0] == item && all[1..] == tail && [item][0] == item && [item][1..] == [];
  }

  lemma {:induction false} EmitSnoc(items: seq<Item>, item: Item, arg: nat)
    ensures Emit(items + [item], arg) == Emit(items, arg) + Emit([item], arg + |Conversions(items)|)
    ensures Conversions(items + [item]) == Conversions(items) + Conversions([item])
  {
    hide Printed;
    if items == [] {
      assert [] + [item] == [item];
      assert [] + Emit([item], arg) == Emit([item], arg);
    } else {
      var arg' := if items[0].Literal? then arg else arg + 1;
      var tail := items[1..];
      assert items == [items[0]] + tail;
      hide Emit, Conversions;
      EmitSnoc(tail, item, arg');
      Regroup([items[0]], tail, [item]);
      EmitCons(items[0], tail, arg);
      EmitCons(items[0], tail + [item], arg);
      Regroup(Emit([items[0]], arg), Emit(tail, arg'), Emit([item], arg + |Conversions(items)|));
      Regroup(Conversions([items[0]]), Conversions(tail), Conversions([item]));
    }
  }

  /** The output of one item: a literal character, or the components of an argument in order with a comma
      after each but the last. With `EmitSnoc` this fixes every position of the output. */
  lemma EmitOne(item: Item, arg: nat)
    ensures item.Literal? ==> Emit([item], arg) == [Plain(item.c)] && Conversions([item]) == []
    ensures item.Conversion? ==> Conversions([item]) == [item.d]
    ensures item.Conversion? && Convert(item.d).Prints? && item.d.vector > 0 ==>
      var h, out := Convert(item.d).helper, Emit([item], arg);
      && |out| == 2 * item.d.vector - 1
      && (forall k :: 0 <= k < item.d.vector ==> out[2 * k] == Formatted(h, Build(h, item.d), arg, k))
      && (forall k :: 0 <= k < item.d.vector - 1 ==> out[2 * k + 1] == Plain(','))
  {
    hide Build, Convert;
    assert [item][1..] == [];
    if item.Conversion? && Convert(item.d).Prints? && item.d.vector > 0 {
      PrintedBy(item.d, arg);
      ComponentsAt(Convert(item.d).helper, Build(Convert(item.d).helper, item.d), arg, item.d.vector);
    }
    hide Components, Printed;
  }

  /** The whole routine refines the grammar: it prints the items of the format string up to its end or
      its first error, and consumes one argument per directive. */
  method PrintFormat(fmt: string) returns (out: seq<Output>, args: nat, outcome: Outcome)
    requires CString(fmt)
    ensures outcome == ScanFormat(fmt).1 && args == |Conversions(ScanFormat(fmt).0)|
    ensures out == Emit(ScanFormat(fmt).0, 0) +
                   if outcome == FormatError then Message("(printf format string error)") else []
  {
    hide Build, Components, ScanDirective, Convert, Printed;
    var i := 0;
    ghost var done: seq<Item> := [];
    out, args, outcome := [], 0, Done;
    assert fmt[0..] == fmt && [] + ScanFormat(fmt).0 == ScanFormat(fmt).0;
    while At(fmt, i) != '\0'
      invariant i <= |fmt| && Progress(fmt, i, done)
      invariant out == Emit(done, 0) && args == |Conversions(done)|
      invariant outcome == Done
      decreases |fmt| - i
    {
      Suffix(fmt, i);
      ghost var from := i;
      ghost var item := Literal(fmt[i]);
      if fmt[i] != '%' {
        out := out + [Plain(fmt[i])];
        i := i + 1;
      } else if At(fmt, i + 1) == '%' {
        out := out + [Plain('%')];
        i := i + 2;
        Suffix(fmt, from + 1);
        assert fmt[from..][2..] == fmt[i..];
      } else {
        var ok, d, j := ParseDirective(fmt, i + 1);
        if i + 1 < |fmt| { Suffix(fmt, i + 1); }
        if !ok || Convert(d) == Rejects {
          assert ScanFormat(fmt[i..]) == ([], FormatError);
          assert done + [] == done;
          return out + Message(ERROR_TEXT), args, FormatError;
        }
        if Convert(d) == Undefined {
          assert ScanFormat(fmt[i..]) == ([], UndefinedBehaviour);
          assert done + [] == done;
          return out, args, UndefinedBehaviour;
        }
        var text := PrintVector(Convert(d).helper, Build(Convert(d).helper, d), args, d.vector);
        PrintedBy(d, args);
        out := out + text;
        args := args + 1;
        i := j;
        item := Conversion(d);
      }
      ProgressItem(fmt, from, done, item, i);
      EmitSnoc(done, item, 0);
      done := done + [item];
    }
    assert fmt[i..] == [];
    assert done + [] == done;
  }

  // ----- What is printed

  /** A directive that came out of the scanner. */
  ghost predicate Scanned(d: Directive) {
    Convert(d).Prints? && exists s :: ScanDirective(s).Some? && ScanDirective(s).value.0 == d
  }

  lemma {:induction false} ConversionsScanned(s: string)
    ensures forall d :: d in Conversions(ScanFormat(s).0) ==> Scanned(d)
    decreases |s|
  {
    hide Convert, ScanDirective;
    if s == [] {
    } else if s[0] != '%' {
      LiteralAdds(s[0], ScanFormat(s[1..]).0);
      ConversionsScanned(s[1..]);
    } else if |s| > 1 && s[1] == '%' {
      LiteralAdds('%', ScanFormat(s[2..]).0);
      ConversionsScanned(s[2..]);
    } else if ScanDirective(s[1..]).Some? {
      var (d, rest) := ScanDirective(s[1..]).value;
      if Convert(d).Prints? {
        ConversionsScanned(rest);
        assert ([Conversion(d)] + ScanFormat(rest).0)[1..] == ScanFormat(rest).0;
      }
    }
  }

  lemma LiteralAdds(c: char, items: seq<Item>)
    ensures Conversions([Literal(c)] + items) == Conversions(items)
  {
    assert ([Literal(c)] + items)[1..] == items;
  }

  /** Component `k` of the argument of `d` is printed by helper `h` with format `f`. */
  predicate Prescribed(d: Directive, h: Helper, f: string, k: nat) {
    Convert(d) == Prints(h) && f == Build(h, d) && k < d.vector
  }

  lemma {:induction false} EmitExact(items: seq<Item>, arg: nat, h: Helper, f: string, a: nat, k: nat)
    ensures Formatted(h, f, a, k) in Emit(items, arg) <==>
            var ds := Conversions(items);
            arg <= a < arg + |ds| && Prescribed(ds[a - arg], h, f, k)
  {
    hide Prescribed, Printed;
    if items != [] {
      match items[0]
      case Literal(c) =>
        EmitExact(items[1..], arg, h, f, a, k);
      case Conversion(d) =>
        EmitExact(items[1..], arg + 1, h, f, a, k);
        PrintedComponents(d, arg, h, f, a, k);
    }
  }

  lemma PrintedComponents(d: Directive, arg: nat, h: Helper, f: string, a: nat, k: nat)
    ensures Formatted(h, f, a, k) in Printed(d, arg) <==> a == arg && Prescribed(d, h, f, k)
  {
    hide Build, Convert;
    if a == arg && Prescribed(d, h, f, k) {
      assert Components(h, f, arg, d.vector)[2 * k] == Formatted(h, f, a, k);
    }
  }

  /** The routine prints component k of argument a with helper h and format f exactly when the a-th
      directive prescribes it. The helper reads elements of the size that the directive asks for, and
      the format fits its buffer and takes the promoted type that the helper passes. */
  lemma PrintedExactly(fmt: string, h: Helper, f: string, a: nat, k: nat)
    ensures var (items, _) := ScanFormat(fmt);
      var ds := Conversions(items);
      && (Formatted(h, f, a, k) in Emit(items, 0) <==> a < |ds| && Prescribed(ds[a], h, f, k))
      && (a < |ds| && Prescribed(ds[a], h, f, k) ==>
            FormatProofs.WellFormed(ds[a]) && FormatProofs.ReadsAsked(h, ds[a]) && FormatProofs.Suits(h, f))
  {
    hide FormatProofs.Suits, FormatProofs.ReadsAsked, FormatProofs.WellFormed;
    hide Build, ScanFormat, ScanDirective, Convert;
    var (items, _) := ScanFormat(fmt);
    EmitExact(items, 0, h, f, a, k);
    ConversionsScanned(fmt);
    var ds := Conversions(items);
    if a < |ds| && Prescribed(ds[a], h, f, k) {
      assert Scanned(ds[a]);
      var s :| ScanDirective(s).Some? && ScanDirective(s).value.0 == ds[a];
      FormatProofs.DirectiveSound(s);
      FormatProofs.BuildRoundTrip(s);
    }
  }

  /** A scanned directive reaches one of the cases declared unreachable if and only if it is a
      floating-point one with length h or hh; the other lengths and all vector sizes are handled. */
  lemma UndefinedExactly(s: string)
    requires ScanDirective(s).Some?
    ensures var d := ScanDirective(s).value.0;
      Convert(d) == Undefined <==> IsFloat(d.conv) && LengthText(d.length) in {"h", "hh"}
  {
    FormatProofs.DirectiveSound(s);
    hide ScanDirective;
    var d := ScanDirective(s).value.0;
    assert IsFloat(d.conv) ==> !IsInteger(d.conv);
    assert |LengthText(d.length)| == 1 && LengthText(d.length)[0] == 'h' ==> d.length == 2;
  }
}
