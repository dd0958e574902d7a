/**
 * The textual command envelope spoken between the ARX client and its
 * control unit: `<code>[,<arg1>[|<arg2>]];`.
 *
 * `Unpack` turns a command or response string into a code and an optional
 * argument list, `BuildResp` is the control unit's response builder and
 * `MakeCmd` the client's command builder; the lemmas at the end prove that
 * `Unpack` inverts both.
 */
module Codec {
  import opened Wrappers

  const EndCommand: char := ';'
  const Separator: char := ','
  const ArgSeparator: char := '|'

  /** One entry of an argument block: `int()` accepted the text, or the text is kept as it was. */
  datatype Arg = Num(n: int) | Text(s: string)

  /** A decoded envelope: the command (or response) code and the argument block, if any. */
  datatype Message = Message(code: int, args: Option<seq<Arg>>)

  /** `int()` rejected the code field: Python raises ValueError out of `unpack`. */
  datatype ParseError = BadCode(field: string)

  // ---------------------------------------------------------------------------
  // str.strip

  /** Drops every leading character that is in `cs`. */
  function TrimLeft(s: string, cs: set<char>): (r: string)
    ensures |r| <= |s|
  {
    if s != [] && s[0] in cs then TrimLeft(s[1..], cs) else s
  }

  /** Drops every trailing character that is in `cs`. */
  function TrimRight(s: string, cs: set<char>): (r: string)
    ensures |r| <= |s|
  {
    if s != [] && s[|s| - 1] in cs then TrimRight(s[..|s| - 1], cs) else s
  }

  /** Python's `s.strip(chars)`: the longest infix of `s` that neither starts nor ends with one of `cs`, obtained by removing only those. */
  function Strip(s: string, cs: set<char>): (r: string)
    ensures |r| <= |s|
    ensures r == [] || (r[0] !in cs && r[|r| - 1] !in cs)
    ensures forall ch :: ch in r ==> ch in s
  {
    TrimLeftRemovesOnly(s, cs);
    TrimRightRemovesOnly(TrimLeft(s, cs), cs);
    TrimRight(TrimLeft(s, cs), cs)
  }

  /** `TrimLeft` removes a run of characters of `cs` from the front, and stops at the first other character. */
  lemma {:induction false} TrimLeftRemovesOnly(s: string, cs: set<char>)
    ensures var r := TrimLeft(s, cs);
      r == s[|s| - |r|..] && (r == [] || r[0] !in cs)
      && forall k :: 0 <= k < |s| - |r| ==> s[k] in cs
    decreases |s|
  {
    if s != [] && s[0] in cs {
      TrimLeftRemovesOnly(s[1..], cs);
    }
  }

  /** `TrimRight` removes a run of characters of `cs` from the back, and stops at the last other character. */
  lemma {:induction false} TrimRightRemovesOnly(s: string, cs: set<char>)
    ensures var r := TrimRight(s, cs);
      r == s[..|r|] && (r == [] || r[|r| - 1] !in cs)
      && forall k :: |r| <= k < |s| ==> s[k] in cs
    decreases |s|
  {
    if s != [] && s[|s| - 1] in cs {
      TrimRightRemovesOnly(s[..|s| - 1], cs);
    }
  }

  /** A string that neither starts nor ends with one of `cs` is left alone by `Strip`. */
  lemma StripUnpadded(s: string, cs: set<char>)
    requires s == [] || (s[0] !in cs && s[|s| - 1] !in cs)
    ensures Strip(s, cs) == s
  {
  }

  /** Stripping removes a leading run of characters of `cs`, up to the first other character. */
  lemma {:induction false} TrimLeftPadding(pad: string, s: string, cs: set<char>)
    requires forall k :: 0 <= k < |pad| ==> pad[k] in cs
    requires s != [] && s[0] !in cs
    ensures TrimLeft(pad + s, cs) == s
    decreases |pad|
  {
    if pad == [] {
      assert pad + s == s;
    } else {
      assert (pad + s)[1..] == pad[1..] + s;
      TrimLeftPadding(pad[1..], s, cs);
    }
  }

  /** Stripping removes a trailing run of characters of `cs`, back to the last other character. */
  lemma {:induction false} TrimRightPadding(s: string, pad: string, cs: set<char>)
    requires forall k :: 0 <= k < |pad| ==> pad[k] in cs
    requires s != [] && s[|s| - 1] !in cs
    ensures TrimRight(s + pad, cs) == s
    decreases |pad|
  {
    if pad == [] {
      assert s + pad == s;
    } else {
      var t := s + pad;
      assert t[..|t| - 1] == s + pad[..|pad| - 1];
      TrimRightPadding(s, pad[..|pad| - 1], cs);
    }
  }

  /** `Strip` removes exactly the padding of characters of `cs` on both sides of a string that has none of its own. */
  lemma StripPadding(pre: string, s: string, post: string, cs: set<char>)
    requires forall k :: 0 <= k < |pre| ==> pre[k] in cs
    requires forall k :: 0 <= k < |post| ==> post[k] in cs
    requires s != [] && s[0] !in cs && s[|s| - 1] !in cs
    ensures Strip(pre + s + post, cs) == s
  {
    assert pre + s + post == pre + (s + post);
    TrimLeftPadding(pre, s + post, cs);
    TrimRightPadding(s, post, cs);
  }

  /** Neither starts nor ends with the terminator. */
  predicate Unterminated(s: string)
  {
    s == [] || (s[0] != EndCommand && s[|s| - 1] != EndCommand)
  }

  /** One terminator after an unterminated string is all that stripping removes. */
  lemma StripTerminated(s: string)
    requires Unterminated(s)
    ensures Strip(s + [EndCommand], {EndCommand}) == s
  {
    var t := s + [EndCommand];
    if s == [] {
      assert TrimLeft(t, {EndCommand}) == [];
    } else {
      assert TrimLeft(t, {EndCommand}) == t;
      assert t[..|t| - 1] == s;
      assert TrimRight(s, {EndCommand}) == s;
    }
  }

  // ---------------------------------------------------------------------------
  // str.split and str.join with one separator

  /** `c.join(parts)`. */
  function Join(parts: seq<string>, c: char): (s: string)
    requires |parts| >= 1
  {
    if |parts| == 1 then parts[0] else parts[0] + [c] + Join(parts[1..], c)
  }

  /** Python's `s.split(c)`: the maximal `c`-free pieces of `s`, in order, empty pieces included. */
  function Split(s: string, c: char): (parts: seq<string>)
    ensures |parts| >= 1
    ensures forall p :: p in parts ==> c !in p
    ensures Join(parts, c) == s
  {
    if s == [] then [[]]
    else
      var rest := Split(s[1..], c);
      if s[0] == c then [[]] + rest
      else
        var parts := [[s[0]] + rest[0]] + rest[1..];
        assert parts[1..] == rest[1..];
        parts
  }

  lemma {:induction false} SplitPrefix(a: string, t: string, c: char)
    requires c !in a
    ensures Split(a + t, c) == [a + Split(t, c)[0]] + Split(t, c)[1..]
    decreases |a|
  {
    if a != [] {
      assert (a + t)[1..] == a[1..] + t;
      SplitPrefix(a[1..], t, c);
      var rest := Split(a[1..] + t, c);
      assert (a + t)[0] == a[0] != c;
      assert rest[0] == a[1..] + Split(t, c)[0];
      assert rest[1..] == Split(t, c)[1..];
      assert Split(a + t, c) == [[a[0]] + rest[0]] + rest[1..];
      assert [a[0]] + (a[1..] + Split(t, c)[0]) == a + Split(t, c)[0];
    } else {
      assert a + t == t;
      assert a + Split(t, c)[0] == Split(t, c)[0];
      assert Split(t, c) == [Split(t, c)[0]] + Split(t, c)[1..];
    }
  }

  /** Splitting a join of separator-free pieces gives the pieces back: with `Split`'s own contract, `Split` and `Join` are inverse bijections. */
  lemma {:induction false} SplitJoin(parts: seq<string>, c: char)
    requires |parts| >= 1
    requires forall p :: p in parts ==> c !in p
    ensures Split(Join(parts, c), c) == parts
    decreases |parts|
  {
    if |parts| == 1 {
      SplitPrefix(parts[0], [], c);
      assert parts[0] + [] == parts[0];
    } else {
      var tail := Join(parts[1..], c);
      assert Join(parts, c) == parts[0] + ([c] + tail);
      SplitPrefix(parts[0], [c] + tail, c);
      assert ([c] + tail)[1..] == tail;
      assert Split([c] + tail, c) == [[]] + Split(tail, c);
      SplitJoin(parts[1..], c);
      assert parts[0] + [] == parts[0];
      assert parts == [parts[0]] + parts[1..];
    }
  }

  // ---------------------------------------------------------------------------
  // int() and str() on decimal integers

  predicate IsDigit(ch: char)
  {
    '0' <= ch <= '9'
  }

  predicate AllDigits(s: string)
  {
    forall k :: 0 <= k < |s| ==> IsDigit(s[k])
  }

  function DigitChar(d: nat): (ch: char)
    requires d < 10
    ensures IsDigit(ch)
  {
    ('0' as int + d) as char
  }

  function DigitValue(ch: char): (d: nat)
    requires IsDigit(ch)
    ensures d < 10 && DigitChar(d) == ch
  {
    (ch as int - '0' as int) as nat
  }

  /** The value of a string of decimal digits (leading zeros allowed, as `int()` allows them). */
  function ParseNat(s: string): nat
    requires AllDigits(s)
  {
    if s == [] then 0 else ParseNat(s[..|s| - 1]) * 10 + DigitValue(s[|s| - 1])
  }

  /** The literal `int()` accepts once whitespace is stripped: an optional sign followed by at least one decimal digit. */
  predicate IsIntLiteral(s: string)
  {
    if |s| > 0 && (s[0] == '-' || s[0] == '+') then |s| > 1 && AllDigits(s[1..])
    else |s| > 0 && AllDigits(s)
  }

  /** The value of an integer literal; `None` for anything else. */
  function ParseLiteral(s: string): (r: Option<int>)
    ensures r.Some? <==> IsIntLiteral(s)
  {
    if |s| > 1 && (s[0] == '-' || s[0] == '+') && AllDigits(s[1..]) then
      var magnitude: int := ParseNat(s[1..]);
      Some(if s[0] == '-' then -magnitude else magnitude)
    else if |s| > 0 && AllDigits(s) then
      Some(ParseNat(s))
    else
      None
  }

  /** The ASCII characters `str.isspace` accepts, which `int()` ignores around its argument. */
  const Whitespace: set<char> :=
    {' ', '\t', '\n', '\r', 11 as char, 12 as char, 28 as char, 29 as char, 30 as char, 31 as char}

  /** Python's `int(s)` on a string: `None` where Python raises ValueError. */
  function ParseInt(s: string): (r: Option<int>)
    ensures r.Some? <==> IsIntLiteral(Strip(s, Whitespace))
  {
    ParseLiteral(Strip(s, Whitespace))
  }

  function NatToString(n: nat): (s: string)
    ensures |s| > 0 && AllDigits(s)
  {
    if n < 10 then [DigitChar(n)] else NatToString(n / 10) + [DigitChar(n % 10)]
  }

  /** Python's `str(n)` on an integer. */
  function IntToString(n: int): (s: string)
    ensures IsIntLiteral(s)
    ensures Separator !in s && ArgSeparator !in s && EndCommand !in s
  {
    var s := if n < 0 then "-" + NatToString(-n) else NatToString(n);
    assert forall k :: 0 <= k < |s| ==> IsDigit(s[k]) || s[k] == '-';
    s
  }

  lemma {:induction false} ParseNatToString(n: nat)
    ensures ParseNat(NatToString(n)) == n
  {
    if n >= 10 {
      var s := NatToString(n);
      ParseNatToString(n / 10);
      assert s[..|s| - 1] == NatToString(n / 10);
    }
  }

  /** `str(n)` starts with a digit or a minus sign and ends with a digit, so it carries no whitespace to strip. */
  lemma IntToStringUnpadded(n: int)
    ensures var t := IntToString(n);
      t[0] !in Whitespace && t[|t| - 1] !in Whitespace && Strip(t, Whitespace) == t
  {
    var t := IntToString(n);
    assert IsDigit(t[|t| - 1]) && (IsDigit(t[0]) || t[0] == '-');
    StripUnpadded(t, Whitespace);
  }

  lemma ParseLiteralToString(n: int)
    ensures ParseLiteral(IntToString(n)) == Some(n)
  {
    if n < 0 {
      assert IntToString(n) == "-" + NatToString(-n);
      ParseNegativeLiteral(NatToString(-n));
      ParseNatToString(-n);
    } else {
      assert IntToString(n) == NatToString(n);
      ParseDigitsLiteral(NatToString(n));
      ParseNatToString(n);
    }
  }

  lemma ParseNegativeLiteral(m: string)
    requires |m| > 0 && AllDigits(m)
    ensures ParseLiteral("-" + m) == Some(-(ParseNat(m) as int))
  {
    var s := "-" + m;
    assert s[0] == '-' && |s| > 1;
    assert s[1..] == m;
    var magnitude: int := ParseNat(m);
    assert ParseNat(s[1..]) == magnitude;
    assert ParseLiteral(s) == Some(-magnitude);
  }

  lemma ParseDigitsLiteral(m: string)
    requires |m| > 0 && AllDigits(m)
    ensures ParseLiteral(m) == Some(ParseNat(m))
  {
    assert IsDigit(m[0]);
  }

  /** `int(str(n)) == n`. */
  lemma ParseIntToString(n: int)
    ensures ParseInt(IntToString(n)) == Some(n)
  {
    IntToStringUnpadded(n);
    ParseLiteralToString(n);
  }

  /** `int()` ignores whitespace around the digits: `int(" 5\n") == 5`. */
  lemma ParseIntPadded(pre: string, n: int, post: string)
    requires forall k :: 0 <= k < |pre| ==> pre[k] in Whitespace
    requires forall k :: 0 <= k < |post| ==> post[k] in Whitespace
    ensures ParseInt(pre + IntToString(n) + post) == Some(n)
  {
    IntToStringUnpadded(n);
    StripPadding(pre, IntToString(n), post, Whitespace);
    ParseLiteralToString(n);
  }

  /** Whitespace inside the literal is not ignored: `int("1 2")` raises. */
  lemma ParseIntInnerSpace()
    ensures ParseInt("1 2") == None
  {
    assert Strip("1 2", Whitespace) == "1 2";
    assert !IsDigit("1 2"[1]);
  }

  // ---------------------------------------------------------------------------
  // unpack

  /** The conversion attempted on each argument: a number when `int()` accepts it, the text unchanged otherwise. */
  function ToArg(t: string): Arg
  {
    match ParseInt(t)
    case Some(n) => Num(n)
    case None => Text(t)
  }

  /** The argument-conversion loop: every argument is converted in place, in order. */
  function ToArgs(ts: seq<string>): (args: seq<Arg>)
    ensures |args| == |ts|
    ensures forall k :: 0 <= k < |ts| ==> args[k] == ToArg(ts[k])
  {
    if ts == [] then [] else [ToArg(ts[0])] + ToArgs(ts[1..])
  }

  /** `unpack(inputstring)`: strip the terminators, split off the code at the first `,`, parse it, and split the second field into arguments. */
  function Unpack(s: string): (r: Result<Message, ParseError>)
    ensures r.Err? ==> ParseInt(r.error.field).None? && Separator !in r.error.field
    ensures r.Ok? && r.value.args.Some? ==>
      |r.value.args.value| >= 1
      && forall a :: a in r.value.args.value && a.Text? ==> ParseInt(a.s).None? && ArgSeparator !in a.s
  {
    var fields := Split(Strip(s, {EndCommand}), Separator);
    match ParseInt(fields[0])
    case None => Err(BadCode(fields[0]))
    case Some(code) =>
      Ok(Message(code, if |fields| == 1 then None else Some(ToArgs(Split(fields[1], ArgSeparator)))))
  }

  /** A string without `,`: the code is its integer value, and there is no argument block. */
  lemma UnpackBare(codeText: string)
    requires Separator !in codeText && Unterminated(codeText)
    ensures Unpack(codeText + [EndCommand]) ==
      match ParseInt(codeText)
      case None => Err(BadCode(codeText))
      case Some(code) => Ok(Message(code, None))
  {
    StripTerminated(codeText);
    SplitJoin([codeText], Separator);
  }

  /**
   * A string with a `,`: the code is the field before it, the arguments are the
   * `|`-separated pieces of the next field, converted one by one in order, and
   * any further fields are ignored.
   */
  lemma UnpackWithArgs(codeText: string, argTexts: seq<string>, more: seq<string>)
    requires |argTexts| >= 1
    requires Separator !in codeText
    requires forall t :: t in argTexts ==> Separator !in t && ArgSeparator !in t
    requires forall t :: t in more ==> Separator !in t
    requires Unterminated(Join([codeText, Join(argTexts, ArgSeparator)] + more, Separator))
    ensures Unpack(Join([codeText, Join(argTexts, ArgSeparator)] + more, Separator) + [EndCommand]) ==
      match ParseInt(codeText)
      case None => Err(BadCode(codeText))
      case Some(code) => Ok(Message(code, Some(ToArgs(argTexts))))
  {
    var block := Join(argTexts, ArgSeparator);
    var fields := [codeText, block] + more;
    NoSeparatorInJoin(argTexts, ArgSeparator, Separator);
    StripTerminated(Join(fields, Separator));
    SplitJoin(fields, Separator);
    SplitJoin(argTexts, ArgSeparator);
  }

  lemma {:induction false} NoSeparatorInJoin(parts: seq<string>, c: char, d: char)
    requires |parts| >= 1 && c != d
    requires forall p :: p in parts ==> d !in p
    ensures d !in Join(parts, c)
    decreases |parts|
  {
    if |parts| > 1 {
      NoSeparatorInJoin(parts[1..], c, d);
    }
  }

  /** `<code>,<a1>|...|<ak>;`: the code and the converted arguments, in order. */
  lemma UnpackCodeAndBlock(codeText: string, argTexts: seq<string>)
    requires |argTexts| >= 1
    requires Separator !in codeText && EndCommand !in codeText
    requires forall t :: t in argTexts ==> Separator !in t && ArgSeparator !in t && EndCommand !in t
    ensures Unpack(codeText + [Separator] + Join(argTexts, ArgSeparator) + [EndCommand]) ==
      match ParseInt(codeText)
      case None => Err(BadCode(codeText))
      case Some(code) => Ok(Message(code, Some(ToArgs(argTexts))))
  {
    var block := Join(argTexts, ArgSeparator);
    NoSeparatorInJoin(argTexts, ArgSeparator, EndCommand);
    var fields := [codeText, block] + [];
    assert fields[1..] == [block];
    assert Join(fields, Separator) == codeText + [Separator] + block;
    assert EndCommand !in Join(fields, Separator);
    UnpackWithArgs(codeText, argTexts, []);
  }

  // ---------------------------------------------------------------------------
  // response and command builders

  function ArgToString(a: Arg): string
  {
    match a
    case Num(n) => IntToString(n)
    case Text(s) => s
  }

  /** `resp_str or resp_str is 0`: any integer (0 included) and any non-empty text is attached. */
  predicate Attached(v: Option<Arg>)
  {
    v.Some? && (v.value.Num? || v.value.s != [])
  }

  /** The control unit's `_build_resp(code, resp_str)`. */
  function BuildResp(code: int, v: Option<Arg>): (r: string)
    ensures Attached(v) <==> Separator in r
  {
    IntToString(code) + (if Attached(v) then [Separator] + ArgToString(v.value) else []) + [EndCommand]
  }

  /** A command with the arity the envelope allows: at most two integer arguments. */
  datatype RawRequest = Request(code: int, args: seq<int>)

  type Request = r: RawRequest | |r.args| <= 2 witness Request(0, [])

  function IntsToStrings(ns: seq<int>): (ts: seq<string>)
    ensures |ts| == |ns|
    ensures forall k :: 0 <= k < |ns| ==> ts[k] == IntToString(ns[k])
  {
    if ns == [] then [] else [IntToString(ns[0])] + IntsToStrings(ns[1..])
  }

  function Nums(ns: seq<int>): (args: seq<Arg>)
    ensures |args| == |ns|
    ensures forall k :: 0 <= k < |ns| ==> args[k] == Num(ns[k])
  {
    if ns == [] then [] else [Num(ns[0])] + Nums(ns[1..])
  }

  /** The client's command string: `<code>;` without arguments, `<code>,<a1>[|<a2>];` with them. */
  function MakeCmd(req: Request): (r: string)
    ensures |r| > 0 && r[|r| - 1] == EndCommand && EndCommand !in r[..|r| - 1]
    ensures Separator in r <==> req.args != []
  {
    var block := if |req.args| > 0 then [Separator] + Join(IntsToStrings(req.args), ArgSeparator) else [];
    ArgBlockClean(req.args);
    MakeCmdShape(IntToString(req.code), block);
    IntToString(req.code) + block + [EndCommand]
  }

  /** The argument block of a command: empty without arguments, otherwise a `,` and a `|`-joined list free of `,` and `;`. */
  lemma ArgBlockClean(ns: seq<int>)
    ensures var block := if |ns| > 0 then [Separator] + Join(IntsToStrings(ns), ArgSeparator) else [];
      EndCommand !in block && (Separator in block <==> ns != [])
  {
    if |ns| > 0 {
      var ts := IntsToStrings(ns);
      NoSeparatorInJoin(ts, ArgSeparator, Separator);
      NoSeparatorInJoin(ts, ArgSeparator, EndCommand);
      assert ([Separator] + Join(ts, ArgSeparator))[0] == Separator;
    }
  }

  lemma MakeCmdShape(c: string, block: string)
    requires EndCommand !in c && EndCommand !in block && Separator !in c
    ensures var r := c + block + [EndCommand];
      r[|r| - 1] == EndCommand && EndCommand !in r[..|r| - 1] && (Separator in r <==> Separator in block)
  {
    var r := c + block + [EndCommand];
    assert r[..|r| - 1] == c + block;
    if Separator in block {
      var k :| 0 <= k < |block| && block[k] == Separator;
      assert r[|c| + k] == Separator;
    }
  }

  // ---------------------------------------------------------------------------
  // round trips

  lemma ToArgsOfInts(ns: seq<int>)
    ensures ToArgs(IntsToStrings(ns)) == Nums(ns)
  {
    forall k | 0 <= k < |ns|
      ensures ToArgs(IntsToStrings(ns))[k] == Nums(ns)[k]
    {
      ParseIntToString(ns[k]);
    }
  }

  /** `unpack(_build_resp(c))` is `(c, None)`. */
  lemma UnpackBuildRespNone(code: int)
    ensures Unpack(BuildResp(code, None)) == Ok(Message(code, None))
  {
    assert BuildResp(code, None) == IntToString(code) + [EndCommand];
    UnpackBare(IntToString(code));
    ParseIntToString(code);
  }

  /** `unpack(_build_resp(c, n))` is `(c, [n])` for every integer `n`, zero included. */
  lemma UnpackBuildRespNum(code: int, n: int)
    ensures Unpack(BuildResp(code, Some(Num(n)))) == Ok(Message(code, Some([Num(n)])))
  {
    var c, t := IntToString(code), IntToString(n);
    BuildRespNum(code, n);
    assert Join([t], ArgSeparator) == t;
    ParseIntToString(code);
    ParseIntToString(n);
    assert ToArgs([t]) == [Num(n)];
    UnpackCodeAndBlock(c, [t]);
  }

  lemma BuildRespNum(code: int, n: int)
    ensures BuildResp(code, Some(Num(n))) == IntToString(code) + [Separator] + IntToString(n) + [EndCommand]
  {
    assert Attached(Some(Num(n))) && ArgToString(Num(n)) == IntToString(n);
  }

  /** The control unit decodes every client command back to its code and integer arguments. */
  lemma UnpackMakeCmd(req: Request)
    ensures Unpack(MakeCmd(req)) ==
      Ok(Message(req.code, if req.args == [] then None else Some(Nums(req.args))))
  {
    if req.args == [] {
      UnpackBareCmd(req);
    } else {
      UnpackCmdWithArgs(req);
    }
  }

  lemma UnpackBareCmd(req: Request)
    requires req.args == []
    ensures Unpack(MakeCmd(req)) == Ok(Message(req.code, None))
  {
    var c := IntToString(req.code);
    ParseIntToString(req.code);
    assert MakeCmd(req) == c + [EndCommand];
    UnpackBare(c);
  }

  lemma UnpackCmdWithArgs(req: Request)
    requires req.args != []
    ensures Unpack(MakeCmd(req)) == Ok(Message(req.code, Some(Nums(req.args))))
  {
    var c := IntToString(req.code);
    ParseIntToString(req.code);
    var ts := IntsToStrings(req.args);
    assert MakeCmd(req) == c + [Separator] + Join(ts, ArgSeparator) + [EndCommand];
    UnpackCodeAndBlock(c, ts);
    ToArgsOfInts(req.args);
  }
}
