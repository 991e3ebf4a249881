/** Parsing a step sequence and decoding send payloads (pkg/module/serial/step.go). */
module Steps {
  import opened Base
  import Engine

  const BACKSLASH: Byte := 0x5c
  const LETTER_R: Byte := 0x72
  const LETTER_N: Byte := 0x6e
  const LETTER_T: Byte := 0x74
  const LETTER_X: Byte := 0x78

  // ------------------------------------------------------- the escape grammar

  /** One unit of a payload as the user wrote it: a byte, a backslash and a letter, or "\x" and two hex digits. */
  datatype Unit = Raw(b: Byte) | Short(letter: Byte) | Hex(hi: Byte, lo: Byte)

  predicate IsHexDigit(b: Byte) { 0x30 <= b <= 0x39 || 0x41 <= b <= 0x46 || 0x61 <= b <= 0x66 }

  function HexValue(b: Byte): (v: int)
    requires IsHexDigit(b)
    ensures 0 <= v < 16
  {
    if b <= 0x39 then b as int - 0x30 else if b <= 0x46 then b as int - 0x41 + 10 else b as int - 0x61 + 10
  }

  predicate IsUnit(u: Unit)
  {
    match u
    case Raw(b) => b != BACKSLASH
    case Short(l) => l == LETTER_R || l == LETTER_N || l == LETTER_T || l == BACKSLASH
    case Hex(hi, lo) => IsHexDigit(hi) && IsHexDigit(lo)
  }

  function Source(u: Unit): (r: Data)
  {
    match u
    case Raw(b) => [b]
    case Short(l) => [BACKSLASH, l]
    case Hex(hi, lo) => [BACKSLASH, LETTER_X, hi, lo]
  }

  function Value(u: Unit): (b: Byte)
    requires IsUnit(u)
  {
    match u
    case Raw(b) => b
    case Short(l) =>
      if l == LETTER_R then 0x0d else if l == LETTER_N then 0x0a else if l == LETTER_T then 0x09 else BACKSLASH
    case Hex(hi, lo) => (16 * HexValue(hi) + HexValue(lo)) as Byte
  }

  predicate AreUnits(us: seq<Unit>) { forall i :: 0 <= i < |us| ==> IsUnit(us[i]) }

  function Sources(us: seq<Unit>): (r: Data)
  {
    if us == [] then [] else Source(us[0]) + Sources(us[1..])
  }

  function Values(us: seq<Unit>): (r: Data)
    requires AreUnits(us)
    ensures |r| == |us|
  {
    if us == [] then [] else [Value(us[0])] + Values(us[1..])
  }

  // ------------------------------------------------------------------ decoding

  datatype DecodeError = TrailingBackslash | ShortHex | BadHex | UnknownEscape

  datatype Decoded = Bytes(data: Data) | Invalid(error: DecodeError)

  /** The unit at the front of a text, or why there is none. */
  datatype Front = Unit(u: Unit) | NoUnit(error: DecodeError)

  function FirstUnit(s: Data): (f: Front)
    requires s != []
    ensures f.Unit? ==> IsUnit(f.u) && |Source(f.u)| <= |s| && s[..|Source(f.u)|] == Source(f.u)
  {
    if s[0] != BACKSLASH then Front.Unit(Raw(s[0]))
    else if |s| == 1 then NoUnit(TrailingBackslash)
    else if s[1] == LETTER_X then
      if |s| < 4 then NoUnit(ShortHex)
      else if IsHexDigit(s[2]) && IsHexDigit(s[3]) then Front.Unit(Hex(s[2], s[3]))
      else NoUnit(BadHex)
    else if IsUnit(Short(s[1])) then Front.Unit(Short(s[1]))
    else NoUnit(UnknownEscape)
  }

  function Decode(s: Data): (r: Decoded)
    decreases |s|
  {
    if s == [] then Bytes([])
    else match FirstUnit(s)
      case NoUnit(e) => Invalid(e)
      case Unit(u) =>
        match Decode(s[|Source(u)|..])
        case Invalid(e) => Invalid(e)
        case Bytes(rest) => Bytes([Value(u)] + rest)
  }

  /** No unit is the beginning of another: what stands at the front of a text is decided by the text. */
  lemma FirstUnitOf(u: Unit, rest: Data)
    requires IsUnit(u)
    ensures FirstUnit(Source(u) + rest) == Front.Unit(u)
    ensures (Source(u) + rest)[|Source(u)|..] == rest
  {
  }

  /** A decoding with something already decoded in front of it. */
  function After(out: Data, d: Decoded): (r: Decoded)
  {
    if d.Bytes? then Bytes(out + d.data) else d
  }

  lemma DecodeCons(u: Unit, rest: Data)
    requires IsUnit(u)
    ensures Decode(Source(u) + rest) == After([Value(u)], Decode(rest))
  {
    FirstUnitOf(u, rest);
  }

  /** Every text made of units is accepted, and means the values of its units. */
  lemma {:induction false} DecodeOfUnits(us: seq<Unit>)
    requires AreUnits(us)
    ensures Decode(Sources(us)) == Bytes(Values(us))
  {
    if us != [] {
      DecodeCons(us[0], Sources(us[1..]));
      DecodeOfUnits(us[1..]);
    }
  }

  lemma {:induction false} UnitsOfDecode(s: Data) returns (us: seq<Unit>)
    requires Decode(s).Bytes?
    ensures AreUnits(us) && Sources(us) == s && Values(us) == Decode(s).data
    decreases |s|
  {
    if s == [] {
      us := [];
    } else {
      var u := FirstUnit(s).u;
      var rest := UnitsOfDecode(s[|Source(u)|..]);
      us := [u] + rest;
      assert us[1..] == rest;
      assert s == s[..|Source(u)|] + s[|Source(u)|..];
    }
  }

  /** Accepted exactly on the grammar. */
  lemma DecodeAcceptsGrammar(s: Data)
    ensures Decode(s).Bytes? <==> exists us :: AreUnits(us) && Sources(us) == s
  {
    if Decode(s).Bytes? {
      var us := UnitsOfDecode(s);
    }
    if us :| AreUnits(us) && Sources(us) == s {
      DecodeOfUnits(us);
    }
  }

  lemma {:induction false} SourcesConcat(a: seq<Unit>, b: seq<Unit>)
    requires AreUnits(a) && AreUnits(b)
    ensures Sources(a + b) == Sources(a) + Sources(b)
    ensures Values(a + b) == Values(a) + Values(b)
  {
    if a == [] {
      assert a + b == b;
    } else {
      SourcesConcat(a[1..], b);
      assert (a + b)[0] == a[0] && (a + b)[1..] == a[1..] + b;
      Regroup(Source(a[0]), Sources(a[1..]), Sources(b));
      Regroup([Value(a[0])], Values(a[1..]), Values(b));
    }
  }

  /** Decoding distributes over concatenation of accepted texts. */
  lemma DecodeConcat(a: Data, b: Data)
    requires Decode(a).Bytes? && Decode(b).Bytes?
    ensures Decode(a + b) == Bytes(Decode(a).data + Decode(b).data)
  {
    var x := UnitsOfDecode(a);
    var y := UnitsOfDecode(b);
    SourcesConcat(x, y);
    DecodeOfUnits(x + y);
  }

  lemma {:induction false} DecodeNeverLengthens(s: Data)
    requires Decode(s).Bytes?
    ensures |Decode(s).data| <= |s|
    decreases |s|
  {
    if s != [] {
      DecodeNeverLengthens(s[|Source(FirstUnit(s).u)|..]);
    }
  }

  /** A way of writing any byte: as itself when that is readable and unambiguous, as an escape otherwise. */
  function Written(b: Byte): (u: Unit)
    ensures IsUnit(u) && Value(u) == b
  {
    if b == BACKSLASH then Short(BACKSLASH)
    else if b == 0x0d then Short(LETTER_R)
    else if b == 0x0a then Short(LETTER_N)
    else if b == 0x09 then Short(LETTER_T)
    else if 0x20 <= b < 0x7f then Raw(b)
    else Hex(HexDigit(b as int / 16), HexDigit(b as int % 16))
  }

  function HexDigit(v: int): (b: Byte)
    requires 0 <= v < 16
    ensures IsHexDigit(b) && HexValue(b) == v
  {
    if v < 10 then (0x30 + v) as Byte else (0x61 + v - 10) as Byte
  }

  function Escape(data: Data): (r: Data)
  {
    if data == [] then [] else Source(Written(data[0])) + Escape(data[1..])
  }

  /** Every byte string can be sent: decoding undoes escaping. */
  lemma {:induction false} DecodeEscape(data: Data)
    ensures Decode(Escape(data)) == Bytes(data)
  {
    if data != [] {
      DecodeCons(Written(data[0]), Escape(data[1..]));
      DecodeEscape(data[1..]);
      assert [data[0]] + data[1..] == data;
    }
  }

  /** The text ends in an escape that is broken in this way. */
  predicate Broken(rest: Data, error: DecodeError)
  {
    && rest != [] && rest[0] == BACKSLASH
    && match error
       case TrailingBackslash => |rest| == 1
       case ShortHex => 2 <= |rest| < 4 && rest[1] == LETTER_X
       case BadHex => |rest| >= 4 && rest[1] == LETTER_X && !(IsHexDigit(rest[2]) && IsHexDigit(rest[3]))
       case UnknownEscape =>
         |rest| >= 2 && rest[1] != LETTER_R && rest[1] != LETTER_N && rest[1] != LETTER_T
         && rest[1] != BACKSLASH && rest[1] != LETTER_X
  }

  lemma {:induction false} BrokenAfter(us: seq<Unit>, rest: Data, error: DecodeError)
    requires AreUnits(us) && Broken(rest, error)
    ensures Decode(Sources(us) + rest) == Invalid(error)
  {
    if us == [] {
      assert Sources(us) + rest == rest;
      assert FirstUnit(rest) == NoUnit(error);
    } else {
      BrokenAfter(us[1..], rest, error);
      Regroup(Source(us[0]), Sources(us[1..]), rest);
      DecodeCons(us[0], Sources(us[1..]) + rest);
    }
  }

  lemma {:induction false} BreakOf(s: Data) returns (us: seq<Unit>, rest: Data)
    requires Decode(s).Invalid?
    ensures AreUnits(us) && Sources(us) + rest == s && Broken(rest, Decode(s).error)
    decreases |s|
  {
    if FirstUnit(s).NoUnit? {
      us, rest := [], s;
      assert Sources([]) + s == s;
    } else {
      var u := FirstUnit(s).u;
      var more: seq<Unit>;
      more, rest := BreakOf(s[|Source(u)|..]);
      us := [u] + more;
      assert us[1..] == more;
      Regroup(Source(u), Sources(more), rest);
      assert s == s[..|Source(u)|] + s[|Source(u)|..];
    }
  }

  /** It fails with the error of the first broken escape, after units that are sound. */
  lemma DecodeFailsExactly(s: Data, error: DecodeError)
    ensures Decode(s) == Invalid(error)
       <==> exists us, rest :: AreUnits(us) && Sources(us) + rest == s && Broken(rest, error)
  {
    if Decode(s) == Invalid(error) {
      var us, rest := BreakOf(s);
    }
    if us, rest :| AreUnits(us) && Sources(us) + rest == s && Broken(rest, error) {
      BrokenAfter(us, rest, error);
    }
  }

  /**
   What the escapes stand for: carriage return, line feed, tab, the backslash, and hexadecimal
   digits of either case.
   */
  lemma EscapesMean(k: nat)
    requires k < 16
    ensures Value(Short(0x72)) == 0x0d && Value(Short(0x6e)) == 0x0a && Value(Short(0x74)) == 0x09
    ensures Value(Short(0x5c)) == 0x5c && forall b: Byte | b != 0x5c :: Value(Raw(b)) == b
    ensures var (lower, upper) := (Ascii("0123456789abcdef")[k], Ascii("0123456789ABCDEF")[k]);
      IsHexDigit(lower) && IsHexDigit(upper) && HexValue(lower) == k && HexValue(upper) == k
  {
  }

  lemma DecodeStep(s: Data, idx: nat, out: Data, value: Byte, used: nat)
    requires idx < |s| && FirstUnit(s[idx..]).Unit?
    requires value == Value(FirstUnit(s[idx..]).u) && used == |Source(FirstUnit(s[idx..]).u)|
    ensures idx + used <= |s|
    ensures After(out, Decode(s[idx..])) == After(out + [value], Decode(s[idx + used..]))
  {
    assert s[idx..][used..] == s[idx + used..];
    var next := Decode(s[idx + used..]);
    if next.Bytes? { Regroup(out, [value], next.data); }
  }

  method DecodeEscapes(s: Data) returns (r: Decoded)
    ensures r == Decode(s)
  {
    var out: Data := [];
    var idx := 0;
    assert s[idx..] == s;
    while idx < |s|
      invariant 0 <= idx <= |s|
      invariant Decode(s) == After(out, Decode(s[idx..]))
    {
      ghost var rest := s[idx..];
      assert forall k :: 0 <= k < |rest| ==> rest[k] == s[idx + k];
      var value: Byte;
      var used := 1;
      if s[idx] != BACKSLASH {
        value := s[idx];
      } else {
        if idx + 1 >= |s| {
          return Invalid(TrailingBackslash);
        }
        used := 2;
        if s[idx + 1] == LETTER_R {
          value := 0x0d;
        } else if s[idx + 1] == LETTER_N {
          value := 0x0a;
        } else if s[idx + 1] == LETTER_T {
          value := 0x09;
        } else if s[idx + 1] == BACKSLASH {
          value := BACKSLASH;
        } else if s[idx + 1] == LETTER_X {
          if idx + 3 >= |s| {
            return Invalid(ShortHex);
          }
          if !IsHexDigit(s[idx + 2]) || !IsHexDigit(s[idx + 3]) {
            return Invalid(BadHex);
          }
          value := (16 * HexValue(s[idx + 2]) + HexValue(s[idx + 3])) as Byte;
          used := 4;
        } else {
          return Invalid(UnknownEscape);
        }
      }
      DecodeStep(s, idx, out, value, used);
      out := out + [value];
      idx := idx + used;
    }
    assert s[idx..] == [] && out + [] == out;
    return Bytes(out);
  }

  // --------------------------------------------------------------------- steps

  datatype Parsed =
    | Expect(pattern: Engine.Pattern, src: Data)
    | Send(payload: Data, src: Data)
    | SendRaw(payload: Data, src: Data)

  datatype ParseResult =
    | Parsed(steps: seq<Parsed>)
    | MissingArgument(verb: Data)
    | BadPattern(src: Data)
    | BadData(src: Data, error: DecodeError)
    | UnknownVerb(verb: Data)

  function Ascii(s: string): (r: Data)
    requires forall i :: 0 <= i < |s| ==> s[i] < 128 as char
    ensures |r| == |s|
  {
    seq(|s|, i requires 0 <= i < |s| => s[i] as int as Byte)
  }

  function Expects(): (r: Data) ensures |r| == 6 { Ascii("expect") }
  function Sends(): (r: Data) ensures |r| == 4 { Ascii("send") }
  function SendsRaw(): (r: Data) ensures |r| == 8 { Ascii("send-raw") }

  /** The expression compiler is a library; it accepts a pattern or not. */
  type Compiler = Data -> Option<Engine.Pattern>

  /** The step a verb and its argument stand for. */
  function ParseOne(verb: Data, arg: Data, eol: Data, compile: Compiler): (r: ParseResult)
    ensures r.Parsed? ==> |r.steps| == 1
  {
    if verb == Expects() then
      match compile(arg)
      case None => BadPattern(arg)
      case Some(p) => ParseResult.Parsed([Expect(p, arg)])
    else if verb == Sends() || verb == SendsRaw() then
      match Decode(arg)
      case Invalid(e) => BadData(arg, e)
      case Bytes(data) => ParseResult.Parsed([if verb == Sends() then Send(data + eol, arg) else SendRaw(data, arg)])
    else UnknownVerb(verb)
  }

  predicate IsVerb(verb: Data) { verb == Expects() || verb == Sends() || verb == SendsRaw() }

  function Parse(tokens: seq<Data>, eol: Data, compile: Compiler): (r: ParseResult)
  {
    if tokens == [] then ParseResult.Parsed([])
    else if !IsVerb(tokens[0]) then UnknownVerb(tokens[0])
    else if |tokens| == 1 then MissingArgument(tokens[0])
    else
      var first := ParseOne(tokens[0], tokens[1], eol, compile);
      if !first.Parsed? then first
      else
        var rest := Parse(tokens[2..], eol, compile);
        if !rest.Parsed? then rest else ParseResult.Parsed(first.steps + rest.steps)
  }

  function Verb(step: Parsed): (r: Data)
  {
    match step
    case Expect(_, _) => Expects()
    case Send(_, _) => Sends()
    case SendRaw(_, _) => SendsRaw()
  }

  function Print(steps: seq<Parsed>): (r: seq<Data>)
    ensures |r| == 2 * |steps|
  {
    if steps == [] then [] else [Verb(steps[0]), steps[0].src] + Print(steps[1..])
  }

  /**
   The step carries what its source says: the compiled pattern, or the decoded bytes, with the line
   ending on a send.
   */
  ghost predicate Meant(step: Parsed, eol: Data, compile: Compiler)
  {
    match step
    case Expect(p, src) => compile(src) == Some(p)
    case Send(payload, src) => Decode(src).Bytes? && payload == Decode(src).data + eol
    case SendRaw(payload, src) => Decode(src) == Bytes(payload)
  }

  ghost predicate AllMeant(steps: seq<Parsed>, eol: Data, compile: Compiler)
  {
    forall i :: 0 <= i < |steps| ==> Meant(steps[i], eol, compile)
  }

  /** Printing what was parsed gives back the tokens, every one and in order. */
  lemma {:induction false} ParsedPrintsBack(tokens: seq<Data>, eol: Data, compile: Compiler)
    requires Parse(tokens, eol, compile).Parsed?
    ensures Print(Parse(tokens, eol, compile).steps) == tokens
    ensures AllMeant(Parse(tokens, eol, compile).steps, eol, compile)
  {
    if tokens != [] {
      ParsedPrintsBack(tokens[2..], eol, compile);
      var steps := Parse(tokens, eol, compile).steps;
      assert steps[1..] == Parse(tokens[2..], eol, compile).steps;
      assert tokens == [tokens[0], tokens[1]] + tokens[2..];
    }
  }

  /** Parsing what was printed gives back the steps, so parsing succeeds exactly on printed sequences. */
  lemma {:induction false} PrintedParsesBack(steps: seq<Parsed>, eol: Data, compile: Compiler)
    requires AllMeant(steps, eol, compile)
    ensures Parse(Print(steps), eol, compile) == ParseResult.Parsed(steps)
  {
    if steps != [] {
      PrintedParsesBack(steps[1..], eol, compile);
      var tokens := Print(steps);
      assert tokens[2..] == Print(steps[1..]);
      assert [steps[0]] + steps[1..] == steps;
      assert ParseOne(tokens[0], tokens[1], eol, compile) == ParseResult.Parsed([steps[0]]);
    }
  }

  lemma ParseSucceedsExactly(tokens: seq<Data>, eol: Data, compile: Compiler)
    ensures Parse(tokens, eol, compile).Parsed?
       <==> exists steps :: AllMeant(steps, eol, compile) && Print(steps) == tokens
  {
    if Parse(tokens, eol, compile).Parsed? {
      ParsedPrintsBack(tokens, eol, compile);
    }
    if steps :| AllMeant(steps, eol, compile) && Print(steps) == tokens {
      PrintedParsesBack(steps, eol, compile);
    }
  }

  /** What is wrong with the token at the front of the rest. */
  ghost predicate Wrong(rest: seq<Data>, error: ParseResult, compile: Compiler)
  {
    && rest != []
    && match error
       case Parsed(_) => false
       case UnknownVerb(verb) => verb == rest[0] && verb != Expects() && verb != Sends() && verb != SendsRaw()
       case MissingArgument(verb) => rest == [verb] && IsVerb(verb)
       case BadPattern(src) => |rest| >= 2 && rest[0] == Expects() && rest[1] == src && compile(src).None?
       case BadData(src, e) =>
         |rest| >= 2 && (rest[0] == Sends() || rest[0] == SendsRaw()) && rest[1] == src && Decode(src) == Invalid(e)
  }

  lemma {:induction false} WrongAfter(steps: seq<Parsed>, rest: seq<Data>, error: ParseResult, eol: Data,
                                      compile: Compiler)
    requires AllMeant(steps, eol, compile) && Wrong(rest, error, compile)
    ensures Parse(Print(steps) + rest, eol, compile) == error
  {
    if steps == [] {
      assert Print(steps) + rest == rest;
      WrongAtOnce(rest, error, eol, compile);
    } else {
      WrongAfter(steps[1..], rest, error, eol, compile);
      ParseGoesOn(steps[0], Print(steps[1..]) + rest, eol, compile);
      Regroup([Verb(steps[0]), steps[0].src], Print(steps[1..]), rest);
    }
  }

  lemma WrongAtOnce(rest: seq<Data>, error: ParseResult, eol: Data, compile: Compiler)
    requires Wrong(rest, error, compile)
    ensures Parse(rest, eol, compile) == error
  {
    VerbsDiffer();
  }

  /** A failure later in the sequence is the failure of the whole. */
  lemma ParseGoesOn(step: Parsed, tokens: seq<Data>, eol: Data, compile: Compiler)
    requires Meant(step, eol, compile) && !Parse(tokens, eol, compile).Parsed?
    ensures Parse([Verb(step), step.src] + tokens, eol, compile) == Parse(tokens, eol, compile)
  {
    VerbsDiffer();
    var all := [Verb(step), step.src] + tokens;
    assert all[0] == Verb(step) && all[1] == step.src && all[2..] == tokens;
    assert ParseOne(all[0], all[1], eol, compile).Parsed?;
  }

  lemma VerbsDiffer()
    ensures Expects() != Sends() && Expects() != SendsRaw() && Sends() != SendsRaw()
  {
  }

  lemma {:induction false} WrongOf(tokens: seq<Data>, eol: Data, compile: Compiler)
    returns (steps: seq<Parsed>, rest: seq<Data>)
    requires !Parse(tokens, eol, compile).Parsed?
    ensures AllMeant(steps, eol, compile) && Print(steps) + rest == tokens
    ensures Wrong(rest, Parse(tokens, eol, compile), compile)
    decreases |tokens|
  {
    VerbsDiffer();
    if !IsVerb(tokens[0]) || |tokens| == 1 || !ParseOne(tokens[0], tokens[1], eol, compile).Parsed? {
      steps, rest := [], tokens;
      assert Print([]) + tokens == tokens;
      assert |tokens| == 1 ==> tokens == [tokens[0]];
    } else {
      var more: seq<Parsed>;
      more, rest := WrongOf(tokens[2..], eol, compile);
      steps := ParseOne(tokens[0], tokens[1], eol, compile).steps + more;
      assert steps[1..] == more;
      assert tokens == [tokens[0], tokens[1]] + tokens[2..];
      Regroup([tokens[0], tokens[1]], Print(more), rest);
    }
  }

  /** Parsing fails with the first wrong token, after steps that are right. */
  lemma ParseFailsExactly(tokens: seq<Data>, error: ParseResult, eol: Data, compile: Compiler)
    requires !error.Parsed?
    ensures Parse(tokens, eol, compile) == error
       <==> exists steps, rest ::
              AllMeant(steps, eol, compile) && Print(steps) + rest == tokens && Wrong(rest, error, compile)
  {
    if Parse(tokens, eol, compile) == error {
      var steps, rest := WrongOf(tokens, eol, compile);
    }
    if steps, rest :| AllMeant(steps, eol, compile) && Print(steps) + rest == tokens && Wrong(rest, error, compile) {
      WrongAfter(steps, rest, error, eol, compile);
    }
  }

  function AfterSteps(steps: seq<Parsed>, r: ParseResult): (r': ParseResult)
  {
    if r.Parsed? then ParseResult.Parsed(steps + r.steps) else r
  }

  lemma ParseStep(tokens: seq<Data>, idx: nat, steps: seq<Parsed>, step: Parsed, eol: Data, compile: Compiler)
    requires idx + 1 < |tokens| && IsVerb(tokens[idx])
    requires ParseOne(tokens[idx], tokens[idx + 1], eol, compile) == ParseResult.Parsed([step])
    ensures AfterSteps(steps, Parse(tokens[idx..], eol, compile))
         == AfterSteps(steps + [step], Parse(tokens[idx + 2..], eol, compile))
  {
    var rest := tokens[idx..];
    assert rest[0] == tokens[idx] && rest[1] == tokens[idx + 1] && rest[2..] == tokens[idx + 2..];
    var next := Parse(tokens[idx + 2..], eol, compile);
    if next.Parsed? { Regroup(steps, [step], next.steps); }
  }

  lemma ParseFails(tokens: seq<Data>, idx: nat, eol: Data, compile: Compiler)
    requires idx < |tokens|
    ensures !IsVerb(tokens[idx]) ==> Parse(tokens[idx..], eol, compile) == UnknownVerb(tokens[idx])
    ensures IsVerb(tokens[idx]) && idx + 1 == |tokens| ==>
      Parse(tokens[idx..], eol, compile) == MissingArgument(tokens[idx])
    ensures IsVerb(tokens[idx]) && idx + 1 < |tokens| ==>
      var one := ParseOne(tokens[idx], tokens[idx + 1], eol, compile);
      !one.Parsed? ==> Parse(tokens[idx..], eol, compile) == one
  {
    var rest := tokens[idx..];
    assert rest[0] == tokens[idx];
    assert idx + 1 < |tokens| ==> rest[1] == tokens[idx + 1];
  }

  method ParseSteps(tokens: seq<Data>, eol: Data, compile: Compiler) returns (r: ParseResult)
    ensures r == Parse(tokens, eol, compile)
  {
    var steps: seq<Parsed> := [];
    var idx := 0;
    assert tokens[idx..] == tokens;
    while idx < |tokens|
      invariant 0 <= idx <= |tokens|
      invariant Parse(tokens, eol, compile) == AfterSteps(steps, Parse(tokens[idx..], eol, compile))
    {
      ParseFails(tokens, idx, eol, compile);
      var verb := tokens[idx];
      idx := idx + 1;
      var step: Parsed;
      if verb == Expects() {
        if idx >= |tokens| {
          return MissingArgument(verb);
        }
        var compiled := compile(tokens[idx]);
        if compiled.None? {
          return BadPattern(tokens[idx]);
        }
        step := Expect(compiled.value, tokens[idx]);
      } else if verb == Sends() || verb == SendsRaw() {
        if idx >= |tokens| {
          return MissingArgument(verb);
        }
        var data := DecodeEscapes(tokens[idx]);
        if data.Invalid? {
          return BadData(tokens[idx], data.error);
        }
        step := if verb == SendsRaw() then SendRaw(data.data, tokens[idx]) else Send(data.data + eol, tokens[idx]);
      } else {
        return UnknownVerb(verb);
      }
      ParseStep(tokens, idx - 1, steps, step, eol, compile);
      idx := idx + 1;
      steps := steps + [step];
    }
    assert tokens[idx..] == [] && steps + [] == steps;
    return ParseResult.Parsed(steps);
  }
}
