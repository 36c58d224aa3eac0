/**
 * The Java native module of the `io.spokestack.RNSpokestack` package: it
 * translates the host's configuration map into calls on the Spokestack
 * builder, forwards lifecycle calls to the built SDK object, guards the
 * TTS format, and emits adapter events only while the host instance is
 * active.
 */
module RNModule {
  import opened Bridge
  import opened SdkEvents
  import opened SpokestackBuilder
  import RNAdapter

  // ---------------------------------------------------------------------
  // Double.parseDouble on the text of a profile value
  // ---------------------------------------------------------------------

  /** What `Double.parseDouble` returns: a finite number, NaN, or an infinity. */
  datatype JavaDouble = Finite(x: real) | NaN | Infinite(positive: bool)

  predicate AllDigits(s: string)
  {
    forall i :: 0 <= i < |s| ==> '0' <= s[i] <= '9'
  }

  /** The number a string of decimal digits denotes (the empty string denotes 0). */
  function DigitsValue(s: string): nat
    requires AllDigits(s)
  {
    if s == [] then 0 else DigitsValue(s[..|s| - 1]) * 10 + (s[|s| - 1] as int - '0' as int)
  }

  /** The index of the first '.' in `s`, or `|s|` when there is none. */
  function DotIndex(s: string): (d: nat)
    ensures d <= |s|
    ensures d < |s| ==> s[d] == '.'
    ensures forall i :: 0 <= i < d ==> s[i] != '.'
  {
    if s == [] then 0 else if s[0] == '.' then 0 else 1 + DotIndex(s[1..])
  }

  /** The index of the first exponent marker, 'e' or 'E', in `s`, or `|s|` when there is none. */
  function ExpIndex(s: string): (e: nat)
    ensures e <= |s|
    ensures e < |s| ==> s[e] == 'e' || s[e] == 'E'
    ensures forall i :: 0 <= i < e ==> s[i] != 'e' && s[i] != 'E'
  {
    if s == [] then 0 else if s[0] == 'e' || s[0] == 'E' then 0 else 1 + ExpIndex(s[1..])
  }

  /** `x` times ten to the power `k`. */
  function Scale(x: real, k: int): real
    decreases if k >= 0 then k else -k
  {
    if k == 0 then x else if k > 0 then Scale(x, k - 1) * 10.0 else Scale(x, k + 1) / 10.0
  }

  /** Unsigned decimal text: digits, optionally a '.' and more digits, at least one digit in all. */
  function ParseUnsigned(s: string): Option<real>
  {
    var d := DotIndex(s);
    var whole := s[..d];
    var frac := if d < |s| then s[d + 1..] else [];
    if AllDigits(whole) && AllDigits(frac) && |whole| + |frac| > 0 then
      Some(DigitsValue(whole) as real + Scale(DigitsValue(frac) as real, -|frac|))
    else None
  }

  /** The exponent after the marker: an optional sign and at least one digit. */
  function ParseExponent(s: string): Option<int>
  {
    if |s| > 1 && (s[0] == '-' || s[0] == '+') && AllDigits(s[1..]) then
      var k: int := DigitsValue(s[1..]);
      Some(if s[0] == '-' then -k else k)
    else if |s| > 0 && AllDigits(s) then Some(DigitsValue(s))
    else None
  }

  /** Unsigned decimal text with an optional exponent (`1.5`, `15e-1`, `.15E1`). */
  function ParseScientific(s: string): Option<real>
  {
    var e := ExpIndex(s);
    match ParseUnsigned(s[..e])
    case None => None
    case Some(m) =>
      if e == |s| then Some(m)
      else
        match ParseExponent(s[e + 1..])
        case None => None
        case Some(k) => Some(Scale(m, k))
  }

  /** An unsigned number: `NaN`, `Infinity`, or decimal text with an optional `f`, `F`, `d` or `D` suffix. */
  function ParseUnsignedDouble(s: string): Option<JavaDouble>
  {
    if s == "NaN" then Some(NaN)
    else if s == "Infinity" then Some(Infinite(true))
    else
      var body := if |s| > 0 && s[|s| - 1] in {'f', 'F', 'd', 'D'} then s[..|s| - 1] else s;
      match ParseScientific(body)
      case None => None
      case Some(x) => Some(Finite(x))
  }

  function Negate(d: JavaDouble): JavaDouble
  {
    match d
    case Finite(x) => Finite(-x)
    case NaN => NaN
    case Infinite(positive) => Infinite(!positive)
  }

  /** Leading characters up to U+0020 removed. */
  function TrimStart(s: string): (t: string)
    ensures |t| <= |s| && t == s[|s| - |t|..]
    ensures t != [] ==> t[0] > ' '
    ensures s != [] && s[0] > ' ' ==> t == s
  {
    if s != [] && s[0] <= ' ' then TrimStart(s[1..]) else s
  }

  /** Trailing characters up to U+0020 removed. */
  function TrimEnd(s: string): (t: string)
    ensures |t| <= |s| && t == s[..|t|]
    ensures t != [] ==> t[|t| - 1] > ' '
    ensures s != [] && s[|s| - 1] > ' ' ==> t == s
  {
    if s != [] && s[|s| - 1] <= ' ' then TrimEnd(s[..|s| - 1]) else s
  }

  /** `String.trim`: text without leading or trailing characters up to U+0020, otherwise unchanged. */
  function Trim(s: string): (t: string)
    ensures t != [] ==> t[0] > ' ' && t[|t| - 1] > ' '
    ensures s != [] && s[0] > ' ' && s[|s| - 1] > ' ' ==> t == s
  {
    var u := TrimStart(s);
    var t := TrimEnd(u);
    assert t != [] ==> t[0] == u[0];
    t
  }

  /**
   * `Double.parseDouble` on decimal text: surrounding whitespace is
   * ignored, then an optional sign and an unsigned number; any other text,
   * hexadecimal floating point included, is a NumberFormatException (`None`).
   */
  function ParseDouble(s: string): Option<JavaDouble>
  {
    var t := Trim(s);
    if |t| > 0 && (t[0] == '-' || t[0] == '+') then
      match ParseUnsignedDouble(t[1..])
      case None => None
      case Some(d) => Some(if t[0] == '-' then Negate(d) else d)
    else ParseUnsignedDouble(t)
  }

  /** `intValue()` of a parsed double: NaN is 0 and the infinities saturate. */
  function IntValue(d: JavaDouble): int
  {
    match d
    case Finite(x) => DoubleToInt(x)
    case NaN => 0
    case Infinite(positive) => if positive then 0x7fff_ffff else -0x8000_0000
  }

  lemma {:induction false} NatToStringDigits(n: nat)
    ensures AllDigits(NatToString(n))
    ensures |NatToString(n)| > 0
    ensures DigitsValue(NatToString(n)) == n
    decreases n
  {
    var d := DigitChar(n % 10);
    assert d as int - '0' as int == n % 10;
    if n >= 10 {
      NatToStringDigits(n / 10);
      var s := NatToString(n);
      assert s[..|s| - 1] == NatToString(n / 10);
    }
  }

  lemma {:induction false} DigitsHaveNoDot(s: string)
    requires AllDigits(s)
    ensures DotIndex(s) == |s|
    ensures ExpIndex(s) == |s|
  {
    if s != [] {
      assert AllDigits(s[1..]);
      DigitsHaveNoDot(s[1..]);
    }
  }

  lemma UnsignedDigits(s: string)
    requires AllDigits(s) && |s| > 0
    ensures ParseUnsigned(s) == Some(DigitsValue(s) as real)
  {
    DigitsHaveNoDot(s);
    var d := DotIndex(s);
    assert s[..d] == s;
    assert DigitsValue([]) == 0 && Scale(0.0, 0) == 0.0;
  }

  lemma ScientificDigits(s: string)
    requires AllDigits(s) && |s| > 0
    ensures ParseScientific(s) == Some(DigitsValue(s) as real)
  {
    DigitsHaveNoDot(s);
    UnsignedDigits(s);
    assert s[..ExpIndex(s)] == s;
  }

  /** Text made of digits alone parses to the number the digits denote. */
  lemma ParseDigitsOnly(s: string)
    requires AllDigits(s) && |s| > 0
    ensures ParseUnsignedDouble(s) == Some(Finite(DigitsValue(s) as real))
  {
    ScientificDigits(s);
    DigitsPlain(s);
    UnsignedDecimal(s, DigitsValue(s) as real);
  }

  /** Digits are neither a special word nor end in a type suffix. */
  lemma DigitsPlain(s: string)
    requires AllDigits(s) && |s| > 0
    ensures s != "NaN" && s != "Infinity" && s[|s| - 1] !in {'f', 'F', 'd', 'D'}
  {
    assert '0' <= s[0] <= '9' && '0' <= s[|s| - 1] <= '9';
    NotSpecialWord(s);
  }

  /** Text that is neither a special word nor suffixed is read as scientific notation. */
  lemma UnsignedDecimal(s: string, x: real)
    requires |s| > 0 && s != "NaN" && s != "Infinity" && s[|s| - 1] !in {'f', 'F', 'd', 'D'}
    requires ParseScientific(s) == Some(x)
    ensures ParseUnsignedDouble(s) == Some(Finite(x))
  {
  }

  /** Text that starts with a digit is neither `NaN` nor `Infinity`. */
  lemma NotSpecialWord(s: string)
    requires |s| > 0 && '0' <= s[0] <= '9'
    ensures s != "NaN" && s != "Infinity"
  {
    assert "NaN"[0] == 'N' && "Infinity"[0] == 'I';
  }

  /** Unpadded text without a sign is parsed as an unsigned number. */
  lemma ParseDoubleUnsigned(s: string)
    requires s != [] && s[0] > ' ' && s[|s| - 1] > ' ' && s[0] != '-' && s[0] != '+'
    ensures ParseDouble(s) == ParseUnsignedDouble(s)
  {
    assert Trim(s) == s;
  }

  /** A leading minus sign negates what the rest of the text parses to. */
  lemma ParseMinus(s: string, t: string, d: JavaDouble)
    requires s == "-" + t && |t| > 0 && t[|t| - 1] > ' ' && ParseUnsignedDouble(t) == Some(d)
    ensures ParseDouble(s) == Some(Negate(d))
  {
    assert s[0] == '-' && s[|s| - 1] == t[|t| - 1] && s[1..] == t;
    assert Trim(s) == s;
  }

  /** The digits of a natural number parse, unsigned, to that number. */
  lemma ParseNatToString(n: nat)
    ensures ParseUnsignedDouble(NatToString(n)) == Some(Finite(n as real))
  {
    NatToStringDigits(n);
    ParseDigitsOnly(NatToString(n));
  }

  /** The digits of a number, unsigned, parse to that number. */
  lemma ParseUnsignedDigits(n: nat)
    ensures ParseDouble(NatToString(n)) == Some(Finite(n as real))
  {
    ParseNatToString(n);
    NatToStringDigits(n);
    var s := NatToString(n);
    assert '0' <= s[0] <= '9' && '0' <= s[|s| - 1] <= '9';
    ParseDoubleUnsigned(s);
  }

  /** The text of a negative integer parses back to it. */
  lemma ParseNegativeToString(i: int)
    requires i < 0
    ensures ParseDouble(IntToString(i)) == Some(Finite(i as real))
  {
    NegativeText(i);
    ParseNegatedDigits(IntToString(i), i);
  }

  /** The text of a negative integer is a minus sign before the digits of its magnitude. */
  lemma NegativeText(i: int)
    requires i < 0
    ensures var digits := NatToString(-i);
            IntToString(i) == "-" + digits && |digits| > 0 && '0' <= digits[|digits| - 1] <= '9'
  {
    var digits := NatToString(-i);
    NatToStringDigits(-i);
    assert '0' <= digits[|digits| - 1] <= '9';
  }

  lemma ParseNegatedDigits(text: string, i: int)
    requires i < 0 && text == "-" + NatToString(-i)
    ensures ParseDouble(text) == Some(Finite(i as real))
  {
    var digits := NatToString(-i);
    NegativeText(i);
    ParseNatToString(-i);
    ParseMinus(text, digits, Finite((-i) as real));
    assert Negate(Finite((-i) as real)) == Finite(i as real);
  }

  /** The decimal text of any integer parses back to that integer. */
  lemma ParseIntToString(i: int)
    ensures ParseDouble(IntToString(i)) == Some(Finite(i as real))
  {
    if i < 0 {
      ParseNegativeToString(i);
    } else {
      assert IntToString(i) == NatToString(i);
      ParseUnsignedDigits(i);
    }
  }

  /** Whitespace around a number's text is ignored. */
  lemma ParsePadded(s: string)
    requires s != [] && s[0] > ' ' && s[|s| - 1] > ' '
    ensures ParseDouble(" " + s + " ") == ParseDouble(s)
  {
    var p := " " + s + " ";
    assert p[1..] == s + " ";
    assert TrimStart(p) == s + " ";
    assert (s + " ")[..|s|] == s;
    assert TrimEnd(s + " ") == s;
  }

  /** An exponent scales the number before it. */
  lemma ParseExponentForm()
    ensures ParseDouble("2e0") == Some(Finite(2.0))
  {
    var s := "2e0";
    assert s[0] == '2' && s[2] == '0';
    ParseDoubleUnsigned(s);
    ScientificExponentForm();
    NotSpecialWord(s);
    UnsignedDecimal(s, 2.0);
  }

  lemma ScientificExponentForm()
    ensures ParseScientific("2e0") == Some(2.0)
  {
    var s := "2e0";
    assert ExpIndex(s) == 1 by {
      assert s[0] == '2' && s[1] == 'e' && s[1..] == "e0";
    }
    assert s[..1] == "2" && s[2..] == "0";
    UnsignedDigits("2");
    assert ParseExponent("0") == Some(0);
  }

  /** A type suffix is ignored. */
  lemma ParseSuffixForm()
    ensures ParseDouble("2d") == Some(Finite(2.0))
  {
    var s := "2d";
    ParseDoubleUnsigned(s);
    assert s != "NaN" && s != "Infinity" by {
      assert |s| == 2;
    }
    assert s[1] == 'd' && s[..1] == "2";
    ScientificDigits("2");
  }

  /** `NaN` is a number to `parseDouble`. */
  lemma ParseNaNForm()
    ensures ParseDouble("NaN") == Some(NaN)
  {
    ParseDoubleUnsigned("NaN");
  }

  // ---------------------------------------------------------------------
  // Profile selection
  // ---------------------------------------------------------------------

  /**
   * `PipelineProfiles.values()[Double.parseDouble(v.toString()).intValue()]`.
   * A null value throws on `toString`, unparsable text throws, and the
   * truncated index is not clamped.
   */
  function ProfileSelection(v: Value): (r: Result<PipelineProfile, string>)
    ensures v.Null? ==> r == Failure("NullPointerException")
    ensures v.Number? ==> r == ProfileAt(DoubleToInt(v.x))
    ensures !v.Null? && !v.Number? && ParseDouble(ToString(v)).None? ==> r == Failure("NumberFormatException")
    ensures !v.Null? && !v.Number? && ParseDouble(ToString(v)).Some? ==>
              r == ProfileAt(IntValue(ParseDouble(ToString(v)).value))
  {
    if v.Null? then Failure("NullPointerException")
    else
      // a boxed number's own text parses back to its value
      var parsed := if v.Number? then Some(Finite(v.x)) else ParseDouble(ToString(v));
      match parsed
      case None => Failure("NumberFormatException")
      case Some(d) => ProfileAt(IntValue(d))
  }

  /**
   * A numeric profile selects the entry at its truncated value, and fails
   * exactly when that value lies outside 0..5: nothing is clamped.
   */
  lemma ProfileSelectionNumber(kind: NumKind, x: real, text: string)
    ensures ProfileSelection(Number(kind, x, text)).Success? <==> -1.0 < x < 6.0
    ensures ProfileSelection(Number(kind, x, text)).Success? ==>
              (Ordinal(ProfileSelection(Number(kind, x, text)).value) as real) <= (if x >= 0.0 then x else 0.0) < Ordinal(ProfileSelection(Number(kind, x, text)).value) as real + 1.0
  {
    var i := DoubleToInt(x);
    if -1.0 < x < 6.0 {
      assert 0 <= i < 6;
    } else if x >= 6.0 {
      assert i >= 6;
    } else {
      assert i <= -1;
    }
  }

  /** Truncating an integral double keeps the integer inside 0..5 and stays outside it otherwise. */
  lemma IntegralTruncation(i: int)
    ensures 0 <= i < 6 ==> DoubleToInt(i as real) == i
    ensures i >= 6 ==> DoubleToInt(i as real) >= 6
    ensures i < 0 ==> DoubleToInt(i as real) < 0
  {
    if 0 <= i < 6 {
      assert (i as real).Floor == i;
    }
  }

  /** A profile given as the text of an integer selects the entry with that ordinal. */
  lemma ProfileSelectionText(i: int)
    ensures ProfileSelection(Str(IntToString(i))) == ProfileAt(i)
  {
    ParseIntToString(i);
    assert ProfileSelection(Str(IntToString(i))) == ProfileAt(IntValue(Finite(i as real)));
    IntegralTruncation(i);
  }

  lemma IntToStringUnpadded(i: int)
    ensures var s := IntToString(i); s != [] && s[0] > ' ' && s[|s| - 1] > ' '
  {
    var s := IntToString(i);
    NatToStringDigits(if i < 0 then -i else i);
    if i < 0 {
      assert s[0] == '-' && s[1..] == NatToString(-i);
      assert '0' <= s[1..][|s| - 2] <= '9';
    } else {
      assert '0' <= s[0] <= '9' && '0' <= s[|s| - 1] <= '9';
    }
  }

  /** Whitespace around a profile's text does not change the entry it selects. */
  lemma ProfileSelectionPadded(i: int)
    ensures ProfileSelection(Str(" " + IntToString(i) + " ")) == ProfileAt(i)
  {
    var s := IntToString(i);
    IntToStringUnpadded(i);
    ParsePadded(s);
    ParseIntToString(i);
    assert ProfileSelection(Str(" " + s + " ")) == ProfileAt(IntValue(Finite(i as real)));
    IntegralTruncation(i);
  }

  /** The text `NaN` selects the first entry, since NaN truncates to 0. */
  lemma ProfileSelectionNaN()
    ensures ProfileSelection(Str("NaN")) == Success(TFLiteWakewordNativeASR)
  {
    ParseNaNForm();
    assert ToString(Str("NaN")) == "NaN";
    assert IntValue(NaN) == 0;
    assert ProfileSelection(Str("NaN")) == ProfileAt(0);
  }

  // ---------------------------------------------------------------------
  // The initialize plan
  // ---------------------------------------------------------------------

  /** A configuration map; a section is the entry list of its map, or absent. */
  datatype JavaConfig = JavaConfig(
    properties: Option<seq<(string, Value)>>,
    pipeline: Option<seq<(string, Value)>>,
    nlu: Option<seq<(string, Value)>>)

  function PropertyCalls(properties: Option<seq<(string, Value)>>): seq<BuilderCall>
  {
    if properties.Some? then SetAll(properties.value) else []
  }

  /** The calls the `pipeline` section makes, or the exception profile selection throws. */
  function PipelineCalls(pipeline: Option<seq<(string, Value)>>): Result<seq<BuilderCall>, string>
  {
    match pipeline
    case None => Success([WithoutSpeechPipeline, WithoutAutoClassification])
    case Some(section) =>
      match Lookup(section, "profile")
      case None => Success(SetAll(section))
      case Some(v) =>
        match ProfileSelection(v)
        case Failure(e) => Failure(e)
        case Success(p) => Success(SetAll(section) + [UseProfile(ProfileClass(p))])
  }

  function NluCalls(nlu: Option<seq<(string, Value)>>): seq<BuilderCall>
  {
    if nlu.Some? then SetAll(nlu.value) else [WithoutNlu, WithoutAutoClassification]
  }

  /** The built call list: registration, the three sections' calls, no autoplay, build. */
  function Assemble(props: seq<BuilderCall>, pc: seq<BuilderCall>, nc: seq<BuilderCall>): seq<BuilderCall>
  {
    [AddListener, WithAndroidContext] + props + pc + nc + [WithoutAutoPlayback, Build]
  }

  /** The whole sequence of builder calls `initialize` makes, or the exception it throws. */
  function InitPlan(c: JavaConfig): Result<seq<BuilderCall>, string>
  {
    match PipelineCalls(c.pipeline)
    case Failure(e) => Failure(e)
    case Success(pc) => Success(Assemble(PropertyCalls(c.properties), pc, NluCalls(c.nlu)))
  }

  /** An assembled list holds exactly the calls of its parts. */
  lemma AssembleMember(props: seq<BuilderCall>, pc: seq<BuilderCall>, nc: seq<BuilderCall>, x: BuilderCall)
    ensures x in Assemble(props, pc, nc) <==>
              x == AddListener || x == WithAndroidContext || x in props || x in pc || x in nc ||
              x == WithoutAutoPlayback || x == Build
  {
  }

  /**
   * From sections that neither register nor build, the assembled list
   * registers first and once, builds last and once, and holds the
   * sections in order right after the registration.
   */
  lemma AssembleOrder(props: seq<BuilderCall>, pc: seq<BuilderCall>, nc: seq<BuilderCall>)
    requires AddListener !in props && AddListener !in pc && AddListener !in nc
    requires Build !in props && Build !in pc && Build !in nc
    ensures var calls := Assemble(props, pc, nc);
            |calls| == |props| + |pc| + |nc| + 4 &&
            calls[0] == AddListener && calls[1] == WithAndroidContext && AddListener !in calls[1..] &&
            calls[|calls| - 2] == WithoutAutoPlayback && calls[|calls| - 1] == Build &&
            Build !in calls[..|calls| - 1] &&
            calls[2..2 + |props|] == props && calls[2 + |props|..2 + |props| + |pc|] == pc
  {
    var calls := Assemble(props, pc, nc);
    var body := [AddListener, WithAndroidContext] + props + pc + nc;
    assert calls == body + [WithoutAutoPlayback, Build];
    assert calls[1..] == [WithAndroidContext] + props + pc + nc + [WithoutAutoPlayback, Build];
    assert calls[..|calls| - 1] == body + [WithoutAutoPlayback];
    assert calls[2..] == props + (pc + nc + [WithoutAutoPlayback, Build]);
    assert calls[2 + |props|..] == pc + (nc + [WithoutAutoPlayback, Build]);
  }

  /** The properties part sits right after the two registration calls. */
  lemma AssemblePropsAt(props: seq<BuilderCall>, pc: seq<BuilderCall>, nc: seq<BuilderCall>)
    ensures var calls := Assemble(props, pc, nc);
            2 + |props| <= |calls| && calls[2..2 + |props|] == props
  {
    var calls := Assemble(props, pc, nc);
    assert calls[2..] == props + (pc + nc + [WithoutAutoPlayback, Build]);
  }

  /** The first `k` calls of the pipeline part sit right after the properties part. */
  lemma AssemblePipelinePrefix(props: seq<BuilderCall>, pc: seq<BuilderCall>, nc: seq<BuilderCall>, k: nat)
    requires k <= |pc|
    ensures var calls := Assemble(props, pc, nc);
            2 + |props| + k <= |calls| && calls[2 + |props|..2 + |props| + k] == pc[..k]
  {
    var calls := Assemble(props, pc, nc);
    assert calls[2 + |props|..] == pc + (nc + [WithoutAutoPlayback, Build]);
  }

  /** Calls that open the pipeline part sit right after the properties part. */
  lemma AssembleSectionAt(props: seq<BuilderCall>, pc: seq<BuilderCall>, nc: seq<BuilderCall>, head: seq<BuilderCall>)
    requires |head| <= |pc| && pc[..|head|] == head
    ensures var calls := Assemble(props, pc, nc);
            2 + |props| + |head| <= |calls| && calls[2 + |props|..2 + |props| + |head|] == head
  {
    AssemblePipelinePrefix(props, pc, nc, |head|);
  }

  /** With a pipeline section, its calls start with the section's keys set verbatim. */
  lemma PipelineCallsPrefix(section: seq<(string, Value)>)
    requires PipelineCalls(Some(section)).Success?
    ensures var pc := PipelineCalls(Some(section)).value;
            |section| <= |pc| && pc[..|section|] == SetAll(section)
  {
  }

  /** A section applied key by key only sets properties. */
  lemma SetAllOnlySets(section: seq<(string, Value)>)
    ensures OnlySetProperty(SetAll(section))
    ensures forall call :: call in SetAll(section) ==> call.SetProperty?
  {
  }

  /** The properties section only sets properties. */
  lemma PropertyCallsShape(properties: Option<seq<(string, Value)>>)
    ensures forall call :: call in PropertyCalls(properties) ==> call.SetProperty?
  {
    if properties.Some? {
      SetAllOnlySets(properties.value);
    }
  }

  /**
   * The pipeline section's calls set properties and select at most the
   * chosen profile, or, when it is absent, switch off the speech pipeline
   * and automatic classification.
   */
  lemma {:induction false} PipelineCallsShape(pipeline: Option<seq<(string, Value)>>)
    requires PipelineCalls(pipeline).Success?
    ensures var pc := PipelineCalls(pipeline).value;
            (pipeline.None? ==> pc == [WithoutSpeechPipeline, WithoutAutoClassification]) &&
            (pipeline.Some? ==> forall call :: call in pc ==> call.SetProperty? || call.UseProfile?)
  {
    if pipeline.Some? {
      SetAllOnlySets(pipeline.value);
    }
  }

  /** The NLU section's calls set properties, or, when it is absent, switch off NLU and automatic classification. */
  lemma {:induction false} NluCallsShape(nlu: Option<seq<(string, Value)>>)
    ensures var nc := NluCalls(nlu);
            (nlu.None? ==> nc == [WithoutNlu, WithoutAutoClassification]) &&
            (nlu.Some? ==> forall call :: call in nc ==> call.SetProperty?)
  {
    if nlu.Some? {
      SetAllOnlySets(nlu.value);
    }
  }

  /**
   * The adapter is registered first, the host context second, and neither
   * call happens again; `withoutAutoPlayback` and `build` close the
   * sequence, and `build` happens exactly once.
   */
  lemma InitListenerFirstBuildLast(c: JavaConfig)
    requires InitPlan(c).Success?
    ensures var calls := InitPlan(c).value;
            |calls| >= 4 && calls[0] == AddListener && calls[1] == WithAndroidContext &&
            AddListener !in calls[1..] &&
            calls[|calls| - 2] == WithoutAutoPlayback && calls[|calls| - 1] == Build &&
            Build !in calls[..|calls| - 1]
  {
    PropertyCallsShape(c.properties);
    PipelineCallsShape(c.pipeline);
    NluCallsShape(c.nlu);
    AssembleOrder(PropertyCalls(c.properties), PipelineCalls(c.pipeline).value, NluCalls(c.nlu));
  }

  /**
   * The `properties` section is applied right after registration, before
   * any other section, with its keys verbatim; the `pipeline` section's
   * keys follow, also verbatim.
   */
  lemma InitPropertiesFirst(c: JavaConfig)
    requires InitPlan(c).Success?
    ensures var calls := InitPlan(c).value;
            var n := |PropertyCalls(c.properties)|;
            2 + n <= |calls| &&
            (c.properties.Some? ==> calls[2..2 + n] == SetAll(c.properties.value)) &&
            (c.pipeline.Some? ==>
               (2 + n + |c.pipeline.value| <= |calls| &&
                calls[2 + n..2 + n + |c.pipeline.value|] == SetAll(c.pipeline.value)))
  {
    var props := PropertyCalls(c.properties);
    var pc := PipelineCalls(c.pipeline).value;
    var nc := NluCalls(c.nlu);
    AssemblePropsAt(props, pc, nc);
    if c.pipeline.Some? {
      var section := c.pipeline.value;
      PipelineCallsPrefix(section);
      AssembleSectionAt(props, pc, nc, SetAll(section));
    }
  }

  /**
   * A missing `pipeline` section switches the speech pipeline off, a
   * missing `nlu` section switches NLU off, and either switches automatic
   * classification off; a present section switches nothing off.
   */
  lemma InitSectionSwitches(c: JavaConfig)
    requires InitPlan(c).Success?
    ensures var calls := InitPlan(c).value;
            (WithoutSpeechPipeline in calls <==> c.pipeline.None?) &&
            (WithoutNlu in calls <==> c.nlu.None?) &&
            (WithoutAutoClassification in calls <==> c.pipeline.None? || c.nlu.None?) &&
            WithoutWakeword !in calls
  {
    var props := PropertyCalls(c.properties);
    var pc := PipelineCalls(c.pipeline).value;
    var nc := NluCalls(c.nlu);
    PropertyCallsShape(c.properties);
    PipelineCallsShape(c.pipeline);
    NluCallsShape(c.nlu);
    AssembleMember(props, pc, nc, WithoutSpeechPipeline);
    AssembleMember(props, pc, nc, WithoutNlu);
    AssembleMember(props, pc, nc, WithoutAutoClassification);
    AssembleMember(props, pc, nc, WithoutWakeword);
  }

  /**
   * With a `profile` key in the pipeline section, `initialize` completes
   * exactly when the profile selects an entry, and then uses that entry's
   * class; without one, no profile is chosen.
   */
  lemma InitProfile(c: JavaConfig)
    ensures c.pipeline.Some? && Lookup(c.pipeline.value, "profile").Some? ==>
              var sel := ProfileSelection(Lookup(c.pipeline.value, "profile").value);
              (InitPlan(c).Success? <==> sel.Success?) &&
              (sel.Failure? ==> InitPlan(c) == Failure(sel.error)) &&
              (sel.Success? ==> UseProfile(ProfileClass(sel.value)) in InitPlan(c).value)
    ensures (c.pipeline.None? || Lookup(c.pipeline.value, "profile").None?) ==>
              InitPlan(c).Success? && forall call :: call in InitPlan(c).value ==> !call.UseProfile?
  {
    var props := PropertyCalls(c.properties);
    var nc := NluCalls(c.nlu);
    PropertyCallsShape(c.properties);
    NluCallsShape(c.nlu);
    if c.pipeline.Some? {
      SetAllOnlySets(c.pipeline.value);
    }
    var r := PipelineCalls(c.pipeline);
    if r.Success? {
      var pc := r.value;
      if c.pipeline.Some? && Lookup(c.pipeline.value, "profile").Some? {
        var sel := ProfileSelection(Lookup(c.pipeline.value, "profile").value);
        AssembleMember(props, pc, nc, UseProfile(ProfileClass(sel.value)));
      } else {
        forall call | call in Assemble(props, pc, nc) ensures !call.UseProfile? {
          AssembleMember(props, pc, nc, call);
        }
      }
    }
  }

  /** The message of the ERROR event an unsupported format produces. */
  function FormatMessage(format: int): string
  {
    "A format of " + IntToString(format) + FormatHint
  }

  const FormatHint: string := " is not supported. Please use an int between 0 and 2. Refer to documentation for further details."


  /** The event an unsupported format hands to the adapter: an ERROR TTS event without a response. */
  function FormatErrorEvent(format: int): (e: TtsEvent)
    ensures e.error == Some(FormatMessage(format)) && e.audioUri.None?
    ensures RNAdapter.EventReceived(e) ==
              Send(Emit(RNAdapter.ErrorChannel, Record(map["event" := Text("failure"), "error" := Text(FormatMessage(format))])))
  {
    TtsEvent(Some(TtsError), Some(FormatMessage(format)), None)
  }

  // ---------------------------------------------------------------------
  // The module object
  // ---------------------------------------------------------------------

  class RNSpokestackModule {
    /** `reactContext.hasActiveCatalystInstance()`. */
    var active: bool
    /** Every event handed to the host's event emitter, in order. */
    var emitted: seq<Emit>
    /** The built SDK object, or null before `initialize`. */
    var spokestack: Option<Assembly>
    /** Every call made on the SDK object, in order. */
    var sdkCalls: seq<SdkCall>

    constructor(active: bool)
      ensures this.active == active && emitted == [] && spokestack == None && sdkCalls == []
    {
      this.active := active;
      emitted := [];
      spokestack := None;
      sdkCalls := [];
    }

    /** `sendEvent`: emits only while the host instance is active. */
    method SendEvent(e: Emit)
      modifies this
      ensures emitted == if old(active) then old(emitted) + [e] else old(emitted)
      ensures active == old(active) && spokestack == old(spokestack) && sdkCalls == old(sdkCalls)
    {
      if active {
        emitted := emitted + [e];
      }
    }

    /** An adapter handler running on this module's `sendEvent`; a thrown exception is returned. */
    method OnAdapterInput(input: RNAdapter.AdapterInput) returns (thrown: Option<string>)
      modifies this
      ensures var d := RNAdapter.Handle(input);
              thrown == (if d.Throw? then Some(d.exception) else None) &&
              emitted == (if d.Send? && old(active) then old(emitted) + [d.emit] else old(emitted))
      ensures active == old(active) && spokestack == old(spokestack) && sdkCalls == old(sdkCalls)
    {
      var d := RNAdapter.Handle(input);
      thrown := None;
      match d
      case Send(e) => SendEvent(e);
      case NoSend =>
      case Throw(x) => thrown := Some(x);
    }

    /** `initialize`: builds the SDK object from the configuration, or throws and keeps the old one. */
    method Initialize(c: JavaConfig) returns (thrown: Option<string>)
      modifies this
      ensures InitPlan(c).Success? ==> thrown == None && spokestack == Some(Assembly(InitPlan(c).value))
      ensures InitPlan(c).Failure? ==> thrown == Some(InitPlan(c).error) && spokestack == old(spokestack)
      ensures active == old(active) && emitted == old(emitted) && sdkCalls == old(sdkCalls)
    {
      var calls := [AddListener, WithAndroidContext];
      if c.properties.Some? {
        calls := ApplySection(calls, c.properties.value);
      }
      assert calls == [AddListener, WithAndroidContext] + PropertyCalls(c.properties);
      var prefix := calls;
      if c.pipeline.Some? {
        var applied := ApplyPipeline(calls, c.pipeline.value);
        if applied.Failure? {
          return Some(applied.error);
        }
        calls := applied.value;
      } else {
        calls := calls + [WithoutSpeechPipeline, WithoutAutoClassification];
      }
      assert calls == prefix + PipelineCalls(c.pipeline).value;
      if c.nlu.Some? {
        calls := ApplySection(calls, c.nlu.value);
      } else {
        calls := calls + [WithoutNlu, WithoutAutoClassification];
      }
      calls := calls + [WithoutAutoPlayback, Build];
      assert calls == Assemble(PropertyCalls(c.properties), PipelineCalls(c.pipeline).value, NluCalls(c.nlu));
      spokestack := Some(Assembly(calls));
      thrown := None;
    }

    /** `synthesize`: an unsupported format becomes one ERROR event through the adapter and no SDK call. */
    method Synthesize(input: string, format: int, voice: string) returns (thrown: Option<string>)
      modifies this
      ensures !(0 <= format <= 2) ==>
                thrown == None && sdkCalls == old(sdkCalls) &&
                emitted == (if old(active) then old(emitted) + [RNAdapter.EventReceived(FormatErrorEvent(format)).emit]
                            else old(emitted))
      ensures 0 <= format <= 2 && old(spokestack).None? ==>
                thrown == Some("NullPointerException") && sdkCalls == old(sdkCalls) && emitted == old(emitted)
      ensures 0 <= format <= 2 && old(spokestack).Some? ==>
                thrown == None && emitted == old(emitted) &&
                sdkCalls == old(sdkCalls) + [SynthesizeCall(SynthesisRequest(input, ModeAt(format).value, voice))]
      ensures active == old(active) && spokestack == old(spokestack)
    {
      if format > 2 || format < 0 {
        thrown := OnAdapterInput(RNAdapter.TtsIn(FormatErrorEvent(format)));
      } else if spokestack.None? {
        thrown := Some("NullPointerException");
      } else {
        sdkCalls := sdkCalls + [SynthesizeCall(SynthesisRequest(input, ModeAt(format).value, voice))];
        thrown := None;
      }
    }

    /** `onCatalystInstanceDestroy`: stops the SDK only when it has a speech pipeline. */
    method OnCatalystInstanceDestroy() returns (thrown: Option<string>)
      modifies this
      ensures old(spokestack).None? ==> thrown == Some("NullPointerException") && sdkCalls == old(sdkCalls)
      ensures old(spokestack).Some? ==>
                (thrown == None &&
                 sdkCalls == (if old(spokestack).value.HasSpeechPipeline() then old(sdkCalls) + [StopCall] else old(sdkCalls)))
      ensures active == old(active) && emitted == old(emitted) && spokestack == old(spokestack)
    {
      if spokestack.None? {
        return Some("NullPointerException");
      }
      thrown := None;
      if spokestack.value.HasSpeechPipeline() {
        sdkCalls := sdkCalls + [StopCall];
      }
    }

    /** `start` and `stop`: forwarded to the speech pipeline, which must exist. */
    method PipelineControl(start: bool) returns (thrown: Option<string>)
      modifies this
      ensures old(spokestack).None? || !old(spokestack).value.HasSpeechPipeline() ==>
                thrown == Some("NullPointerException") && sdkCalls == old(sdkCalls)
      ensures old(spokestack).Some? && old(spokestack).value.HasSpeechPipeline() ==>
                thrown == None && sdkCalls == old(sdkCalls) + [if start then PipelineStart else PipelineStop]
      ensures active == old(active) && emitted == old(emitted) && spokestack == old(spokestack)
    {
      if spokestack.None? || !spokestack.value.HasSpeechPipeline() {
        return Some("NullPointerException");
      }
      sdkCalls := sdkCalls + [if start then PipelineStart else PipelineStop];
      thrown := None;
    }

    /** `activate`, `deactivate` and `classify`: forwarded to the SDK object, which must exist. */
    method Forward(call: SdkCall) returns (thrown: Option<string>)
      requires call == ActivateCall || call == DeactivateCall || call.ClassifyCall?
      modifies this
      ensures old(spokestack).None? ==> thrown == Some("NullPointerException") && sdkCalls == old(sdkCalls)
      ensures old(spokestack).Some? ==> thrown == None && sdkCalls == old(sdkCalls) + [call]
      ensures active == old(active) && emitted == old(emitted) && spokestack == old(spokestack)
    {
      if spokestack.None? {
        return Some("NullPointerException");
      }
      sdkCalls := sdkCalls + [call];
      thrown := None;
    }
  }

  /** The `pipeline` section's part of `initialize`: its properties, then the profile it names, if any. */
  method ApplyPipeline(calls: seq<BuilderCall>, section: seq<(string, Value)>) returns (r: Result<seq<BuilderCall>, string>)
    ensures PipelineCalls(Some(section)).Failure? ==> r == Failure(PipelineCalls(Some(section)).error)
    ensures PipelineCalls(Some(section)).Success? ==> r == Success(calls + PipelineCalls(Some(section)).value)
  {
    var applied := ApplySection(calls, section);
    var profile := Lookup(section, "profile");
    if profile.None? {
      assert PipelineCalls(Some(section)) == Success(SetAll(section));
      return Success(applied);
    }
    var selected := ProfileSelection(profile.value);
    if selected.Failure? {
      assert PipelineCalls(Some(section)) == Failure(selected.error);
      return Failure(selected.error);
    }
    var use := UseProfile(ProfileClass(selected.value));
    assert PipelineCalls(Some(section)) == Success(SetAll(section) + [use]);
    assert applied + [use] == calls + (SetAll(section) + [use]);
    r := Success(applied + [use]);
  }

  /** `setProperty(k, v)` for each entry of a section, in iteration order. */
  method ApplySection(calls: seq<BuilderCall>, section: seq<(string, Value)>) returns (r: seq<BuilderCall>)
    ensures r == calls + SetAll(section)
  {
    r := calls;
    var i := 0;
    while i < |section|
      invariant 0 <= i <= |section|
      invariant r == calls + SetAll(section[..i])
    {
      SetAllSnoc(section, i);
      r := r + [SetProperty(section[i].0, section[i].1)];
      i := i + 1;
    }
    assert section[..i] == section;
  }

  lemma SetAllSnoc(section: seq<(string, Value)>, i: nat)
    requires i < |section|
    ensures SetAll(section[..i + 1]) == SetAll(section[..i]) + [SetProperty(section[i].0, section[i].1)]
  {
    var a := SetAll(section[..i + 1]);
    var b := SetAll(section[..i]) + [SetProperty(section[i].0, section[i].1)];
    assert |a| == |b|;
    forall j | 0 <= j < |a| ensures a[j] == b[j] {
      assert section[..i + 1][j] == section[j];
      if j < i { assert section[..i][j] == section[j]; }
    }
  }
}
