/**
 * The Kotlin native module of the `com.reactnativespokestack` package: the
 * camelCase to kebab-case key rewrite, the translation of the host's
 * configuration into builder calls (with wakeword and NLU switched off
 * unless all three of their model files are given), the TTS format check,
 * and the table of pending host promises that adapter events settle.
 */
module KtModule {
  import opened Bridge
  import opened SdkEvents
  import opened SpokestackBuilder
  import KtAdapter

  // ---------------------------------------------------------------------
  // kebabCase
  // ---------------------------------------------------------------------

  /** A lowercase ASCII letter at `i` directly followed by an uppercase one. */
  predicate Boundary(s: string, i: int)
  {
    0 <= i && i + 1 < |s| && IsLowerAscii(s[i]) && IsUpperAscii(s[i + 1])
  }

  /** The number of lowercase-to-uppercase adjacencies in `s`. */
  function Boundaries(s: string): nat
  {
    if |s| < 2 then 0 else (if Boundary(s, 0) then 1 else 0) + Boundaries(s[1..])
  }

  /**
   * `kebabCase`: every match of `([a-z])([A-Z])`, scanned left to right,
   * becomes the lowercase letter, a hyphen and the uppercase letter
   * lowercased.
   */
  function KebabCase(s: string): (r: string)
    ensures |r| == |s| + Boundaries(s)
  {
    if |s| < 2 then s
    else if Boundary(s, 0) then [s[0], '-', LowerChar(s[1])] + KebabCase(s[2..])
    else [s[0]] + KebabCase(s[1..])
  }

  /** What `kebabCase` makes of the character at `i`, judged on the original string. */
  function Piece(s: string, i: nat): string
    requires i < |s|
  {
    if i > 0 && Boundary(s, i - 1) then ['-', LowerChar(s[i])] else [s[i]]
  }

  /** The pieces of the characters from `i` on, concatenated. */
  function PiecesFrom(s: string, i: nat): string
    requires i <= |s|
    decreases |s| - i
  {
    if i == |s| then [] else Piece(s, i) + PiecesFrom(s, i + 1)
  }

  lemma {:induction false} KebabCaseFrom(s: string, i: nat)
    requires i <= |s|
    requires !Boundary(s, i - 1)
    ensures KebabCase(s[i..]) == PiecesFrom(s, i)
    decreases |s| - i
  {
    var t := s[i..];
    if |t| < 2 {
      if i < |s| {
        assert i + 1 == |s|;
        assert PiecesFrom(s, i + 1) == [];
      }
    } else if Boundary(s, i) {
      assert Boundary(t, 0);
      assert t[2..] == s[i + 2..];
      assert !Boundary(s, i + 1);
      KebabCaseFrom(s, i + 2);
      assert Piece(s, i + 1) == ['-', LowerChar(s[i + 1])];
      assert PiecesFrom(s, i) == [s[i]] + (['-', LowerChar(s[i + 1])] + PiecesFrom(s, i + 2));
    } else {
      assert !Boundary(t, 0);
      assert t[1..] == s[i + 1..];
      KebabCaseFrom(s, i + 1);
    }
  }

  /**
   * `kebabCase` keeps every character but inserts a hyphen before each
   * uppercase letter that directly follows a lowercase one, and lowercases
   * that letter.
   */
  lemma KebabCaseSpec(s: string)
    ensures KebabCase(s) == PiecesFrom(s, 0)
  {
    assert s[0..] == s;
    KebabCaseFrom(s, 0);
  }

  /** A string without lowercase-to-uppercase adjacency is left unchanged. */
  lemma {:induction false} KebabCaseIdentity(s: string)
    requires forall i :: 0 <= i < |s| ==> !Boundary(s, i)
    ensures KebabCase(s) == s
  {
    if |s| >= 2 {
      assert !Boundary(s, 0);
      forall i | 0 <= i < |s[1..]| ensures !Boundary(s[1..], i) {
        assert !Boundary(s, i + 1);
      }
      KebabCaseIdentity(s[1..]);
    }
  }

  // ---------------------------------------------------------------------
  // Key mapping of the wakeword and NLU sections
  // ---------------------------------------------------------------------

  /** The builder key a section key maps to, and whether it names a model file. */
  datatype KeyMapping = KeyMapping(name: string, isFile: bool)

  const WakeFileKeys: set<string> := {"filterPath", "detectPath", "encodePath"}
  const NluFileKeys: set<string> := {"modelPath", "metadataPath", "vocabPath"}

  /** The wakeword keys with a fixed builder key. */
  const WakeTable: map<string, KeyMapping> := map[
    "filterPath" := KeyMapping("wake-filter-path", true),
    "detectPath" := KeyMapping("wake-detect-path", true),
    "encodePath" := KeyMapping("wake-encode-path", true),
    "activeMin" := KeyMapping("wake-active-min", false),
    "activeMax" := KeyMapping("wake-active-max", false),
    "encodeLength" := KeyMapping("wake-encode-length", false),
    "encodeWidth" := KeyMapping("wake-encode-width", false),
    "stateWidth" := KeyMapping("wake-state-width", false),
    "threshold" := KeyMapping("wake-threshold", false)]

  /** The NLU keys the module reads; every other key is ignored. */
  const NluTable: map<string, KeyMapping> := map[
    "modelPath" := KeyMapping("nlu-model-path", true),
    "metadataPath" := KeyMapping("nlu-metadata-path", true),
    "vocabPath" := KeyMapping("wordpiece-vocab-path", true),
    "inputLength" := KeyMapping("nlu-input-length", false)]

  /** The wakeword section's key mapping; a key outside the table is kebab-cased. */
  function WakeKey(key: string): (m: KeyMapping)
    ensures key in WakeTable ==> m == WakeTable[key]
    ensures key !in WakeTable ==> m == KeyMapping(KebabCase(key), false)
  {
    if key in WakeTable then WakeTable[key] else KeyMapping(KebabCase(key), false)
  }

  /** Exactly the three model-file keys count towards `wakeFiles`. */
  lemma WakeKeyIsFile(key: string)
    ensures WakeKey(key).isFile <==> key in WakeFileKeys
  {
  }

  /** The NLU section's key mapping; a key outside the table is ignored. */
  function NluKey(key: string): (m: Option<KeyMapping>)
    ensures key in NluTable ==> m == Some(NluTable[key])
    ensures key !in NluTable ==> m.None?
  {
    if key in NluTable then Some(NluTable[key]) else None
  }

  /** Exactly the three NLU file keys count towards `nluFiles`, and only table keys are set. */
  lemma NluKeyIsFile(key: string)
    ensures NluKey(key).Some? && NluKey(key).value.isFile <==> key in NluFileKeys
    ensures NluKey(key).None? <==> key !in NluFileKeys && key != "inputLength"
  {
  }

  /** The pipeline section's calls: every key kebab-cased, in iteration order. */
  function KebabCalls(section: seq<(string, Value)>): seq<BuilderCall>
  {
    if section == [] then []
    else
      var last := section[|section| - 1];
      KebabCalls(section[..|section| - 1]) + [SetProperty(KebabCase(last.0), last.1)]
  }

  /** The wakeword section's calls, in iteration order. */
  function WakeCalls(section: seq<(string, Value)>): seq<BuilderCall>
  {
    if section == [] then []
    else
      var last := section[|section| - 1];
      WakeCalls(section[..|section| - 1]) + [SetProperty(WakeKey(last.0).name, last.1)]
  }

  /** `wakeFiles` after the wakeword loop. */
  function WakeFiles(section: seq<(string, Value)>): nat
  {
    if section == [] then 0
    else WakeFiles(section[..|section| - 1]) + (if WakeKey(section[|section| - 1].0).isFile then 1 else 0)
  }

  /** The NLU section's calls, in iteration order; unknown keys make none. */
  function NluSetCalls(section: seq<(string, Value)>): seq<BuilderCall>
  {
    if section == [] then []
    else
      var last := section[|section| - 1];
      var m := NluKey(last.0);
      NluSetCalls(section[..|section| - 1]) + (if m.Some? then [SetProperty(m.value.name, last.1)] else [])
  }

  /** `nluFiles` after the NLU loop. */
  function NluFiles(section: seq<(string, Value)>): nat
  {
    if section == [] then 0
    else
      var m := NluKey(section[|section| - 1].0);
      NluFiles(section[..|section| - 1]) + (if m.Some? && m.value.isFile then 1 else 0)
  }

  function Has<V>(section: seq<(string, V)>, key: string): nat
  {
    if key in KeySet(section) then 1 else 0
  }

  /** With distinct keys, `wakeFiles` counts which of the three file keys are present. */
  lemma {:induction false} WakeFilesSeen(section: seq<(string, Value)>)
    requires DistinctKeys(section)
    ensures WakeFiles(section) == Has(section, "filterPath") + Has(section, "detectPath") + Has(section, "encodePath")
  {
    if section != [] {
      KeySetSnoc(section);
      WakeKeyIsFile(section[|section| - 1].0);
      WakeFilesSeen(section[..|section| - 1]);
    }
  }

  /** With distinct keys, `nluFiles` counts which of the three NLU file keys are present. */
  lemma {:induction false} NluFilesSeen(section: seq<(string, Value)>)
    requires DistinctKeys(section)
    ensures NluFiles(section) == Has(section, "modelPath") + Has(section, "metadataPath") + Has(section, "vocabPath")
  {
    if section != [] {
      KeySetSnoc(section);
      NluKeyIsFile(section[|section| - 1].0);
      NluFilesSeen(section[..|section| - 1]);
    }
  }

  lemma {:induction false} SectionCallsOnlySet(section: seq<(string, Value)>)
    ensures OnlySetProperty(KebabCalls(section))
    ensures OnlySetProperty(WakeCalls(section))
    ensures OnlySetProperty(NluSetCalls(section))
  {
    if section != [] {
      SectionCallsOnlySet(section[..|section| - 1]);
    }
  }

  // ---------------------------------------------------------------------
  // Profile selection
  // ---------------------------------------------------------------------

  /**
   * `map["profile"] as Int`, as written: only a boxed `Int` passes the
   * cast; null and every other class throw.
   */
  function ProfileCastAsWritten(v: Value): (r: Result<int, string>)
    ensures r.Success? <==> v.Number? && v.kind == IntegerK
  {
    match v
    case Null => Failure("NullPointerException")
    case Number(kind, x, _) => if kind == IntegerK then Success(x.Floor) else Failure("ClassCastException")
    case _ => Failure("ClassCastException")
  }

  /**
   * Numbers reach `initialize` as `Double`s (the host's map conversion
   * boxes every number that way), so the cast as written throws for every
   * numeric profile, including valid ones such as 2.
   */
  lemma ProfileCastRejectsDoubles(x: real, text: string)
    ensures ProfileCastAsWritten(Number(DoubleK, x, text)) == Failure("ClassCastException")
  {
  }

  /** The intended ordinal: the profile's numeric value, converted as `Number.toInt()`. */
  function ProfileOrdinal(v: Value): (r: Result<int, string>)
    ensures v.Number? ==> r == Success(DoubleToInt(v.x))
    ensures !v.Number? ==> r.Failure?
  {
    match v
    case Null => Failure("NullPointerException")
    case Number(_, x, _) => Success(DoubleToInt(x))
    case _ => Failure("ClassCastException")
  }

  /** Under the intended conversion every profile is reachable by its own ordinal, as a `Double`. */
  lemma ProfileOrdinalSelects(p: PipelineProfile, text: string)
    ensures var r := ProfileOrdinal(Number(DoubleK, Ordinal(p) as real, text));
            r.Success? && ProfileAt(r.value) == Success(p)
  {
    assert (Ordinal(p) as real).Floor == Ordinal(p);
  }

  // ---------------------------------------------------------------------
  // The initialize plan
  // ---------------------------------------------------------------------

  /** A configuration map: the trace level and the entry lists of the three sections (absent or null: `None`). */
  datatype KtConfig = KtConfig(
    traceLevel: Option<int>,
    pipeline: Option<seq<(string, Value)>>,
    wakeword: Option<seq<(string, Value)>>,
    nlu: Option<seq<(string, Value)>>)

  /** How `initialize` ends: rejected for missing credentials, thrown, or built from these calls. */
  datatype InitOutcome = MissingCredentials | InitThrows(exception: string) | Built(calls: seq<BuilderCall>)

  const CredentialsMessage: string := "Client ID and Client Secret are required to initialize Spokestack"

  function IntValue(i: int): Value
  {
    Number(IntegerK, i as real, IntToString(i))
  }

  const IdKey: string := "spokestack-id"
  const SecretKey: string := "spokestack-secret"
  const TraceKey: string := "trace-level"

  /** Registration, credentials and trace level. */
  function HeaderCalls(clientId: string, clientSecret: string, traceLevel: Option<int>): seq<BuilderCall>
  {
    [AddListener, WithAndroidContext, SetProperty(IdKey, Str(clientId)), SetProperty(SecretKey, Str(clientSecret))]
    + (if traceLevel.Some? then [SetProperty(TraceKey, IntValue(traceLevel.value))] else [])
  }

  /** The header registers the adapter once, first, then sets the credentials verbatim; nothing else follows but the trace level. */
  lemma HeaderShape(clientId: string, clientSecret: string, traceLevel: Option<int>)
    ensures var h := HeaderCalls(clientId, clientSecret, traceLevel);
            |h| >= 4 && h[0] == AddListener && h[1] == WithAndroidContext &&
            h[2] == SetProperty(IdKey, Str(clientId)) && h[3] == SetProperty(SecretKey, Str(clientSecret)) &&
            AddListener !in h[1..] &&
            forall call :: call in h ==> call == AddListener || call == WithAndroidContext || call.SetProperty?
  {
    var h := HeaderCalls(clientId, clientSecret, traceLevel);
    var tail := if traceLevel.Some? then [SetProperty(TraceKey, IntValue(traceLevel.value))] else [];
    assert h[1..] == [WithAndroidContext, SetProperty(IdKey, Str(clientId)), SetProperty(SecretKey, Str(clientSecret))] + tail;
  }

  /** The pipeline section's calls, or the exception profile selection throws. */
  function PipelineSection(pipeline: Option<seq<(string, Value)>>): Result<seq<BuilderCall>, string>
  {
    match pipeline
    case None => Success([])
    case Some(section) =>
      match Lookup(section, "profile")
      case None => Success(KebabCalls(section))
      case Some(v) =>
        match ProfileOrdinal(v)
        case Failure(e) => Failure(e)
        case Success(i) =>
          match ProfileAt(i)
          case Failure(e) => Failure(e)
          case Success(p) => Success(KebabCalls(section) + [UseProfile(ProfileClass(p))])
  }

  /**
   * The pipeline section sets properties and, when it names a profile,
   * selects exactly that one; it throws exactly when the profile is not a
   * number or its ordinal is outside 0..5.
   */
  lemma PipelineSectionShape(pipeline: Option<seq<(string, Value)>>)
    ensures var r := PipelineSection(pipeline);
            var profile := if pipeline.Some? then Lookup(pipeline.value, "profile") else None;
            (r.Success? ==> forall call :: call in r.value ==> call.SetProperty? || call.UseProfile?) &&
            (profile.None? ==> r.Success? && forall call :: call in r.value ==> call.SetProperty?) &&
            (profile.Some? ==>
               var ord := ProfileOrdinal(profile.value);
               (r.Success? <==> ord.Success? && 0 <= ord.value < ProfileCount) &&
               (r.Success? ==> UseProfile(ProfileClass(ProfileAt(ord.value).value)) in r.value))
  {
    if pipeline.Some? {
      SectionCallsOnlySet(pipeline.value);
    }
  }

  function WakeSection(wakeword: Option<seq<(string, Value)>>): seq<BuilderCall>
  {
    var files := if wakeword.Some? then WakeFiles(wakeword.value) else 0;
    (if wakeword.Some? then WakeCalls(wakeword.value) else []) + (if files != 3 then [WithoutWakeword] else [])
  }

  /** Wakeword is switched off exactly when the section is absent or misses one of the three model files. */
  lemma WakeSectionSwitch(wakeword: Option<seq<(string, Value)>>)
    requires wakeword.Some? ==> DistinctKeys(wakeword.value)
    ensures var ws := WakeSection(wakeword);
            (WithoutWakeword in ws <==> !(wakeword.Some? && WakeFileKeys <= KeySet(wakeword.value))) &&
            forall call :: call in ws ==> call.SetProperty? || call == WithoutWakeword
  {
    if wakeword.Some? {
      WakeFilesSeen(wakeword.value);
      SectionCallsOnlySet(wakeword.value);
    }
  }

  function NluSection(nlu: Option<seq<(string, Value)>>): seq<BuilderCall>
  {
    var files := if nlu.Some? then NluFiles(nlu.value) else 0;
    (if nlu.Some? then NluSetCalls(nlu.value) else []) + (if files != 3 then [WithoutNlu] else [])
  }

  /** NLU is switched off exactly when the section is absent or misses one of its three files. */
  lemma NluSectionSwitch(nlu: Option<seq<(string, Value)>>)
    requires nlu.Some? ==> DistinctKeys(nlu.value)
    ensures var ns := NluSection(nlu);
            (WithoutNlu in ns <==> !(nlu.Some? && NluFileKeys <= KeySet(nlu.value))) &&
            forall call :: call in ns ==> call.SetProperty? || call == WithoutNlu
  {
    if nlu.Some? {
      NluFilesSeen(nlu.value);
      SectionCallsOnlySet(nlu.value);
    }
  }

  /** The profile every plan selects before the pipeline section. */
  const DefaultProfile: BuilderCall := UseProfile(ProfileClass(PTTNativeASR))

  /** The built call list: header, default profile, the three sections, no autoplay, build. */
  function Assemble(header: seq<BuilderCall>, pc: seq<BuilderCall>, ws: seq<BuilderCall>, ns: seq<BuilderCall>): seq<BuilderCall>
  {
    header + [DefaultProfile] + pc + ws + ns + [WithoutAutoPlayback, Build]
  }

  /** An assembled list holds exactly the calls of its parts. */
  lemma AssembleMember(header: seq<BuilderCall>, pc: seq<BuilderCall>, ws: seq<BuilderCall>, ns: seq<BuilderCall>, x: BuilderCall)
    ensures x in Assemble(header, pc, ws, ns) <==>
              x in header || x == DefaultProfile || x in pc || x in ws || x in ns || x == WithoutAutoPlayback || x == Build
  {
  }

  /**
   * Assembled from a header that registers the adapter first and never
   * again, and sections that neither register nor build, the list starts
   * with the header, selects the default profile right after it, and
   * builds exactly once, last.
   */
  lemma AssembleOrder(header: seq<BuilderCall>, pc: seq<BuilderCall>, ws: seq<BuilderCall>, ns: seq<BuilderCall>)
    requires |header| > 0 && header[0] == AddListener && AddListener !in header[1..] && Build !in header
    requires AddListener !in pc && AddListener !in ws && AddListener !in ns
    requires Build !in pc && Build !in ws && Build !in ns
    ensures var calls := Assemble(header, pc, ws, ns);
            |calls| == |header| + |pc| + |ws| + |ns| + 3 &&
            calls[..|header|] == header && calls[|header|] == DefaultProfile &&
            calls[|calls| - 2] == WithoutAutoPlayback && calls[|calls| - 1] == Build &&
            Build !in calls[..|calls| - 1] && AddListener !in calls[1..]
  {
    var calls := Assemble(header, pc, ws, ns);
    var body := header + [DefaultProfile] + pc + ws + ns;
    assert calls == body + [WithoutAutoPlayback, Build];
    assert calls[..|calls| - 1] == body + [WithoutAutoPlayback];
    assert calls[1..] == header[1..] + [DefaultProfile] + pc + ws + ns + [WithoutAutoPlayback, Build];
  }

  /** Everything `initialize` does with the builder, in order. */
  function KtInitPlan(clientId: string, clientSecret: string, c: KtConfig): InitOutcome
  {
    if clientId == "" || clientSecret == "" then MissingCredentials
    else
      match PipelineSection(c.pipeline)
      case Failure(e) => InitThrows(e)
      case Success(pc) =>
        Built(Assemble(HeaderCalls(clientId, clientSecret, c.traceLevel), pc, WakeSection(c.wakeword), NluSection(c.nlu)))
  }

  /** Empty credentials stop `initialize` before anything is built; non-empty ones never do. */
  lemma KtInitCredentials(clientId: string, clientSecret: string, c: KtConfig)
    ensures KtInitPlan(clientId, clientSecret, c).MissingCredentials? <==> clientId == "" || clientSecret == ""
  {
  }

  /** The wakeword and NLU sections only set properties and switch their own feature off. */
  lemma SectionShapes(wakeword: Option<seq<(string, Value)>>, nlu: Option<seq<(string, Value)>>)
    ensures forall call :: call in WakeSection(wakeword) ==> call.SetProperty? || call == WithoutWakeword
    ensures forall call :: call in NluSection(nlu) ==> call.SetProperty? || call == WithoutNlu
  {
    if wakeword.Some? { SectionCallsOnlySet(wakeword.value); }
    if nlu.Some? { SectionCallsOnlySet(nlu.value); }
  }

  /**
   * A built plan registers the adapter first, sets both credentials
   * verbatim, and ends with `withoutAutoPlayback` and the one `build`.
   */
  lemma KtInitOrder(clientId: string, clientSecret: string, c: KtConfig)
    requires KtInitPlan(clientId, clientSecret, c).Built?
    ensures var calls := KtInitPlan(clientId, clientSecret, c).calls;
            |calls| >= 7 && calls[0] == AddListener && calls[1] == WithAndroidContext &&
            calls[2] == SetProperty(IdKey, Str(clientId)) &&
            calls[3] == SetProperty(SecretKey, Str(clientSecret)) &&
            calls[|calls| - 2] == WithoutAutoPlayback && calls[|calls| - 1] == Build &&
            Build !in calls[..|calls| - 1] && AddListener !in calls[1..]
  {
    var header := HeaderCalls(clientId, clientSecret, c.traceLevel);
    var pc := PipelineSection(c.pipeline).value;
    var ws := WakeSection(c.wakeword);
    var ns := NluSection(c.nlu);
    HeaderShape(clientId, clientSecret, c.traceLevel);
    PipelineSectionShape(c.pipeline);
    SectionShapes(c.wakeword, c.nlu);
    AssembleOrder(header, pc, ws, ns);
    var calls := Assemble(header, pc, ws, ns);
    assert calls[..|header|][..4] == header[..4];
  }

  /**
   * Wakeword is switched off unless its section names all three model
   * files, and NLU unless its section names all three of its files; the
   * speech pipeline itself is never switched off.
   */
  lemma KtInitSwitches(clientId: string, clientSecret: string, c: KtConfig)
    requires KtInitPlan(clientId, clientSecret, c).Built?
    requires c.wakeword.Some? ==> DistinctKeys(c.wakeword.value)
    requires c.nlu.Some? ==> DistinctKeys(c.nlu.value)
    ensures var calls := KtInitPlan(clientId, clientSecret, c).calls;
            (WithoutWakeword !in calls <==> c.wakeword.Some? && WakeFileKeys <= KeySet(c.wakeword.value)) &&
            (WithoutNlu !in calls <==> c.nlu.Some? && NluFileKeys <= KeySet(c.nlu.value)) &&
            WithoutSpeechPipeline !in calls
  {
    KtWakewordSwitch(clientId, clientSecret, c);
    KtNluSwitch(clientId, clientSecret, c);
    KtPipelineNeverOff(clientId, clientSecret, c);
  }

  /** Wakeword is switched off unless the section names all three of its files. */
  lemma KtWakewordSwitch(clientId: string, clientSecret: string, c: KtConfig)
    requires KtInitPlan(clientId, clientSecret, c).Built?
    requires c.wakeword.Some? ==> DistinctKeys(c.wakeword.value)
    ensures WithoutWakeword !in KtInitPlan(clientId, clientSecret, c).calls <==>
            c.wakeword.Some? && WakeFileKeys <= KeySet(c.wakeword.value)
  {
    var header := HeaderCalls(clientId, clientSecret, c.traceLevel);
    var pc := PipelineSection(c.pipeline).value;
    HeaderShape(clientId, clientSecret, c.traceLevel);
    PipelineSectionShape(c.pipeline);
    WakeSectionSwitch(c.wakeword);
    SectionShapes(c.wakeword, c.nlu);
    AssembleMember(header, pc, WakeSection(c.wakeword), NluSection(c.nlu), WithoutWakeword);
  }

  /** NLU is switched off unless its section names all three of its files. */
  lemma KtNluSwitch(clientId: string, clientSecret: string, c: KtConfig)
    requires KtInitPlan(clientId, clientSecret, c).Built?
    requires c.nlu.Some? ==> DistinctKeys(c.nlu.value)
    ensures WithoutNlu !in KtInitPlan(clientId, clientSecret, c).calls <==>
            c.nlu.Some? && NluFileKeys <= KeySet(c.nlu.value)
  {
    var header := HeaderCalls(clientId, clientSecret, c.traceLevel);
    var pc := PipelineSection(c.pipeline).value;
    HeaderShape(clientId, clientSecret, c.traceLevel);
    PipelineSectionShape(c.pipeline);
    NluSectionSwitch(c.nlu);
    SectionShapes(c.wakeword, c.nlu);
    AssembleMember(header, pc, WakeSection(c.wakeword), NluSection(c.nlu), WithoutNlu);
  }

  /** The speech pipeline itself is never switched off. */
  lemma KtPipelineNeverOff(clientId: string, clientSecret: string, c: KtConfig)
    requires KtInitPlan(clientId, clientSecret, c).Built?
    ensures WithoutSpeechPipeline !in KtInitPlan(clientId, clientSecret, c).calls
  {
    var header := HeaderCalls(clientId, clientSecret, c.traceLevel);
    var pc := PipelineSection(c.pipeline).value;
    HeaderShape(clientId, clientSecret, c.traceLevel);
    PipelineSectionShape(c.pipeline);
    SectionShapes(c.wakeword, c.nlu);
    AssembleMember(header, pc, WakeSection(c.wakeword), NluSection(c.nlu), WithoutSpeechPipeline);
  }

  /**
   * The profile defaults to push-to-talk with native ASR, selected right
   * after the header; a `profile` key adds the selected entry, an ordinal
   * outside 0..5 or a non-numeric value throws instead of building, and
   * without a `profile` key the default is the only profile selected.
   */
  lemma KtInitProfile(clientId: string, clientSecret: string, c: KtConfig)
    requires clientId != "" && clientSecret != ""
    ensures var plan := KtInitPlan(clientId, clientSecret, c);
            var profile := if c.pipeline.Some? then Lookup(c.pipeline.value, "profile") else None;
            (plan.Built? ==> plan.calls[|HeaderCalls(clientId, clientSecret, c.traceLevel)|] == DefaultProfile) &&
            (profile.None? ==> plan.Built? && forall call :: call in plan.calls && call.UseProfile? ==> call == DefaultProfile) &&
            (profile.Some? ==>
               var ord := ProfileOrdinal(profile.value);
               (plan.Built? <==> ord.Success? && 0 <= ord.value < ProfileCount) &&
               (plan.Built? ==> UseProfile(ProfileClass(ProfileAt(ord.value).value)) in plan.calls))
  {
    var header := HeaderCalls(clientId, clientSecret, c.traceLevel);
    HeaderShape(clientId, clientSecret, c.traceLevel);
    PipelineSectionShape(c.pipeline);
    SectionShapes(c.wakeword, c.nlu);
    var r := PipelineSection(c.pipeline);
    if r.Success? {
      var pc := r.value;
      var ws := WakeSection(c.wakeword);
      var ns := NluSection(c.nlu);
      AssembleOrder(header, pc, ws, ns);
      if c.pipeline.Some? && Lookup(c.pipeline.value, "profile").Some? {
        var chosen := UseProfile(ProfileClass(ProfileAt(ProfileOrdinal(Lookup(c.pipeline.value, "profile").value).value).value));
        AssembleMember(header, pc, ws, ns, chosen);
      } else {
        forall call | call in Assemble(header, pc, ws, ns) && call.UseProfile? ensures call == DefaultProfile {
          AssembleMember(header, pc, ws, ns, call);
        }
      }
    }
  }

  // ---------------------------------------------------------------------
  // Promise settlement of adapter events
  // ---------------------------------------------------------------------

  /** The event names `sendEvent` acts on, which are also the keys of their pending promises. */
  const ErrorKey: string := "error"
  const SynthesizeKey: string := "synthesize"
  const ClassifyKey: string := "classify"
  const SpeakKey: string := "speak"

  /** The rejection `sendEvent` gives the promise pending under `key` when an error arrives. */
  function Rejection(key: string, p: PromiseId): Settlement
  {
    Rejected(p, None, "Error in Spokestack during " + key + ".")
  }

  /** `rs` rejects every promise of the table once, in some order, and nothing else. */
  predicate RejectsEach(rs: seq<Settlement>, table: map<string, PromiseId>)
  {
    |rs| == |table.Keys| &&
    (forall j :: 0 <= j < |rs| ==> exists k :: k in table && rs[j] == Rejection(k, table[k])) &&
    (forall k :: k in table ==> Rejection(k, table[k]) in rs)
  }

  /** `after` extends `before` with exactly one rejection for each promise of `table`. */
  predicate RejectedAfter(before: seq<Settlement>, after: seq<Settlement>, table: map<string, PromiseId>)
  {
    |after| >= |before| && after[..|before|] == before && RejectsEach(after[|before|..], table)
  }

  /** The string under `key` in an event payload, when there is one. */
  function StringField(params: Data, key: string): (r: Option<string>)
    ensures r.Some? <==> Field(params, key).Some? && Field(params, key).value.Scalar? && Field(params, key).value.v.Str?
  {
    match Field(params, key)
    case Some(Scalar(Str(s))) => Some(s)
    case _ => None
  }

  /**
   * The value the pending `classify` promise receives, as written:
   * `params.getMap("result")`.
   */
  function ClassifyResolutionAsWritten(params: Data): (r: Data)
    ensures Field(params, "result").None? ==> r == NullData
  {
    match Field(params, "result")
    case Some(Record(m)) => Record(m)
    case _ => NullData
  }

  /**
   * The adapter's `classify` payload has no `result` key, so as written the
   * `classify` promise never receives the classification.
   */
  lemma ClassifyResolvesNothing(r: NluResult)
    ensures ClassifyResolutionAsWritten(KtAdapter.NluPayload(r)) == NullData
  {
    assert "result" !in Keys(KtAdapter.NluPayload(r));
  }

  /** The intended value: the classification payload the adapter sent. */
  function ClassifyResolution(params: Data): (r: Data)
    ensures Keys(r) == Keys(params)
    ensures forall k :: k in Keys(params) ==> Field(r, k) == Field(params, k)
  {
    params
  }

  /** Resolved as intended, the `classify` promise receives the intent, the confidence and the slots. */
  lemma ClassifyResolvesResult(r: NluResult)
    ensures var d := ClassifyResolution(KtAdapter.NluPayload(r));
            Field(d, "intent") == Some(Text(r.intent)) &&
            Field(d, "confidence") == Some(Text(r.confidence.text)) &&
            Field(d, "slots") == Some(Items(KtAdapter.SlotMaps(r.slots)))
  {
  }

  /** The message of the exception `textToSpeech` throws for an unsupported format. */
  function FormatMessage(format: int): string
  {
    "A format of " + IntToString(format) + FormatHint
  }

  const FormatHint: string :=
    " is not supported. Please use an int from 0 to 2 (or use the TTSFormat enum). Refer to documentation for further details."

  const NotRunningMessage: string :=
    "The speech pipeline is not yet running. Call Spokestack.start() before calling Spokestack.activate()."

  /** The message of the exception an access to the uninitialised `spokestack` property throws. */
  const LateinitMessage: string := "lateinit property spokestack has not been initialized"

  /** The pipeline loop: one kebab-cased property per entry, then the selected profile, if any. */
  method ConfigurePipeline(pipeline: Option<seq<(string, Value)>>) returns (r: Result<seq<BuilderCall>, string>)
    ensures r == PipelineSection(pipeline)
  {
    if pipeline.None? {
      return Success([]);
    }
    var section := pipeline.value;
    var calls: seq<BuilderCall> := [];
    var i := 0;
    while i < |section|
      invariant 0 <= i <= |section|
      invariant calls == KebabCalls(section[..i])
    {
      assert section[..i + 1][..i] == section[..i];
      calls := calls + [SetProperty(KebabCase(section[i].0), section[i].1)];
      i := i + 1;
    }
    assert section[..i] == section;
    var profile := Lookup(section, "profile");
    if profile.None? {
      return Success(calls);
    }
    var ordinal := ProfileOrdinal(profile.value);
    if ordinal.Failure? {
      return Failure(ordinal.error);
    }
    var selected := ProfileAt(ordinal.value);
    if selected.Failure? {
      return Failure(selected.error);
    }
    r := Success(calls + [UseProfile(ProfileClass(selected.value))]);
  }

  /** The wakeword loop: one property per entry, counting the model files; fewer than three switch wakeword off. */
  method ConfigureWakeword(wakeword: Option<seq<(string, Value)>>) returns (calls: seq<BuilderCall>)
    ensures calls == WakeSection(wakeword)
  {
    calls := [];
    var wakeFiles := 0;
    if wakeword.Some? {
      var section := wakeword.value;
      var i := 0;
      while i < |section|
        invariant 0 <= i <= |section|
        invariant calls == WakeCalls(section[..i])
        invariant wakeFiles == WakeFiles(section[..i])
      {
        assert section[..i + 1][..i] == section[..i];
        var m := WakeKey(section[i].0);
        if m.isFile {
          wakeFiles := wakeFiles + 1;
        }
        calls := calls + [SetProperty(m.name, section[i].1)];
        i := i + 1;
      }
      assert section[..i] == section;
    }
    if wakeFiles != 3 {
      calls := calls + [WithoutWakeword];
    }
  }

  /** The NLU loop: one property per known entry, counting the files; fewer than three switch NLU off. */
  method ConfigureNlu(nlu: Option<seq<(string, Value)>>) returns (calls: seq<BuilderCall>)
    ensures calls == NluSection(nlu)
  {
    calls := [];
    var nluFiles := 0;
    if nlu.Some? {
      var section := nlu.value;
      var i := 0;
      while i < |section|
        invariant 0 <= i <= |section|
        invariant calls == NluSetCalls(section[..i])
        invariant nluFiles == NluFiles(section[..i])
      {
        assert section[..i + 1][..i] == section[..i];
        var m := NluKey(section[i].0);
        if m.Some? {
          if m.value.isFile {
            nluFiles := nluFiles + 1;
          }
          calls := calls + [SetProperty(m.value.name, section[i].1)];
        }
        i := i + 1;
      }
      assert section[..i] == section;
    }
    if nluFiles != 3 {
      calls := calls + [WithoutNlu];
    }
  }

  /** What a `synthesize` event does to the pending promises: the settlements, the table left, the `say` left, the URLs played. */
  datatype SynthesisStep = SynthesisStep(settlements: seq<Settlement>, promises: map<string, PromiseId>,
                                         say: Option<PromiseId>, played: seq<string>)

  /**
   * A `synthesize` event resolves the `synthesize` promise with the URL
   * (null when absent) and removes its key; a pending `say` runs only when
   * there is a URL: it plays the URL, resolves its promise with null,
   * removes the `speak` key and is forgotten.
   */
  function SynthesisEffect(promises: map<string, PromiseId>, say: Option<PromiseId>, params: Data): (r: SynthesisStep)
    ensures var url := StringField(params, "url");
            var runSay := say.Some? && url.Some?;
            SynthesizeKey !in r.promises &&
            |r.settlements| == (if SynthesizeKey in promises then 1 else 0) + (if runSay then 1 else 0) &&
            (runSay ==> r.say.None? && r.played == [url.value] && SpeakKey !in r.promises &&
                        r.settlements[|r.settlements| - 1] == Resolved(say.value, NullData)) &&
            (!runSay ==> r.say == say && r.played == []) &&
            (SynthesizeKey in promises ==>
               r.settlements[0] == Resolved(promises[SynthesizeKey], if url.Some? then Text(url.value) else NullData)) &&
            forall k :: k in r.promises <==> k in promises && k != SynthesizeKey && (runSay ==> k != SpeakKey)
  {
    var url := StringField(params, "url");
    var first := if SynthesizeKey in promises
                 then [Resolved(promises[SynthesizeKey], if url.Some? then Text(url.value) else NullData)]
                 else [];
    if say.Some? && url.Some? then
      SynthesisStep(first + [Resolved(say.value, NullData)], promises - {SynthesizeKey} - {SpeakKey}, None, [url.value])
    else
      SynthesisStep(first, promises - {SynthesizeKey}, say, [])
  }

  // ---------------------------------------------------------------------
  // The module object
  // ---------------------------------------------------------------------

  class SpokestackModule {
    /** `reactContext.hasActiveCatalystInstance()`. */
    var active: bool
    /** Every event handed to the host's event emitter, in order. */
    var emitted: seq<Emit>
    /** Pending host promises by operation name. */
    var promises: map<string, PromiseId>
    /** The pending `say` closure, known by the `speak` promise it resolves. */
    var say: Option<PromiseId>
    /** Every resolution and rejection, in order. */
    var settled: seq<Settlement>
    /** The built SDK object; `None` while the late-initialised property is unset. */
    var spokestack: Option<Assembly>
    /** Every call made on the SDK object, in order. */
    var sdkCalls: seq<SdkCall>
    /** Every audio URL handed to the audio player, in order. */
    var played: seq<string>

    constructor(active: bool)
      ensures this.active == active && emitted == [] && promises == map[] && say == None
      ensures settled == [] && spokestack == None && sdkCalls == [] && played == []
    {
      this.active := active;
      emitted := [];
      promises := map[];
      say := None;
      settled := [];
      spokestack := None;
      sdkCalls := [];
      played := [];
    }

    /** The `error` branch: every pending promise is rejected once and the table is emptied. */
    method RejectPending()
      modifies this
      ensures promises == map[]
      ensures RejectedAfter(old(settled), settled, old(promises))
      ensures active == old(active) && emitted == old(emitted) && say == old(say)
      ensures spokestack == old(spokestack) && sdkCalls == old(sdkCalls) && played == old(played)
    {
      var table := promises;
      var pending := table.Keys;
      var rs: seq<Settlement> := [];
      while pending != {}
        invariant pending <= table.Keys
        invariant |rs| == |table.Keys| - |pending|
        invariant forall j :: 0 <= j < |rs| ==> exists k :: k in table.Keys - pending && rs[j] == Rejection(k, table[k])
        invariant forall k :: k in table.Keys - pending ==> Rejection(k, table[k]) in rs
        decreases pending
      {
        var k :| k in pending;
        rs := rs + [Rejection(k, table[k])];
        pending := pending - {k};
      }
      settled := settled + rs;
      promises := map[];
      assert settled[|old(settled)|..] == rs;
    }

    /** The `synthesize` branch: resolve the `synthesize` promise with the URL, then run a pending `say` once. */
    method ResolveSynthesis(params: Data)
      modifies this
      ensures var step := SynthesisEffect(old(promises), old(say), params);
              settled == old(settled) + step.settlements && promises == step.promises &&
              say == step.say && played == old(played) + step.played
      ensures active == old(active) && emitted == old(emitted) && spokestack == old(spokestack) && sdkCalls == old(sdkCalls)
    {
      var url := StringField(params, "url");
      if SynthesizeKey in promises {
        settled := settled + [Resolved(promises[SynthesizeKey], if url.Some? then Text(url.value) else NullData)];
      }
      promises := promises - {SynthesizeKey};
      if say.Some? && url.Some? {
        // the `say` closure: play the audio, resolve `speak`, forget it
        played := played + [url.value];
        settled := settled + [Resolved(say.value, NullData)];
        promises := promises - {SpeakKey};
        say := None;
      }
    }

    /** The `classify` branch: resolve only the `classify` promise. */
    method ResolveClassification(params: Data)
      modifies this
      ensures settled == old(settled) + (if ClassifyKey in old(promises)
                                         then [Resolved(old(promises)[ClassifyKey], ClassifyResolution(params))] else [])
      ensures promises == old(promises) - {ClassifyKey}
      ensures active == old(active) && emitted == old(emitted) && say == old(say) && played == old(played)
      ensures spokestack == old(spokestack) && sdkCalls == old(sdkCalls)
    {
      if ClassifyKey in promises {
        settled := settled + [Resolved(promises[ClassifyKey], ClassifyResolution(params))];
      }
      promises := promises - {ClassifyKey};
    }

    /**
     * `sendEvent`: while the host instance is active, an `error` rejects
     * every pending promise, `synthesize` resolves only the `synthesize`
     * promise and runs a pending `say` once, `classify` resolves only the
     * `classify` promise; the event is then emitted under its lowercased
     * name. While inactive nothing happens.
     */
    method SendEvent(event: string, params: Data)
      modifies this
      ensures !old(active) ==>
                emitted == old(emitted) && promises == old(promises) && say == old(say) &&
                settled == old(settled) && played == old(played)
      ensures old(active) ==> emitted == old(emitted) + [Emit(LowerAscii(event), params)]
      ensures old(active) && LowerAscii(event) == ErrorKey ==>
                promises == map[] && say == old(say) && played == old(played) &&
                RejectedAfter(old(settled), settled, old(promises))
      ensures old(active) && LowerAscii(event) == SynthesizeKey ==>
                var step := SynthesisEffect(old(promises), old(say), params);
                settled == old(settled) + step.settlements && promises == step.promises &&
                say == step.say && played == old(played) + step.played
      ensures old(active) && LowerAscii(event) == ClassifyKey ==>
                say == old(say) && played == old(played) &&
                settled == old(settled) + (if ClassifyKey in old(promises)
                                           then [Resolved(old(promises)[ClassifyKey], ClassifyResolution(params))] else []) &&
                promises == old(promises) - {ClassifyKey}
      ensures old(active) && LowerAscii(event) != ErrorKey && LowerAscii(event) != SynthesizeKey &&
              LowerAscii(event) != ClassifyKey ==>
                promises == old(promises) && say == old(say) && settled == old(settled) && played == old(played)
      ensures active == old(active) && spokestack == old(spokestack) && sdkCalls == old(sdkCalls)
    {
      if !active {
        return;
      }
      var name := LowerAscii(event);
      if name == ErrorKey {
        RejectPending();
      } else if name == SynthesizeKey {
        ResolveSynthesis(params);
      } else if name == ClassifyKey {
        ResolveClassification(params);
      }
      emitted := emitted + [Emit(name, params)];
    }

    /** `textToSpeech`: an unsupported format throws before any request is built. */
    method TextToSpeech(input: string, format: int, voice: string) returns (thrown: Option<string>)
      modifies this
      ensures !(0 <= format <= 2) ==> thrown == Some(FormatMessage(format)) && sdkCalls == old(sdkCalls)
      ensures 0 <= format <= 2 && old(spokestack).None? ==> thrown == Some(LateinitMessage) && sdkCalls == old(sdkCalls)
      ensures 0 <= format <= 2 && old(spokestack).Some? ==>
                thrown == None && sdkCalls == old(sdkCalls) + [SynthesizeCall(SynthesisRequest(input, ModeAt(format).value, voice))]
      ensures active == old(active) && emitted == old(emitted) && promises == old(promises) && say == old(say)
      ensures settled == old(settled) && spokestack == old(spokestack) && played == old(played)
    {
      if format > 2 || format < 0 {
        return Some(FormatMessage(format));
      }
      if spokestack.None? {
        return Some(LateinitMessage);
      }
      sdkCalls := sdkCalls + [SynthesizeCall(SynthesisRequest(input, ModeAt(format).value, voice))];
      thrown := None;
    }

    /** `synthesize`: records the promise; a failed request rejects it and removes only its key. */
    method Synthesize(input: string, format: int, voice: string, p: PromiseId)
      modifies this
      ensures 0 <= format <= 2 && old(spokestack).Some? ==>
                promises == old(promises)[SynthesizeKey := p] && settled == old(settled) &&
                sdkCalls == old(sdkCalls) + [SynthesizeCall(SynthesisRequest(input, ModeAt(format).value, voice))]
      ensures !(0 <= format <= 2) ==>
                promises == old(promises) - {SynthesizeKey} && sdkCalls == old(sdkCalls) &&
                settled == old(settled) + [Rejected(p, None, FormatMessage(format))]
      ensures 0 <= format <= 2 && old(spokestack).None? ==>
                promises == old(promises) - {SynthesizeKey} && sdkCalls == old(sdkCalls) &&
                settled == old(settled) + [Rejected(p, None, LateinitMessage)]
      ensures active == old(active) && emitted == old(emitted) && say == old(say)
      ensures spokestack == old(spokestack) && played == old(played)
    {
      promises := promises[SynthesizeKey := p];
      var thrown := TextToSpeech(input, format, voice);
      if thrown.Some? {
        settled := settled + [Rejected(p, None, thrown.value)];
        promises := promises - {SynthesizeKey};
      }
    }

    /**
     * `speak`: records the promise and the `say` closure; a failed request
     * rejects the promise and removes its key, and the closure stays.
     */
    method Speak(input: string, format: int, voice: string, p: PromiseId)
      modifies this
      ensures say == Some(p)
      ensures 0 <= format <= 2 && old(spokestack).Some? ==>
                promises == old(promises)[SpeakKey := p] && settled == old(settled) &&
                sdkCalls == old(sdkCalls) + [SynthesizeCall(SynthesisRequest(input, ModeAt(format).value, voice))]
      ensures !(0 <= format <= 2) ==>
                promises == old(promises) - {SpeakKey} && sdkCalls == old(sdkCalls) &&
                settled == old(settled) + [Rejected(p, None, FormatMessage(format))]
      ensures 0 <= format <= 2 && old(spokestack).None? ==>
                promises == old(promises) - {SpeakKey} && sdkCalls == old(sdkCalls) &&
                settled == old(settled) + [Rejected(p, None, LateinitMessage)]
      ensures active == old(active) && emitted == old(emitted)
      ensures spokestack == old(spokestack) && played == old(played)
    {
      promises := promises[SpeakKey := p];
      say := Some(p);
      var thrown := TextToSpeech(input, format, voice);
      if thrown.Some? {
        settled := settled + [Rejected(p, None, thrown.value)];
        promises := promises - {SpeakKey};
      }
    }

    /** `classify`: records the promise and forwards the utterance; an unset SDK object throws out. */
    method Classify(utterance: string, p: PromiseId) returns (thrown: Option<string>)
      modifies this
      ensures promises == old(promises)[ClassifyKey := p] && settled == old(settled)
      ensures old(spokestack).None? ==> thrown == Some(LateinitMessage) && sdkCalls == old(sdkCalls)
      ensures old(spokestack).Some? ==> thrown == None && sdkCalls == old(sdkCalls) + [ClassifyCall(utterance)]
      ensures active == old(active) && emitted == old(emitted) && say == old(say)
      ensures spokestack == old(spokestack) && played == old(played)
    {
      promises := promises[ClassifyKey := p];
      if spokestack.None? {
        return Some(LateinitMessage);
      }
      sdkCalls := sdkCalls + [ClassifyCall(utterance)];
      thrown := None;
    }

    /** `start`, `stop` and `deactivate`: forward, then resolve; a failure rejects instead. */
    method Control(call: SdkCall, p: PromiseId)
      requires call == StartCall || call == StopCall || call == DeactivateCall
      modifies this
      ensures old(spokestack).None? ==> settled == old(settled) + [Rejected(p, None, LateinitMessage)] && sdkCalls == old(sdkCalls)
      ensures old(spokestack).Some? ==> settled == old(settled) + [Resolved(p, NullData)] && sdkCalls == old(sdkCalls) + [call]
      ensures active == old(active) && emitted == old(emitted) && promises == old(promises) && say == old(say)
      ensures spokestack == old(spokestack) && played == old(played)
    {
      if spokestack.None? {
        settled := settled + [Rejected(p, None, LateinitMessage)];
      } else {
        sdkCalls := sdkCalls + [call];
        settled := settled + [Resolved(p, NullData)];
      }
    }

    /**
     * `activate`: rejects without calling the SDK while the pipeline is not
     * running (`running` is the pipeline's `isRunning`); an unset SDK object
     * throws out before the check.
     */
    method Activate(p: PromiseId, running: bool) returns (thrown: Option<string>)
      modifies this
      ensures old(spokestack).None? ==> thrown == Some(LateinitMessage) && settled == old(settled) && sdkCalls == old(sdkCalls)
      ensures old(spokestack).Some? && !running ==>
                thrown == None && settled == old(settled) + [Rejected(p, None, NotRunningMessage)] && sdkCalls == old(sdkCalls)
      ensures old(spokestack).Some? && running ==>
                thrown == None && settled == old(settled) + [Resolved(p, NullData)] && sdkCalls == old(sdkCalls) + [ActivateCall]
      ensures active == old(active) && emitted == old(emitted) && promises == old(promises) && say == old(say)
      ensures spokestack == old(spokestack) && played == old(played)
    {
      if spokestack.None? {
        return Some(LateinitMessage);
      }
      thrown := None;
      if !running {
        settled := settled + [Rejected(p, None, NotRunningMessage)];
        return;
      }
      sdkCalls := sdkCalls + [ActivateCall];
      settled := settled + [Resolved(p, NullData)];
    }

    /** `onCatalystInstanceDestroy`: stops the SDK object when it has a speech pipeline. */
    method OnCatalystInstanceDestroy() returns (thrown: Option<string>)
      modifies this
      ensures old(spokestack).None? ==> thrown == Some(LateinitMessage) && sdkCalls == old(sdkCalls)
      ensures old(spokestack).Some? ==>
                (thrown == None &&
                 sdkCalls == (if old(spokestack).value.HasSpeechPipeline() then old(sdkCalls) + [StopCall] else old(sdkCalls)))
      ensures active == old(active) && emitted == old(emitted) && promises == old(promises) && say == old(say)
      ensures settled == old(settled) && spokestack == old(spokestack) && played == old(played)
    {
      if spokestack.None? {
        return Some(LateinitMessage);
      }
      thrown := None;
      if spokestack.value.HasSpeechPipeline() {
        sdkCalls := sdkCalls + [StopCall];
      }
    }

    /**
     * `initialize`: missing credentials reject the promise; a profile that
     * selects no entry throws and leaves the promise pending; otherwise the
     * SDK object is built from the plan and the promise resolves.
     */
    method Initialize(clientId: string, clientSecret: string, c: KtConfig, p: PromiseId) returns (thrown: Option<string>)
      modifies this
      ensures KtInitPlan(clientId, clientSecret, c).MissingCredentials? ==>
                thrown == None && spokestack == old(spokestack) &&
                settled == old(settled) + [Rejected(p, None, CredentialsMessage)]
      ensures KtInitPlan(clientId, clientSecret, c).InitThrows? ==>
                thrown == Some(KtInitPlan(clientId, clientSecret, c).exception) &&
                spokestack == old(spokestack) && settled == old(settled)
      ensures KtInitPlan(clientId, clientSecret, c).Built? ==>
                thrown == None && spokestack == Some(Assembly(KtInitPlan(clientId, clientSecret, c).calls)) &&
                settled == old(settled) + [Resolved(p, NullData)]
      ensures active == old(active) && emitted == old(emitted) && promises == old(promises) && say == old(say)
      ensures sdkCalls == old(sdkCalls) && played == old(played)
    {
      var calls := [AddListener, WithAndroidContext];
      if clientId == "" || clientSecret == "" {
        settled := settled + [Rejected(p, None, CredentialsMessage)];
        return None;
      }
      calls := calls + [SetProperty(IdKey, Str(clientId)), SetProperty(SecretKey, Str(clientSecret))];
      if c.traceLevel.Some? {
        calls := calls + [SetProperty(TraceKey, IntValue(c.traceLevel.value))];
      }
      calls := calls + [DefaultProfile];
      assert calls == HeaderCalls(clientId, clientSecret, c.traceLevel) + [DefaultProfile];
      var pc := ConfigurePipeline(c.pipeline);
      if pc.Failure? {
        return Some(pc.error);
      }
      var ws := ConfigureWakeword(c.wakeword);
      var ns := ConfigureNlu(c.nlu);
      calls := calls + pc.value + ws + ns + [WithoutAutoPlayback, Build];
      assert calls == Assemble(HeaderCalls(clientId, clientSecret, c.traceLevel), pc.value, ws, ns);
      spokestack := Some(Assembly(calls));
      settled := settled + [Resolved(p, NullData)];
      thrown := None;
    }
  }
}
