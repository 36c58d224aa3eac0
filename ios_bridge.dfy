/**
 * The Swift bridge module `RNSpokestack`: a table of pending host promises
 * keyed by operation, the SDK delegate callbacks that settle them, the
 * parsing of the configuration dictionary into speech settings and model
 * downloads, and the lifecycle methods that forward to the pipeline, the
 * synthesizer and the classifier.
 */
module IosBridge {
  import opened Bridge
  import opened SdkEvents
  import opened SpokestackBuilder

  // ---------------------------------------------------------------------
  // Promise keys, errors and messages
  // ---------------------------------------------------------------------

  /** `RNSpokestackPromise`. */
  datatype PromiseKind = InitializeP | StartP | StopP | ActivateP | DeactivateP | SynthesizeP | SpeakP | ClassifyP

  /** The raw value of a promise key: the case name. */
  function RawValue(k: PromiseKind): (raw: string)
    ensures |raw| > 0
  {
    match k
    case InitializeP => "initialize"
    case StartP => "start"
    case StopP => "stop"
    case ActivateP => "activate"
    case DeactivateP => "deactivate"
    case SynthesizeP => "synthesize"
    case SpeakP => "speak"
    case ClassifyP => "classify"
  }

  /** Distinct keys have distinct raw values. */
  lemma RawValueInjective(k: PromiseKind, j: PromiseKind)
    ensures RawValue(k) == RawValue(j) ==> k == j
  {
  }

  const ErrorSuffix: string := "_error"
  const DuringPrefix: string := "Spokestack error during "

  /** The rejection `failure` gives the promise pending under `k`. */
  function FailureRejection(k: PromiseKind, p: PromiseId): (s: Settlement)
    ensures s.Rejected? && s.promise == p && s.code == Some(RawValue(k) + ErrorSuffix)
    ensures s.message == DuringPrefix + RawValue(k) + "."
  {
    Rejected(p, Some(RawValue(k) + ErrorSuffix), DuringPrefix + RawValue(k) + ".")
  }

  /** The codes of two failure rejections tell their keys apart. */
  lemma FailureCodesDistinct(k: PromiseKind, j: PromiseKind, p: PromiseId, q: PromiseId)
    requires k != j
    ensures FailureRejection(k, p).code != FailureRejection(j, q).code
  {
    var a := RawValue(k) + ErrorSuffix;
    var b := RawValue(j) + ErrorSuffix;
    assert a[..|RawValue(k)|] == RawValue(k);
    assert b[..|RawValue(j)|] == RawValue(j);
    assert a[|RawValue(k)|..] == ErrorSuffix;
    assert b[|RawValue(j)|..] == ErrorSuffix;
    RawValueInjective(k, j);
  }

  /** `rs` holds exactly one failure rejection for each entry of `table`. */
  predicate RejectsEach(rs: seq<Settlement>, table: map<PromiseKind, PromiseId>)
  {
    |rs| == |table.Keys| &&
    (forall j :: 0 <= j < |rs| ==> exists k :: k in table && rs[j] == FailureRejection(k, table[k])) &&
    (forall k :: k in table ==> FailureRejection(k, table[k]) in rs)
  }

  const NotInitializedCode: string := "not_initialized"
  const NotInitializedSuffix: string := " is not initialized. Call Spokestack.initialize() first."
  const NotStartedCode: string := "not_started"
  const NotStartedMessage: string := "Spokestack.start() must be called before Spokestack.activate()"
  const BuilderNotAvailable: string := "buildPipeline() was called somehow without first initializing a builder"

  /** `notInitialized`: the rejection for an operation whose handle is missing. */
  function NotInitialized(p: PromiseId, component: string): (s: Settlement)
    ensures s.Rejected? && s.promise == p && s.code == Some(NotInitializedCode)
    ensures s.message == component + NotInitializedSuffix
  {
    Rejected(p, Some(NotInitializedCode), component + NotInitializedSuffix)
  }

  /** `handleError`: the `error` event carrying the error's description. */
  function ErrorEvent(description: string): (e: Emit)
    ensures e.name == "error" && Keys(e.payload) == {"error"} && Field(e.payload, "error") == Some(Text(description))
  {
    Emit("error", Record(map["error" := Text(description)]))
  }

  /** The `transcript` event the speech callbacks send. */
  function TranscriptEvent(name: string, transcript: string): Emit
  {
    Emit(name, Record(map["transcript" := Text(transcript)]))
  }

  /** The `classify` promise's value: intent, confidence and one map per slot, in iteration order. */
  function ClassificationValue(r: NluResult): (d: Data)
    ensures Keys(d) == {"intent", "confidence", "slots"}
    ensures Field(d, "intent") == Some(Text(r.intent))
    ensures Field(d, "confidence") == Some(Scalar(Number(FloatK, r.confidence.x, r.confidence.text)))
    ensures Field(d, "slots") == Some(Items(SlotValues(r.slots))) && |SlotValues(r.slots)| == |r.slots|
  {
    Record(map["intent" := Text(r.intent), "confidence" := Scalar(Number(FloatK, r.confidence.x, r.confidence.text)),
               "slots" := Items(SlotValues(r.slots))])
  }

  function SlotValues(slots: seq<(string, Slot)>): (ds: seq<Data>)
    ensures |ds| == |slots|
    ensures forall i :: 0 <= i < |slots| ==>
              ds[i] == Record(map["type" := Text(slots[i].1.slotType), "value" := Scalar(slots[i].1.value),
                                  "rawValue" := Text(slots[i].1.rawValue)])
  {
    if slots == [] then []
    else
      var s := slots[|slots| - 1].1;
      SlotValues(slots[..|slots| - 1])
      + [Record(map["type" := Text(s.slotType), "value" := Scalar(s.value), "rawValue" := Text(s.rawValue)])]
  }

  // ---------------------------------------------------------------------
  // Raw-value fallbacks
  // ---------------------------------------------------------------------

  /** `SpeechPipelineProfiles(rawValue:) ?? .pushToTalkAppleSpeech`, over the six profile ordinals. */
  const PushToTalkAppleSpeech: int := 2

  function ProfileOrDefault(raw: int): (r: int)
    ensures 0 <= r < ProfileCount
    ensures 0 <= raw < ProfileCount ==> r == raw
    ensures !(0 <= raw < ProfileCount) ==> r == PushToTalkAppleSpeech
  {
    if 0 <= raw < ProfileCount then raw else PushToTalkAppleSpeech
  }

  /** `Trace.Level(rawValue:) ?? .NONE`: DEBUG 10, PERF 20, INFO 30, NONE 100. */
  const TraceNone: int := 100

  function TraceOrNone(raw: int): (r: int)
    ensures r in {10, 20, 30, 100}
    ensures raw in {10, 20, 30, 100} ==> r == raw
    ensures raw !in {10, 20, 30, 100} ==> r == TraceNone
  {
    if raw == 10 || raw == 20 || raw == 30 || raw == 100 then raw else TraceNone
  }

  /** `VADMode(rawValue:) ?? .HighlyPermissive`, over the four modes 0 to 3. */
  const HighlyPermissive: int := 0

  function VadModeOrDefault(raw: int): (r: int)
    ensures 0 <= r <= 3
    ensures 0 <= raw <= 3 ==> r == raw
    ensures !(0 <= raw <= 3) ==> r == HighlyPermissive
  {
    if 0 <= raw <= 3 then raw else HighlyPermissive
  }

  /** The raw values of the SDK's `FFTWindowType`, whose one case is `hann`. */
  const FftWindowTypes: set<string> := {"hann"}
  const Hann: string := "hann"

  /** `FFTWindowType(rawValue: nsString(value)) ?? .hann`: an unknown window type is Hann. */
  function FftWindowOrHann(v: Value): (r: string)
    ensures r in FftWindowTypes
    ensures v.Str? && v.s in FftWindowTypes ==> r == v.s
    ensures !(v.Str? && v.s in FftWindowTypes) ==> r == Hann
  {
    if v.Str? && v.s in FftWindowTypes then v.s else Hann
  }

  /** `TTSInputFormat(rawValue:) ?? .text`: an unknown format is plain text. */
  function FormatOrText(format: int): (m: SynthesisMode)
    ensures 0 <= format <= 2 ==> Some(m) == ModeAt(format)
    ensures !(0 <= format <= 2) ==> m == TextMode
  {
    match ModeAt(format)
    case Some(mode) => mode
    case None => TextMode
  }

  // ---------------------------------------------------------------------
  // Configuration parsing
  // ---------------------------------------------------------------------

  /** A value stored on the speech configuration. */
  datatype Setting =
    | TextSetting(s: string)
    | IntSetting(i: int)
    | RawSetting(v: Value)
    | PathSetting(path: Option<string>)

  /**
   * The configuration dictionary. Each section is the entry list of its
   * dictionary in iteration order; a missing key is `None`. The four
   * sections write disjoint state, so their relative order is immaterial.
   */
  datatype IosConfig = IosConfig(
    allowCellular: bool,
    refreshModels: bool,
    traceLevel: Option<int>,
    nlu: Option<seq<(string, string)>>,
    wakeword: Option<seq<(string, Value)>>,
    pipeline: Option<seq<(string, int)>>)

  /** What parsing accumulates: the settings, the builder's profile, and URL → property download tables. */
  datatype ParseState = ParseState(settings: map<string, Setting>, profile: int,
                                   wake: map<string, string>, nlu: map<string, string>)

  /** The NLU keys that name a model file, and the property each file's path is stored under. */
  const NluPropTable: map<string, string> :=
    map["model" := "nluModelPath", "metadata" := "nluModelMetadataPath", "vocab" := "nluVocabularyPath"]

  /** The wakeword keys that name a model file, and the property each file's path is stored under. */
  const WakePropTable: map<string, string> :=
    map["filter" := "filterModelPath", "detect" := "detectModelPath", "encode" := "encodeModelPath"]

  /** The other wakeword keys, and the property each value is stored under; `fftWindowType` is converted on its own. */
  const WakeSettingTable: map<string, string> := map[
    "activeMin" := "wakeActiveMin", "activeMax" := "wakeActiveMax", "wakewords" := "wakewords",
    "requestTimeout" := "wakewordRequestTimeout", "threshold" := "wakeThreshold",
    "encodeLength" := "encodeLength", "stateWidth" := "stateWidth", "rmsTarget" := "rmsTarget",
    "rmsAlpha" := "rmsAlpha", "fftWindowSize" := "fftWindowSize",
    "fftHopLength" := "fftHopLength", "preEmphasis" := "preEmphasis", "melFrameLength" := "melFrameLength",
    "melFrameWidth" := "melFrameWidth"]

  /** The pipeline keys stored as plain integers. */
  const PipelineIntKeys: set<string> := {"sampleRate", "frameWidth", "vadFallDelay"}

  /** The URL a wakeword value names: its text. */
  function UrlOf(v: Value): string
  {
    if v.Null? then "" else ToString(v)
  }

  /** The NLU loop: each model-file key records its URL; other keys are ignored. */
  function ParseNlu(nlu: map<string, string>, entries: seq<(string, string)>): map<string, string>
  {
    if entries == [] then nlu
    else
      var last := entries[|entries| - 1];
      var m := ParseNlu(nlu, entries[..|entries| - 1]);
      if last.0 in NluPropTable then m[last.1 := NluPropTable[last.0]] else m
  }

  /** The wakeword loop: model-file keys record their URL, setting keys store their value. */
  function ParseWake(st: ParseState, entries: seq<(string, Value)>): ParseState
  {
    if entries == [] then st
    else
      var last := entries[|entries| - 1];
      var s := ParseWake(st, entries[..|entries| - 1]);
      if last.0 in WakePropTable then s.(wake := s.wake[UrlOf(last.1) := WakePropTable[last.0]])
      else if last.0 == "fftWindowType" then s.(settings := s.settings["fftWindowType" := TextSetting(FftWindowOrHann(last.1))])
      else if last.0 in WakeSettingTable then s.(settings := s.settings[WakeSettingTable[last.0] := RawSetting(last.1)])
      else s
  }

  /** The speech configuration's FFT window type, when set, is one the SDK knows. */
  predicate WindowKnown(settings: map<string, Setting>)
  {
    "fftWindowType" in settings ==> settings["fftWindowType"].TextSetting? && settings["fftWindowType"].s in FftWindowTypes
  }

  /** Whatever the wakeword section holds, the window type it leaves is a known one; a last `fftWindowType` entry decides it. */
  lemma {:induction false} ParseWakeWindow(st: ParseState, entries: seq<(string, Value)>)
    requires WindowKnown(st.settings)
    ensures WindowKnown(ParseWake(st, entries).settings)
    ensures |entries| > 0 && entries[|entries| - 1].0 == "fftWindowType" ==>
              ParseWake(st, entries).settings["fftWindowType"] == TextSetting(FftWindowOrHann(entries[|entries| - 1].1))
  {
    if entries != [] {
      ParseWakeWindow(st, entries[..|entries| - 1]);
      assert "fftWindowType" !in WakeSettingTable.Values;
    }
  }

  /** The pipeline loop: `profile` picks the builder's profile, the others store integers. */
  function ParsePipeline(st: ParseState, entries: seq<(string, int)>): ParseState
  {
    if entries == [] then st
    else
      var last := entries[|entries| - 1];
      var s := ParsePipeline(st, entries[..|entries| - 1]);
      if last.0 == "profile" then s.(profile := ProfileOrDefault(last.1))
      else if last.0 == "vadMode" then s.(settings := s.settings["vadMode" := IntSetting(VadModeOrDefault(last.1))])
      else if last.0 in PipelineIntKeys then s.(settings := s.settings[last.0 := IntSetting(last.1)])
      else s
  }

  /** The number of entries whose key is in `table`. */
  function CountIn<V, W>(entries: seq<(string, V)>, table: map<string, W>): nat
  {
    if entries == [] then 0
    else CountIn(entries[..|entries| - 1], table) + (if entries[|entries| - 1].0 in table then 1 else 0)
  }

  function Has<V>(entries: seq<(string, V)>, key: string): nat
  {
    if key in KeySet(entries) then 1 else 0
  }

  /** With distinct keys, the entries in a table of three keys are the three keys that are present. */
  lemma {:induction false} CountInThree<V, W>(entries: seq<(string, V)>, table: map<string, W>, a: string, b: string, c: string)
    requires DistinctKeys(entries)
    requires table.Keys == {a, b, c} && a != b && b != c && a != c
    ensures CountIn(entries, table) == Has(entries, a) + Has(entries, b) + Has(entries, c)
  {
    if entries != [] {
      KeySetSnoc(entries);
      CountInThree(entries[..|entries| - 1], table, a, b, c);
    }
  }

  /** The NLU table gains at most one URL per model-file entry, and each URL maps to a model-file property. */
  lemma {:induction false} ParseNluBound(nlu: map<string, string>, entries: seq<(string, string)>)
    ensures |ParseNlu(nlu, entries).Keys| <= |nlu.Keys| + CountIn(entries, NluPropTable)
    ensures forall u :: u in ParseNlu(nlu, entries) && u !in nlu ==> ParseNlu(nlu, entries)[u] in NluPropTable.Values
  {
    if entries != [] {
      var init := entries[..|entries| - 1];
      ParseNluBound(nlu, init);
      var m := ParseNlu(nlu, init);
      var last := entries[|entries| - 1];
      if last.0 in NluPropTable {
        assert m[last.1 := NluPropTable[last.0]].Keys == m.Keys + {last.1};
      }
    }
  }

  /**
   * With distinct keys, a complete NLU group of three downloads needs all
   * three model-file keys.
   */
  lemma NluGroupNeedsAllKeys(entries: seq<(string, string)>)
    requires DistinctKeys(entries)
    requires |ParseNlu(map[], entries).Keys| == 3
    ensures {"model", "metadata", "vocab"} <= KeySet(entries)
  {
    ParseNluBound(map[], entries);
    CountInThree(entries, NluPropTable, "model", "metadata", "vocab");
  }

  /** The wakeword table gains at most one URL per model-file entry, each mapped to a model-file property. */
  lemma {:induction false} ParseWakeBound(st: ParseState, entries: seq<(string, Value)>)
    ensures |ParseWake(st, entries).wake.Keys| <= |st.wake.Keys| + CountIn(entries, WakePropTable)
    ensures forall u :: u in ParseWake(st, entries).wake && u !in st.wake ==> ParseWake(st, entries).wake[u] in WakePropTable.Values
    ensures ParseWake(st, entries).nlu == st.nlu && ParseWake(st, entries).profile == st.profile
  {
    if entries != [] {
      var init := entries[..|entries| - 1];
      ParseWakeBound(st, init);
      var s := ParseWake(st, init);
      var last := entries[|entries| - 1];
      if last.0 in WakePropTable {
        assert s.wake[UrlOf(last.1) := WakePropTable[last.0]].Keys == s.wake.Keys + {UrlOf(last.1)};
      }
    }
  }

  /** With distinct keys, a complete wakeword group of three downloads needs all three model-file keys. */
  lemma WakeGroupNeedsAllKeys(st: ParseState, entries: seq<(string, Value)>)
    requires DistinctKeys(entries)
    requires st.wake == map[]
    requires |ParseWake(st, entries).wake.Keys| == 3
    ensures {"filter", "detect", "encode"} <= KeySet(entries)
  {
    ParseWakeBound(st, entries);
    CountInThree(entries, WakePropTable, "filter", "detect", "encode");
  }

  /** Two model files given the same URL collapse into one download, so the group is incomplete. */
  lemma SharedUrlIncomplete(model: string, vocab: string)
    ensures |ParseNlu(map[], [("model", model), ("metadata", model), ("vocab", vocab)]).Keys| < 3
  {
    var e := [("model", model), ("metadata", model), ("vocab", vocab)];
    assert e[..1][..0] == [];
    assert ParseNlu(map[], e[..1]) == map[model := "nluModelPath"];
    assert e[..2][..1] == e[..1];
    assert ParseNlu(map[], e[..2]) == map[model := "nluModelMetadataPath"];
    assert e[..3] == e && e[..3][..2] == e[..2];
    assert ParseNlu(map[], e).Keys == {model, vocab};
    assert |{model, vocab}| <= 2;
  }

  /** After the pipeline loop the builder's profile is always one of the six, whatever the raw values were. */
  lemma {:induction false} ParsePipelineProfile(st: ParseState, entries: seq<(string, int)>)
    requires 0 <= st.profile < ProfileCount
    ensures 0 <= ParsePipeline(st, entries).profile < ProfileCount
    ensures "profile" !in KeySet(entries) ==> ParsePipeline(st, entries).profile == st.profile
    ensures ParsePipeline(st, entries).wake == st.wake && ParsePipeline(st, entries).nlu == st.nlu
  {
    if entries != [] {
      KeySetSnoc(entries);
      ParsePipelineProfile(st, entries[..|entries| - 1]);
    }
  }

  /** The settings the whole dictionary produces, starting from `st`. */
  function ParseConfig(st: ParseState, c: IosConfig): ParseState
  {
    var s0 := if c.traceLevel.Some? then st.(settings := st.settings["tracing" := IntSetting(TraceOrNone(c.traceLevel.value))]) else st;
    var s1 := if c.nlu.Some? then s0.(nlu := ParseNlu(s0.nlu, c.nlu.value)) else s0;
    var s2 := if c.wakeword.Some? then ParseWake(s1, c.wakeword.value) else s1;
    if c.pipeline.Some? then ParsePipeline(s2, c.pipeline.value) else s2
  }

  /** `numRequests`: three for each complete group of model downloads. */
  function RequestCount(st: ParseState): (n: nat)
    ensures n in {0, 3, 6}
    ensures n == 0 <==> |st.wake.Keys| != 3 && |st.nlu.Keys| != 3
  {
    (if |st.wake.Keys| == 3 then 3 else 0) + (if |st.nlu.Keys| == 3 then 3 else 0)
  }

  /** One model download handed to the downloader: the URL and the property its path will be stored under. */
  datatype Download = Download(url: string, property: string)

  /** The downloads a complete table issues, as a set. */
  function Issued(table: map<string, string>): set<Download>
  {
    set u | u in table :: Download(u, table[u])
  }

  /** The downloader's settings. */
  datatype DownloaderSettings = DownloaderSettings(allowCellular: bool, refreshModels: bool)

  /** What the SDK does when the pipeline is built: the classifier and the builder may each throw. */
  datatype BuildFaults = BuildFaults(classifierError: Option<string>, buildError: Option<string>)

  /** `rs` extends `before` into `after` with exactly one failure rejection for each entry of `table`. */
  predicate RejectedAfter(before: seq<Settlement>, after: seq<Settlement>, table: map<PromiseKind, PromiseId>)
  {
    |after| >= |before| && after[..|before|] == before && RejectsEach(after[|before|..], table)
  }

  /** The rejections of `failure`'s loop over the stored rejecters, in some order. */
  method FailureRejections(table: map<PromiseKind, PromiseId>) returns (rs: seq<Settlement>)
    ensures RejectsEach(rs, table)
  {
    rs := [];
    var pending := table.Keys;
    while pending != {}
      invariant pending <= table.Keys
      invariant |rs| == |table.Keys| - |pending|
      invariant forall j :: 0 <= j < |rs| ==> exists k :: k in table.Keys - pending && rs[j] == FailureRejection(k, table[k])
      invariant forall k :: k in table.Keys - pending ==> FailureRejection(k, table[k]) in rs
      decreases pending
    {
      var k :| k in pending;
      rs := rs + [FailureRejection(k, table[k])];
      pending := pending - {k};
    }
  }

  lemma RejectedAppend(before: seq<Settlement>, rs: seq<Settlement>, table: map<PromiseKind, PromiseId>)
    requires RejectsEach(rs, table)
    ensures RejectedAfter(before, before + rs, table)
  {
    assert (before + rs)[|before|..] == rs;
  }

  /** The pipeline the builder produced: the profile and the speech settings it was built from. */
  datatype PipelineSetup = PipelineSetup(profile: int, settings: map<string, Setting>)

  /** The promise `success` settles: a pending `synthesize` first, else a pending `speak`, never both. */
  function SuccessTarget(resolvers: map<PromiseKind, PromiseId>): (k: Option<PromiseKind>)
    ensures SynthesizeP in resolvers ==> k == Some(SynthesizeP)
    ensures SynthesizeP !in resolvers && SpeakP in resolvers ==> k == Some(SpeakP)
    ensures k.None? <==> SynthesizeP !in resolvers && SpeakP !in resolvers
  {
    if SynthesizeP in resolvers then Some(SynthesizeP)
    else if SpeakP in resolvers then Some(SpeakP)
    else None
  }

  /** The downloads of a table, one per URL, in some order. */
  method IssueAll(table: map<string, string>) returns (ds: seq<Download>)
    ensures |ds| == |table.Keys|
    ensures forall d :: d in ds <==> d in Issued(table)
  {
    ds := [];
    var pending := table.Keys;
    while pending != {}
      invariant pending <= table.Keys
      invariant |ds| == |table.Keys| - |pending|
      invariant forall d :: d in ds <==> d.url in table.Keys - pending && d.property == table[d.url]
      decreases pending
    {
      var u :| u in pending;
      ds := ds + [Download(u, table[u])];
      pending := pending - {u};
    }
  }

  /** The NLU loop over a section's entries. */
  method NluLoop(nlu: map<string, string>, entries: seq<(string, string)>) returns (m: map<string, string>)
    ensures m == ParseNlu(nlu, entries)
  {
    m := nlu;
    var i := 0;
    while i < |entries|
      invariant 0 <= i <= |entries|
      invariant m == ParseNlu(nlu, entries[..i])
    {
      assert entries[..i + 1][..i] == entries[..i];
      var key := entries[i].0;
      if key in NluPropTable {
        m := m[entries[i].1 := NluPropTable[key]];
      }
      i := i + 1;
    }
    assert entries[..i] == entries;
  }

  /** The wakeword loop over a section's entries. */
  method WakeLoop(st: ParseState, entries: seq<(string, Value)>) returns (r: ParseState)
    ensures r == ParseWake(st, entries)
  {
    r := st;
    var i := 0;
    while i < |entries|
      invariant 0 <= i <= |entries|
      invariant r == ParseWake(st, entries[..i])
    {
      assert entries[..i + 1][..i] == entries[..i];
      var (key, value) := entries[i];
      if key in WakePropTable {
        r := r.(wake := r.wake[UrlOf(value) := WakePropTable[key]]);
      } else if key == "fftWindowType" {
        r := r.(settings := r.settings["fftWindowType" := TextSetting(FftWindowOrHann(value))]);
      } else if key in WakeSettingTable {
        r := r.(settings := r.settings[WakeSettingTable[key] := RawSetting(value)]);
      }
      i := i + 1;
    }
    assert entries[..i] == entries;
  }

  /** The pipeline loop over a section's entries. */
  method PipelineLoop(st: ParseState, entries: seq<(string, int)>) returns (r: ParseState)
    ensures r == ParsePipeline(st, entries)
  {
    r := st;
    var i := 0;
    while i < |entries|
      invariant 0 <= i <= |entries|
      invariant r == ParsePipeline(st, entries[..i])
    {
      assert entries[..i + 1][..i] == entries[..i];
      var (key, value) := entries[i];
      if key == "profile" {
        r := r.(profile := ProfileOrDefault(value));
      } else if key == "vadMode" {
        r := r.(settings := r.settings["vadMode" := IntSetting(VadModeOrDefault(value))]);
      } else if key in PipelineIntKeys {
        r := r.(settings := r.settings[key := IntSetting(value)]);
      }
      i := i + 1;
    }
    assert entries[..i] == entries;
  }

  /** The state `initialize` parses the dictionary from: the credentials set, the default profile, no downloads. */
  function InitialParse(settings: map<string, Setting>, clientId: string, clientSecret: string): ParseState
  {
    ParseState(settings["apiId" := TextSetting(clientId)]["apiSecret" := TextSetting(clientSecret)],
               PushToTalkAppleSpeech, map[], map[])
  }

  /** The parse of `initialize`'s dictionary, as the loops over its sections. */
  method ParseLoops(st: ParseState, c: IosConfig) returns (r: ParseState)
    ensures r == ParseConfig(st, c)
  {
    r := st;
    if c.traceLevel.Some? {
      r := r.(settings := r.settings["tracing" := IntSetting(TraceOrNone(c.traceLevel.value))]);
    }
    if c.nlu.Some? {
      var nlu := NluLoop(r.nlu, c.nlu.value);
      r := r.(nlu := nlu);
    }
    if c.wakeword.Some? {
      r := WakeLoop(r, c.wakeword.value);
    }
    if c.pipeline.Some? {
      r := PipelineLoop(r, c.pipeline.value);
    }
  }

  /**
   * Why `buildPipeline` fails, if it does: the classifier it must make
   * throws, or else there is no builder, or else the builder throws.
   */
  function BuildFailure(makeClassifier: bool, hasBuilder: bool, faults: BuildFaults): (e: Option<string>)
    ensures e.None? <==> (!makeClassifier || faults.classifierError.None?) && hasBuilder && faults.buildError.None?
    ensures makeClassifier && faults.classifierError.Some? ==> e == faults.classifierError
    ensures (!makeClassifier || faults.classifierError.None?) && !hasBuilder ==> e == Some(BuilderNotAvailable)
    ensures (!makeClassifier || faults.classifierError.None?) && hasBuilder ==> e == faults.buildError
  {
    if makeClassifier && faults.classifierError.Some? then faults.classifierError
    else if !hasBuilder then Some(BuilderNotAvailable)
    else faults.buildError
  }

  /** The downloader `initialize` makes: both flags read as false when there is no dictionary. */
  function DownloaderFor(config: Option<IosConfig>): (d: DownloaderSettings)
    ensures config.None? ==> !d.allowCellular && !d.refreshModels
    ensures config.Some? ==> d.allowCellular == config.value.allowCellular && d.refreshModels == config.value.refreshModels
  {
    if config.Some? then DownloaderSettings(config.value.allowCellular, config.value.refreshModels)
    else DownloaderSettings(false, false)
  }

  /** The downloads `initialize` issues: a table only when it is complete, wakeword first. */
  ghost predicate IssuedFor(ds: seq<Download>, st: ParseState)
  {
    |ds| == RequestCount(st) &&
    forall d :: d in ds <==> (|st.wake.Keys| == 3 && d in Issued(st.wake)) || (|st.nlu.Keys| == 3 && d in Issued(st.nlu))
  }

  // ---------------------------------------------------------------------
  // The module object
  // ---------------------------------------------------------------------

  /** The handles and configuration the module builds up, apart from the promise tables. */
  datatype Setup = Setup(
    pipeline: Option<PipelineSetup>,
    hasBuilder: bool,
    profile: int,
    settings: map<string, Setting>,
    hasSynthesizer: bool,
    hasClassifier: bool,
    makeClassifier: bool,
    downloader: Option<DownloaderSettings>,
    numRequests: int,
    downloads: seq<Download>)

  class RNSpokestack {
    /** The built speech pipeline, if any, and what it was built from. */
    var pipeline: Option<PipelineSetup>
    /** `speechPipelineBuilder != nil`, and the profile it uses. */
    var hasBuilder: bool
    var profile: int
    /** The speech configuration's properties. */
    var settings: map<string, Setting>
    var hasSynthesizer: bool
    var hasClassifier: bool
    var started: bool
    /** The resolve and reject blocks of the pending promises, each known by its promise. */
    var resolvers: map<PromiseKind, PromiseId>
    var rejecters: map<PromiseKind, PromiseId>
    var makeClassifier: bool
    var downloader: Option<DownloaderSettings>
    var numRequests: int
    /** Every model download handed to the downloader, in order. */
    var downloads: seq<Download>
    /** Every resolution and rejection, in order. */
    var settled: seq<Settlement>
    /** Every event sent to the host, in order. */
    var emitted: seq<Emit>
    /** Every call on the pipeline, the synthesizer and the classifier, in order. */
    var sdkCalls: seq<SdkCall>

    /** Every promise is stored with its resolve and its reject block together, or with neither. */
    predicate Paired()
      reads this
    {
      resolvers == rejecters
    }

    function SetupOf(): Setup
      reads this
    {
      Setup(pipeline, hasBuilder, profile, settings, hasSynthesizer, hasClassifier, makeClassifier, downloader,
            numRequests, downloads)
    }

    constructor()
      ensures Paired() && resolvers == map[] && !started && pipeline.None? && !hasBuilder
      ensures !hasSynthesizer && !hasClassifier && !makeClassifier && downloader.None? && numRequests == 0
      ensures settings == map[] && downloads == [] && settled == [] && emitted == [] && sdkCalls == []
    {
      pipeline := None;
      hasBuilder := false;
      profile := PushToTalkAppleSpeech;
      settings := map[];
      hasSynthesizer := false;
      hasClassifier := false;
      started := false;
      resolvers := map[];
      rejecters := map[];
      makeClassifier := false;
      downloader := None;
      numRequests := 0;
      downloads := [];
      settled := [];
      emitted := [];
      sdkCalls := [];
    }

    /** Sends one event to the host. */
    method Send(e: Emit)
      modifies this
      ensures emitted == old(emitted) + [e]
      ensures settled == old(settled) && resolvers == old(resolvers) && rejecters == old(rejecters)
      ensures SetupOf() == old(SetupOf()) && started == old(started) && sdkCalls == old(sdkCalls)
    {
      emitted := emitted + [e];
    }

    /** Rejects every stored promise once, then forgets every promise. */
    method RejectAll()
      modifies this
      ensures resolvers == map[] && rejecters == map[]
      ensures RejectedAfter(old(settled), settled, old(rejecters))
      ensures emitted == old(emitted) && SetupOf() == old(SetupOf()) && started == old(started) && sdkCalls == old(sdkCalls)
    {
      var rs := FailureRejections(rejecters);
      RejectedAppend(settled, rs, rejecters);
      settled := settled + rs;
      resolvers := map[];
      rejecters := map[];
    }

    /**
     * `failure`: report the error, reject every stored promise once with
     * the code `<key>_error`, then forget every promise.
     */
    method Failure(description: string)
      modifies this
      ensures emitted == old(emitted) + [ErrorEvent(description)]
      ensures resolvers == map[] && rejecters == map[]
      ensures RejectedAfter(old(settled), settled, old(rejecters))
      ensures SetupOf() == old(SetupOf()) && started == old(started) && sdkCalls == old(sdkCalls)
    {
      Send(ErrorEvent(description));
      RejectAll();
    }

    /** Resolves the promise stored under `kind`, if any, and removes only that key from both tables. */
    method Settle(kind: PromiseKind, value: Data)
      requires Paired()
      modifies this
      ensures Paired()
      ensures kind in old(resolvers) ==>
                settled == old(settled) + [Resolved(old(resolvers)[kind], value)] && resolvers == old(resolvers) - {kind}
      ensures kind !in old(resolvers) ==> settled == old(settled) && resolvers == old(resolvers)
      ensures emitted == old(emitted) && SetupOf() == old(SetupOf()) && started == old(started) && sdkCalls == old(sdkCalls)
    {
      if kind in resolvers {
        settled := settled + [Resolved(resolvers[kind], value)];
        resolvers := resolvers - {kind};
        rejecters := rejecters - {kind};
      }
    }

    /** Stores a promise's resolve and reject blocks under `kind`. */
    method Put(kind: PromiseKind, p: PromiseId)
      requires Paired()
      modifies this
      ensures Paired() && resolvers == old(resolvers)[kind := p]
      ensures settled == old(settled) && emitted == old(emitted) && SetupOf() == old(SetupOf())
      ensures started == old(started) && sdkCalls == old(sdkCalls)
    {
      resolvers := resolvers[kind := p];
      rejecters := rejecters[kind := p];
    }

    /** `didTrace`: the message on `trace`. */
    method DidTrace(message: string)
      modifies this
      ensures emitted == old(emitted) + [Emit("trace", Record(map["message" := Text(message)]))]
      ensures settled == old(settled) && resolvers == old(resolvers) && rejecters == old(rejecters)
      ensures SetupOf() == old(SetupOf()) && started == old(started) && sdkCalls == old(sdkCalls)
    {
      emitted := emitted + [Emit("trace", Record(map["message" := Text(message)]))];
    }

    /** `didInit`: resolves a pending `initialize`. */
    method DidInit()
      requires Paired()
      modifies this
      ensures Paired()
      ensures InitializeP in old(resolvers) ==>
                settled == old(settled) + [Resolved(old(resolvers)[InitializeP], NullData)] &&
                resolvers == old(resolvers) - {InitializeP}
      ensures InitializeP !in old(resolvers) ==> settled == old(settled) && resolvers == old(resolvers)
      ensures emitted == old(emitted) && SetupOf() == old(SetupOf()) && started == old(started) && sdkCalls == old(sdkCalls)
    {
      Settle(InitializeP, NullData);
    }

    /** `didActivate`: resolves a pending `activate`, then sends `activate` with an empty transcript. */
    method DidActivate()
      requires Paired()
      modifies this
      ensures Paired()
      ensures ActivateP in old(resolvers) ==>
                settled == old(settled) + [Resolved(old(resolvers)[ActivateP], NullData)] &&
                resolvers == old(resolvers) - {ActivateP}
      ensures ActivateP !in old(resolvers) ==> settled == old(settled) && resolvers == old(resolvers)
      ensures emitted == old(emitted) + [TranscriptEvent("activate", "")]
      ensures SetupOf() == old(SetupOf()) && started == old(started) && sdkCalls == old(sdkCalls)
    {
      Settle(ActivateP, NullData);
      emitted := emitted + [TranscriptEvent("activate", "")];
    }

    /** `didDeactivate`: resolves a pending `deactivate`, then sends `deactivate` with an empty transcript. */
    method DidDeactivate()
      requires Paired()
      modifies this
      ensures Paired()
      ensures DeactivateP in old(resolvers) ==>
                settled == old(settled) + [Resolved(old(resolvers)[DeactivateP], NullData)] &&
                resolvers == old(resolvers) - {DeactivateP}
      ensures DeactivateP !in old(resolvers) ==> settled == old(settled) && resolvers == old(resolvers)
      ensures emitted == old(emitted) + [TranscriptEvent("deactivate", "")]
      ensures SetupOf() == old(SetupOf()) && started == old(started) && sdkCalls == old(sdkCalls)
    {
      Settle(DeactivateP, NullData);
      emitted := emitted + [TranscriptEvent("deactivate", "")];
    }

    /** `didStart`: marks the pipeline started and resolves a pending `start`. */
    method DidStart()
      requires Paired()
      modifies this
      ensures Paired() && started
      ensures StartP in old(resolvers) ==>
                settled == old(settled) + [Resolved(old(resolvers)[StartP], NullData)] &&
                resolvers == old(resolvers) - {StartP}
      ensures StartP !in old(resolvers) ==> settled == old(settled) && resolvers == old(resolvers)
      ensures emitted == old(emitted) && SetupOf() == old(SetupOf()) && sdkCalls == old(sdkCalls)
    {
      started := true;
      Settle(StartP, NullData);
    }

    /** `didStop`: marks the pipeline stopped and resolves a pending `stop`. */
    method DidStop()
      requires Paired()
      modifies this
      ensures Paired() && !started
      ensures StopP in old(resolvers) ==>
                settled == old(settled) + [Resolved(old(resolvers)[StopP], NullData)] &&
                resolvers == old(resolvers) - {StopP}
      ensures StopP !in old(resolvers) ==> settled == old(settled) && resolvers == old(resolvers)
      ensures emitted == old(emitted) && SetupOf() == old(SetupOf()) && sdkCalls == old(sdkCalls)
    {
      started := false;
      Settle(StopP, NullData);
    }

    /** `didTimeout`: a `timeout` event with an empty transcript, no promise settled. */
    method DidTimeout()
      modifies this
      ensures emitted == old(emitted) + [TranscriptEvent("timeout", "")]
      ensures settled == old(settled) && resolvers == old(resolvers) && rejecters == old(rejecters)
      ensures SetupOf() == old(SetupOf()) && started == old(started) && sdkCalls == old(sdkCalls)
    {
      emitted := emitted + [TranscriptEvent("timeout", "")];
    }

    /** `didRecognize` and `didRecognizePartial`: the recognised transcript sent as its event, no promise settled. */
    method DidSpeechEvent(name: string, transcript: string)
      requires name == "recognize" || name == "partial_recognize"
      modifies this
      ensures emitted == old(emitted) + [TranscriptEvent(name, transcript)]
      ensures settled == old(settled) && resolvers == old(resolvers) && rejecters == old(rejecters)
      ensures SetupOf() == old(SetupOf()) && started == old(started) && sdkCalls == old(sdkCalls)
    {
      emitted := emitted + [TranscriptEvent(name, transcript)];
    }

    /** `success`: resolves a pending `synthesize` with the URL, or else a pending `speak` with nil. */
    method Success(url: string)
      requires Paired()
      modifies this
      ensures Paired()
      ensures var target := SuccessTarget(old(resolvers));
              (target == Some(SynthesizeP) ==>
                 settled == old(settled) + [Resolved(old(resolvers)[SynthesizeP], Text(url))] &&
                 resolvers == old(resolvers) - {SynthesizeP}) &&
              (target == Some(SpeakP) ==>
                 settled == old(settled) + [Resolved(old(resolvers)[SpeakP], NullData)] &&
                 resolvers == old(resolvers) - {SpeakP}) &&
              (target.None? ==> settled == old(settled) && resolvers == old(resolvers))
      ensures emitted == old(emitted) && SetupOf() == old(SetupOf()) && started == old(started) && sdkCalls == old(sdkCalls)
    {
      if SynthesizeP in resolvers {
        Settle(SynthesizeP, Text(url));
      } else if SpeakP in resolvers {
        Settle(SpeakP, NullData);
      }
    }

    /** `classification`: resolves a pending `classify` with the intent, the confidence and the slots. */
    method Classification(r: NluResult)
      requires Paired()
      modifies this
      ensures Paired()
      ensures ClassifyP in old(resolvers) ==>
                settled == old(settled) + [Resolved(old(resolvers)[ClassifyP], ClassificationValue(r))] &&
                resolvers == old(resolvers) - {ClassifyP}
      ensures ClassifyP !in old(resolvers) ==> settled == old(settled) && resolvers == old(resolvers)
      ensures emitted == old(emitted) && SetupOf() == old(SetupOf()) && started == old(started) && sdkCalls == old(sdkCalls)
    {
      Settle(ClassifyP, ClassificationValue(r));
    }

    /** `didBeginSpeaking`: resolves a pending `speak`, then sends `play` true. */
    method DidBeginSpeaking()
      requires Paired()
      modifies this
      ensures Paired()
      ensures SpeakP in old(resolvers) ==>
                settled == old(settled) + [Resolved(old(resolvers)[SpeakP], NullData)] &&
                resolvers == old(resolvers) - {SpeakP}
      ensures SpeakP !in old(resolvers) ==> settled == old(settled) && resolvers == old(resolvers)
      ensures emitted == old(emitted) + [Emit("play", Record(map["playing" := Flag(true)]))]
      ensures SetupOf() == old(SetupOf()) && started == old(started) && sdkCalls == old(sdkCalls)
    {
      Settle(SpeakP, NullData);
      emitted := emitted + [Emit("play", Record(map["playing" := Flag(true)]))];
    }

    /** `didFinishSpeaking`: sends `play` false. */
    method DidFinishSpeaking()
      modifies this
      ensures emitted == old(emitted) + [Emit("play", Record(map["playing" := Flag(false)]))]
      ensures settled == old(settled) && resolvers == old(resolvers) && rejecters == old(rejecters)
      ensures SetupOf() == old(SetupOf()) && started == old(started) && sdkCalls == old(sdkCalls)
    {
      emitted := emitted + [Emit("play", Record(map["playing" := Flag(false)]))];
    }

    /** `buildPipeline`: the classifier if one is wanted, then the pipeline from the builder. */
    method BuildPipeline(faults: BuildFaults)
      requires Paired()
      modifies this
      ensures Paired()
      ensures old(pipeline).Some? ==>
                SetupOf() == old(SetupOf()) && settled == old(settled) && emitted == old(emitted) &&
                resolvers == old(resolvers)
      ensures old(pipeline).None? ==>
                var e := BuildFailure(old(makeClassifier), old(hasBuilder), faults);
                SetupOf() == old(SetupOf()).(pipeline := pipeline, hasClassifier := hasClassifier) &&
                hasClassifier == (old(hasClassifier) || (old(makeClassifier) && faults.classifierError.None?)) &&
                (e.None? ==> pipeline == Some(PipelineSetup(old(profile), old(settings))) &&
                             settled == old(settled) && emitted == old(emitted) && resolvers == old(resolvers)) &&
                (e.Some? ==> pipeline.None? && emitted == old(emitted) + [ErrorEvent(e.value)] &&
                             resolvers == map[] && RejectedAfter(old(settled), settled, old(rejecters)))
      ensures started == old(started) && sdkCalls == old(sdkCalls)
    {
      if pipeline.Some? {
        return;
      }
      if makeClassifier {
        if faults.classifierError.Some? {
          Failure(faults.classifierError.value);
          return;
        }
        hasClassifier := true;
      }
      if hasBuilder {
        if faults.buildError.Some? {
          Failure(faults.buildError.value);
        } else {
          pipeline := Some(PipelineSetup(profile, settings));
        }
      } else {
        Failure(BuilderNotAvailable);
      }
    }

    /**
     * The completion of one model download: one request fewer; an error
     * fails everything, a file path is stored under the model's property,
     * and the last completion builds the pipeline.
     */
    method DownloadComplete(property: string, error: Option<string>, fileUrl: Option<string>, faults: BuildFaults)
      requires Paired()
      modifies this
      ensures Paired()
      ensures numRequests == old(numRequests) - 1
      ensures error.Some? ==>
                SetupOf() == old(SetupOf()).(numRequests := numRequests) &&
                emitted == old(emitted) + [ErrorEvent(error.value)] &&
                resolvers == map[] && RejectedAfter(old(settled), settled, old(rejecters))
      ensures error.None? ==> settings == old(settings)[property := PathSetting(fileUrl)]
      ensures error.None? && old(numRequests) - 1 > 0 ==>
                SetupOf() == old(SetupOf()).(numRequests := numRequests, settings := settings) &&
                settled == old(settled) && emitted == old(emitted) && resolvers == old(resolvers)
      ensures error.None? && old(numRequests) - 1 <= 0 && old(pipeline).None? &&
              BuildFailure(old(makeClassifier), old(hasBuilder), faults).None? ==>
                pipeline == Some(PipelineSetup(old(profile), settings)) &&
                settled == old(settled) && emitted == old(emitted) && resolvers == old(resolvers)
      ensures error.None? && old(numRequests) - 1 <= 0 && old(pipeline).None? &&
              BuildFailure(old(makeClassifier), old(hasBuilder), faults).Some? ==>
                pipeline.None? &&
                emitted == old(emitted) + [ErrorEvent(BuildFailure(old(makeClassifier), old(hasBuilder), faults).value)] &&
                resolvers == map[] && RejectedAfter(old(settled), settled, old(rejecters))
      ensures error.None? && old(numRequests) - 1 <= 0 && old(pipeline).Some? ==>
                pipeline == old(pipeline) &&
                settled == old(settled) && emitted == old(emitted) && resolvers == old(resolvers)
      ensures started == old(started) && sdkCalls == old(sdkCalls)
    {
      numRequests := numRequests - 1;
      if error.Some? {
        Failure(error.value);
      } else {
        settings := settings[property := PathSetting(fileUrl)];
        if numRequests <= 0 {
          BuildPipeline(faults);
        }
      }
    }

    /** The part of `initialize` before the dictionary is read: downloader, credentials, builder. */
    method Prepare(clientId: string, clientSecret: string, config: Option<IosConfig>)
      modifies this
      ensures downloader == Some(DownloaderFor(config)) && hasBuilder && profile == PushToTalkAppleSpeech
      ensures settings == InitialParse(old(settings), clientId, clientSecret).settings
      ensures SetupOf() == old(SetupOf()).(downloader := downloader, hasBuilder := true, profile := profile, settings := settings)
      ensures settled == old(settled) && emitted == old(emitted) && resolvers == old(resolvers) && rejecters == old(rejecters)
      ensures started == old(started) && sdkCalls == old(sdkCalls)
    {
      downloader := Some(DownloaderFor(config));
      settings := settings["apiId" := TextSetting(clientId)]["apiSecret" := TextSetting(clientSecret)];
      hasBuilder := true;
      profile := PushToTalkAppleSpeech;
    }

    /** The dictionary read into the configuration and the builder's profile; then the synthesizer. */
    method ApplyConfig(c: IosConfig) returns (st: ParseState)
      modifies this
      ensures st == ParseConfig(ParseState(old(settings), old(profile), map[], map[]), c)
      ensures settings == st.settings && profile == st.profile && hasSynthesizer
      ensures SetupOf() == old(SetupOf()).(settings := settings, profile := profile, hasSynthesizer := true)
      ensures settled == old(settled) && emitted == old(emitted) && resolvers == old(resolvers) && rejecters == old(rejecters)
      ensures started == old(started) && sdkCalls == old(sdkCalls)
    {
      st := ParseLoops(ParseState(settings, profile, map[], map[]), c);
      settings := st.settings;
      profile := st.profile;
      hasSynthesizer := true;
    }

    /** The request count set before any download starts, then the downloads of each complete table. */
    method RequestDownloads(st: ParseState)
      modifies this
      ensures numRequests == RequestCount(st)
      ensures makeClassifier == (old(makeClassifier) || |st.nlu.Keys| == 3)
      ensures |downloads| >= |old(downloads)| && downloads[..|old(downloads)|] == old(downloads)
      ensures IssuedFor(downloads[|old(downloads)|..], st)
      ensures SetupOf() == old(SetupOf()).(numRequests := numRequests, makeClassifier := makeClassifier, downloads := downloads)
      ensures settled == old(settled) && emitted == old(emitted) && resolvers == old(resolvers) && rejecters == old(rejecters)
      ensures started == old(started) && sdkCalls == old(sdkCalls)
    {
      numRequests := RequestCount(st);
      var ds: seq<Download> := [];
      if |st.wake.Keys| == 3 {
        ds := IssueAll(st.wake);
      }
      if |st.nlu.Keys| == 3 {
        makeClassifier := true;
        var more := IssueAll(st.nlu);
        ds := ds + more;
      }
      downloads := downloads + ds;
      assert downloads[|old(downloads)|..] == ds;
    }

    /**
     * `initialize`. Nothing happens once a pipeline exists. Without a
     * dictionary it traps on the forced unwrap, after the downloader,
     * the credentials and the builder are set. Otherwise the promise is
     * stored, the downloads of every complete model table are issued, and
     * the pipeline is built at once when there are none.
     */
    method Initialize(clientId: string, clientSecret: string, config: Option<IosConfig>, p: PromiseId, faults: BuildFaults)
      returns (trapped: bool)
      requires Paired()
      modifies this
      ensures Paired()
      ensures trapped <==> old(pipeline).None? && config.None?
      ensures old(pipeline).Some? ==>
                SetupOf() == old(SetupOf()) && settled == old(settled) && emitted == old(emitted) &&
                resolvers == old(resolvers)
      ensures old(pipeline).None? && config.None? ==>
                downloader == Some(DownloaderSettings(false, false)) && hasBuilder &&
                settings == InitialParse(old(settings), clientId, clientSecret).settings &&
                settled == old(settled) && resolvers == old(resolvers)
      ensures old(pipeline).None? && config.Some? ==>
                var st := ParseConfig(InitialParse(old(settings), clientId, clientSecret), config.value);
                downloader == Some(DownloaderFor(config)) && hasBuilder && hasSynthesizer &&
                settings == st.settings && profile == st.profile &&
                numRequests == RequestCount(st) &&
                makeClassifier == (old(makeClassifier) || |st.nlu.Keys| == 3) &&
                |downloads| >= |old(downloads)| && downloads[..|old(downloads)|] == old(downloads) &&
                IssuedFor(downloads[|old(downloads)|..], st) &&
                (RequestCount(st) > 0 ==>
                   pipeline.None? && settled == old(settled) && resolvers == old(resolvers)[InitializeP := p]) &&
                (RequestCount(st) == 0 && BuildFailure(old(makeClassifier), true, faults).None? ==>
                   pipeline == Some(PipelineSetup(st.profile, st.settings)) &&
                   settled == old(settled) && resolvers == old(resolvers)[InitializeP := p]) &&
                (RequestCount(st) == 0 && BuildFailure(old(makeClassifier), true, faults).Some? ==>
                   pipeline.None? && resolvers == map[] &&
                   RejectedAfter(old(settled), settled, old(rejecters)[InitializeP := p]))
      ensures started == old(started) && sdkCalls == old(sdkCalls)
    {
      trapped := false;
      if pipeline.Some? {
        return;
      }
      Prepare(clientId, clientSecret, config);
      if config.None? {
        trapped := true;
        return;
      }
      var st := ApplyConfig(config.value);
      Put(InitializeP, p);
      RequestDownloads(st);
      if numRequests == 0 {
        BuildPipeline(faults);
      }
    }

    /** Stores the promise and makes the call when the handle exists; rejects it as not initialized otherwise. */
    method Request(kind: PromiseKind, p: PromiseId, available: bool, call: SdkCall, component: string)
      requires Paired()
      modifies this
      ensures Paired()
      ensures available ==>
                resolvers == old(resolvers)[kind := p] && sdkCalls == old(sdkCalls) + [call] && settled == old(settled)
      ensures !available ==>
                settled == old(settled) + [NotInitialized(p, component)] &&
                resolvers == old(resolvers) && sdkCalls == old(sdkCalls)
      ensures emitted == old(emitted) && SetupOf() == old(SetupOf()) && started == old(started)
    {
      if available {
        Put(kind, p);
        sdkCalls := sdkCalls + [call];
      } else {
        settled := settled + [NotInitialized(p, component)];
      }
    }

    /** `start`: needs the pipeline. */
    method Start(p: PromiseId)
      requires Paired()
      modifies this
      ensures Paired()
      ensures pipeline.Some? ==>
                resolvers == old(resolvers)[StartP := p] && sdkCalls == old(sdkCalls) + [StartCall] && settled == old(settled)
      ensures pipeline.None? ==>
                settled == old(settled) + [NotInitialized(p, "Speech Pipeline")] &&
                resolvers == old(resolvers) && sdkCalls == old(sdkCalls)
      ensures emitted == old(emitted) && SetupOf() == old(SetupOf()) && started == old(started)
    {
      Request(StartP, p, pipeline.Some?, StartCall, "Speech Pipeline");
    }

    /** `stop`: needs the pipeline. */
    method Stop(p: PromiseId)
      requires Paired()
      modifies this
      ensures Paired()
      ensures pipeline.Some? ==>
                resolvers == old(resolvers)[StopP := p] && sdkCalls == old(sdkCalls) + [StopCall] && settled == old(settled)
      ensures pipeline.None? ==>
                settled == old(settled) + [NotInitialized(p, "Speech Pipeline")] &&
                resolvers == old(resolvers) && sdkCalls == old(sdkCalls)
      ensures emitted == old(emitted) && SetupOf() == old(SetupOf()) && started == old(started)
    {
      Request(StopP, p, pipeline.Some?, StopCall, "Speech Pipeline");
    }

    /** `activate`: needs the pipeline, and a started one; a stopped pipeline rejects with `not_started`. */
    method Activate(p: PromiseId)
      requires Paired()
      modifies this
      ensures Paired()
      ensures pipeline.Some? && started ==>
                resolvers == old(resolvers)[ActivateP := p] && sdkCalls == old(sdkCalls) + [ActivateCall] &&
                settled == old(settled)
      ensures pipeline.Some? && !started ==>
                settled == old(settled) + [Rejected(p, Some(NotStartedCode), NotStartedMessage)] &&
                resolvers == old(resolvers) && sdkCalls == old(sdkCalls)
      ensures pipeline.None? ==>
                settled == old(settled) + [NotInitialized(p, "Speech Pipeline")] &&
                resolvers == old(resolvers) && sdkCalls == old(sdkCalls)
      ensures emitted == old(emitted) && SetupOf() == old(SetupOf()) && started == old(started)
    {
      if pipeline.Some? && !started {
        settled := settled + [Rejected(p, Some(NotStartedCode), NotStartedMessage)];
        return;
      }
      Request(ActivateP, p, pipeline.Some?, ActivateCall, "Speech Pipeline");
    }

    /** `deactivate`: needs the pipeline, started or not. */
    method Deactivate(p: PromiseId)
      requires Paired()
      modifies this
      ensures Paired()
      ensures pipeline.Some? ==>
                resolvers == old(resolvers)[DeactivateP := p] && sdkCalls == old(sdkCalls) + [DeactivateCall] &&
                settled == old(settled)
      ensures pipeline.None? ==>
                settled == old(settled) + [NotInitialized(p, "Speech Pipeline")] &&
                resolvers == old(resolvers) && sdkCalls == old(sdkCalls)
      ensures emitted == old(emitted) && SetupOf() == old(SetupOf()) && started == old(started)
    {
      Request(DeactivateP, p, pipeline.Some?, DeactivateCall, "Speech Pipeline");
    }

    /** `synthesize`: needs the synthesizer; an unknown format number falls back to plain text. */
    method Synthesize(input: string, format: int, voice: string, p: PromiseId)
      requires Paired()
      modifies this
      ensures Paired()
      ensures hasSynthesizer ==>
                resolvers == old(resolvers)[SynthesizeP := p] && settled == old(settled) &&
                sdkCalls == old(sdkCalls) + [SynthesizeCall(SynthesisRequest(input, FormatOrText(format), voice))]
      ensures !hasSynthesizer ==>
                settled == old(settled) + [NotInitialized(p, "Spokestack TTS")] &&
                resolvers == old(resolvers) && sdkCalls == old(sdkCalls)
      ensures emitted == old(emitted) && SetupOf() == old(SetupOf()) && started == old(started)
    {
      Request(SynthesizeP, p, hasSynthesizer, SynthesizeCall(SynthesisRequest(input, FormatOrText(format), voice)),
              "Spokestack TTS");
    }

    /** `speak`: as `synthesize`, with the speak call and the speak promise. */
    method Speak(input: string, format: int, voice: string, p: PromiseId)
      requires Paired()
      modifies this
      ensures Paired()
      ensures hasSynthesizer ==>
                resolvers == old(resolvers)[SpeakP := p] && settled == old(settled) &&
                sdkCalls == old(sdkCalls) + [SpeakCall(SynthesisRequest(input, FormatOrText(format), voice))]
      ensures !hasSynthesizer ==>
                settled == old(settled) + [NotInitialized(p, "Spokestack TTS")] &&
                resolvers == old(resolvers) && sdkCalls == old(sdkCalls)
      ensures emitted == old(emitted) && SetupOf() == old(SetupOf()) && started == old(started)
    {
      Request(SpeakP, p, hasSynthesizer, SpeakCall(SynthesisRequest(input, FormatOrText(format), voice)),
              "Spokestack TTS");
    }

    /** `classify`: needs the classifier. */
    method Classify(utterance: string, p: PromiseId)
      requires Paired()
      modifies this
      ensures Paired()
      ensures hasClassifier ==>
                resolvers == old(resolvers)[ClassifyP := p] && sdkCalls == old(sdkCalls) + [ClassifyCall(utterance)] &&
                settled == old(settled)
      ensures !hasClassifier ==>
                settled == old(settled) + [NotInitialized(p, "Spokestack NLU")] &&
                resolvers == old(resolvers) && sdkCalls == old(sdkCalls)
      ensures emitted == old(emitted) && SetupOf() == old(SetupOf()) && started == old(started)
    {
      Request(ClassifyP, p, hasClassifier, ClassifyCall(utterance), "Spokestack NLU");
    }
  }
}
