/**
 * The Spokestack.Builder as the Android modules drive it, recorded as the
 * sequence of calls made on it, and the six-entry PipelineProfiles enum
 * both Android modules index by ordinal.
 */
module SpokestackBuilder {
  import opened Bridge

  /** One call on `Spokestack.Builder` (or on its pipeline builder). */
  datatype BuilderCall =
    | AddListener
    | WithAndroidContext
    | SetProperty(key: string, value: Value)
    | UseProfile(profileClass: string)
    | WithoutSpeechPipeline
    | WithoutAutoClassification
    | WithoutNlu
    | WithoutWakeword
    | WithoutAutoPlayback
    | Build

  /** The `PipelineProfiles` enum, in declaration order. */
  datatype PipelineProfile =
    | TFLiteWakewordNativeASR
    | VADNativeASR
    | PTTNativeASR
    | TFLiteWakewordSpokestackASR
    | VADSpokestackASR
    | PTTSpokestackASR

  const ProfileCount: nat := 6

  function Ordinal(p: PipelineProfile): (i: nat)
    ensures i < ProfileCount
  {
    match p
    case TFLiteWakewordNativeASR => 0
    case VADNativeASR => 1
    case PTTNativeASR => 2
    case TFLiteWakewordSpokestackASR => 3
    case VADSpokestackASR => 4
    case PTTSpokestackASR => 5
  }

  /** `PipelineProfiles.values()[i]`: an index outside the enum throws, nothing is clamped. */
  function ProfileAt(i: int): (r: Result<PipelineProfile, string>)
    ensures r.Success? <==> 0 <= i < ProfileCount
    ensures r.Success? ==> Ordinal(r.value) == i
    ensures r.Failure? ==> r.error == "ArrayIndexOutOfBoundsException"
  {
    if i == 0 then Success(TFLiteWakewordNativeASR)
    else if i == 1 then Success(VADNativeASR)
    else if i == 2 then Success(PTTNativeASR)
    else if i == 3 then Success(TFLiteWakewordSpokestackASR)
    else if i == 4 then Success(VADSpokestackASR)
    else if i == 5 then Success(PTTSpokestackASR)
    else Failure("ArrayIndexOutOfBoundsException")
  }

  /** Looking a profile up by its own ordinal gives it back. */
  lemma ProfileAtOrdinal(p: PipelineProfile)
    ensures ProfileAt(Ordinal(p)) == Success(p)
  {
  }

  /** The package the SDK's profile classes live in. */
  const ProfilePackage: string := "io.spokestack.spokestack.profile."

  /** The simple name of the SDK profile class an entry stands for. */
  function ProfileName(p: PipelineProfile): string
  {
    match p
    case TFLiteWakewordNativeASR => "TFWakewordAndroidASR"
    case VADNativeASR => "VADTriggerAndroidASR"
    case PTTNativeASR => "PushToTalkAndroidASR"
    case TFLiteWakewordSpokestackASR => "TFWakewordSpokestackASR"
    case VADSpokestackASR => "VADTriggerSpokestackASR"
    case PTTSpokestackASR => "PushToTalkSpokestackASR"
  }

  /** `value()`: the canonical name of the SDK profile class the entry stands for. */
  function ProfileClass(p: PipelineProfile): string
  {
    ProfilePackage + ProfileName(p)
  }

  /** The class name of every entry, in full. */
  lemma ProfileClassNames()
    ensures ProfileClass(TFLiteWakewordNativeASR) == "io.spokestack.spokestack.profile.TFWakewordAndroidASR"
    ensures ProfileClass(VADNativeASR) == "io.spokestack.spokestack.profile.VADTriggerAndroidASR"
    ensures ProfileClass(PTTNativeASR) == "io.spokestack.spokestack.profile.PushToTalkAndroidASR"
    ensures ProfileClass(TFLiteWakewordSpokestackASR) == "io.spokestack.spokestack.profile.TFWakewordSpokestackASR"
    ensures ProfileClass(VADSpokestackASR) == "io.spokestack.spokestack.profile.VADTriggerSpokestackASR"
    ensures ProfileClass(PTTSpokestackASR) == "io.spokestack.spokestack.profile.PushToTalkSpokestackASR"
  {
    TFWakewordAndroidASRName();
    VADTriggerAndroidASRName();
    PushToTalkAndroidASRName();
    TFWakewordSpokestackASRName();
    VADTriggerSpokestackASRName();
    PushToTalkSpokestackASRName();
  }

  lemma TFWakewordAndroidASRName()
    ensures ProfileClass(TFLiteWakewordNativeASR) == "io.spokestack.spokestack.profile.TFWakewordAndroidASR"
  {
  }

  lemma VADTriggerAndroidASRName()
    ensures ProfileClass(VADNativeASR) == "io.spokestack.spokestack.profile.VADTriggerAndroidASR"
  {
  }

  lemma PushToTalkAndroidASRName()
    ensures ProfileClass(PTTNativeASR) == "io.spokestack.spokestack.profile.PushToTalkAndroidASR"
  {
  }

  lemma TFWakewordSpokestackASRName()
    ensures ProfileClass(TFLiteWakewordSpokestackASR) == "io.spokestack.spokestack.profile.TFWakewordSpokestackASR"
  {
  }

  lemma VADTriggerSpokestackASRName()
    ensures ProfileClass(VADSpokestackASR) == "io.spokestack.spokestack.profile.VADTriggerSpokestackASR"
  {
  }

  lemma PushToTalkSpokestackASRName()
    ensures ProfileClass(PTTSpokestackASR) == "io.spokestack.spokestack.profile.PushToTalkSpokestackASR"
  {
  }

  /**
   * Distinct enum entries name distinct profile classes: the names differ
   * in their length (Android or Spokestack ASR) or in the first letter after
   * the package (wakeword, VAD or push-to-talk).
   */
  lemma ProfileClassInjective(p: PipelineProfile, q: PipelineProfile)
    ensures ProfileClass(p) == ProfileClass(q) ==> p == q
  {
    if ProfileClass(p) == ProfileClass(q) {
      assert |ProfileName(p)| == |ProfileName(q)|;
      assert ProfileClass(p)[|ProfilePackage|] == ProfileName(p)[0];
      assert ProfileClass(q)[|ProfilePackage|] == ProfileName(q)[0];
    }
  }

  /** The SDK's synthesis modes, `SynthesisRequest.Mode.values()`. */
  datatype SynthesisMode = TextMode | SsmlMode | MarkdownMode

  /** `Mode.values()[format]`: formats 0, 1 and 2 are text, SSML and speech markdown, and no other format has a mode. */
  function ModeAt(format: int): (r: Option<SynthesisMode>)
    ensures r.Some? <==> 0 <= format <= 2
    ensures format == 0 ==> r == Some(TextMode)
    ensures format == 1 ==> r == Some(SsmlMode)
    ensures format == 2 ==> r == Some(MarkdownMode)
  {
    if format == 0 then Some(TextMode)
    else if format == 1 then Some(SsmlMode)
    else if format == 2 then Some(MarkdownMode)
    else None
  }

  /** A request handed to `spokestack.synthesize`. */
  datatype SynthesisRequest = SynthesisRequest(input: string, mode: SynthesisMode, voice: string)

  /** One call on the built `Spokestack` object or on its speech pipeline. */
  datatype SdkCall =
    | StartCall
    | StopCall
    | ActivateCall
    | DeactivateCall
    | PipelineStart
    | PipelineStop
    | SynthesizeCall(request: SynthesisRequest)
    | SpeakCall(request: SynthesisRequest)
    | ClassifyCall(utterance: string)

  /** The assembly `build()` returns, known by the calls that configured it. */
  datatype Assembly = Assembly(calls: seq<BuilderCall>)
  {
    /** `getSpeechPipeline() != null`: the pipeline was not switched off. */
    predicate HasSpeechPipeline() { WithoutSpeechPipeline !in calls }
  }

  /** `setProperty(k, v)` for every entry of a section, keys unchanged, in iteration order. */
  function SetAll(section: seq<(string, Value)>): (calls: seq<BuilderCall>)
    ensures |calls| == |section|
    ensures forall i :: 0 <= i < |section| ==> calls[i] == SetProperty(section[i].0, section[i].1)
  {
    if section == [] then [] else [SetProperty(section[0].0, section[0].1)] + SetAll(section[1..])
  }

  /** Calls that only set properties: no listener, switch or build among them. */
  predicate OnlySetProperty(calls: seq<BuilderCall>)
  {
    forall i :: 0 <= i < |calls| ==> calls[i].SetProperty?
  }

  /** The value of the first entry with the given key. */
  function Lookup<V>(section: seq<(string, V)>, key: string): (r: Option<V>)
    ensures r.Some? <==> exists i :: 0 <= i < |section| && section[i].0 == key
    ensures r.Some? ==> exists i :: 0 <= i < |section| && section[i] == (key, r.value)
  {
    if section == [] then None
    else if section[0].0 == key then Some(section[0].1)
    else Lookup(section[1..], key)
  }
}
