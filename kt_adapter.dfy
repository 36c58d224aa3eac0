/**
 * The Kotlin event adapter of the `com.reactnativespokestack` package: it
 * turns SDK errors, traces, NLU results, TTS events and speech events into
 * at most one named event with a flat payload each.
 */
module KtAdapter {
  import opened Bridge
  import opened SdkEvents
  import RNAdapter

  /**
   * The value a slot map carries: booleans, `Int`s and `Double`s keep their
   * type, null stays an explicit null, anything else becomes its text.
   */
  function SlotValue(v: Value): (r: Value)
    ensures v.Null? || v.Boolean? || (v.Number? && (v.kind == IntegerK || v.kind == DoubleK)) ==> r == v
    ensures v.Str? || v.Character? || v.Object? || (v.Number? && v.kind != IntegerK && v.kind != DoubleK) ==>
              r == Str(ToString(v))
  {
    match v
    case Null => Null
    case Boolean(_) => v
    case Number(kind, _, _) => if kind == IntegerK || kind == DoubleK then v else Str(ToString(v))
    case _ => Str(ToString(v))
  }

  /**
   * The two adapters type slot values alike except for `Float`, `Long` and
   * `Short` numbers, which the Java adapter keeps and this one stringifies.
   */
  lemma SlotTypingAgreement(v: Value)
    ensures SlotValue(v) == RNAdapter.NormalizeValue(v) <==>
              !(v.Number? && (v.kind == FloatK || v.kind == LongK || v.kind == ShortK))
  {
    if v.Number? && (v.kind == FloatK || v.kind == LongK || v.kind == ShortK) {
      assert SlotValue(v).Str?;
    }
  }

  /** The `{type, rawValue, value}` map pushed for one slot. */
  function SlotMap(s: Slot): (d: Data)
    ensures Keys(d) == {"type", "rawValue", "value"}
    ensures Field(d, "type") == Some(Text(s.slotType))
    ensures Field(d, "rawValue") == Some(Text(s.rawValue))
    ensures Field(d, "value") == Some(Scalar(SlotValue(s.value)))
  {
    Record(map["type" := Text(s.slotType), "rawValue" := Text(s.rawValue), "value" := Scalar(SlotValue(s.value))])
  }

  /** The `classify` payload: intent, confidence text and the array of slot maps in iteration order. */
  function NluPayload(r: NluResult): Data
  {
    Record(map["intent" := Text(r.intent), "confidence" := Text(r.confidence.text),
               "slots" := Items(SlotMaps(r.slots))])
  }

  function SlotMaps(entries: seq<(string, Slot)>): (maps: seq<Data>)
    ensures |maps| == |entries|
    ensures forall i :: 0 <= i < |entries| ==> maps[i] == SlotMap(entries[i].1)
  {
    if entries == [] then [] else SlotMaps(entries[..|entries| - 1]) + [SlotMap(entries[|entries| - 1].1)]
  }

  /** `nluResult`, as the loop that pushes one slot map per slot onto the array. */
  method NluResultEvent(r: NluResult) returns (e: Emit)
    ensures e == Emit("classify", NluPayload(r))
    ensures Field(e.payload, "intent") == Some(Text(r.intent))
    ensures Field(e.payload, "confidence") == Some(Text(r.confidence.text))
    ensures Field(e.payload, "slots").Some? && Field(e.payload, "slots").value.Items?
    ensures var items := Field(e.payload, "slots").value.elems;
            |items| == |r.slots| &&
            forall i :: 0 <= i < |r.slots| ==> items[i] == SlotMap(r.slots[i].1)
  {
    var slots: seq<Data> := [];
    var i := 0;
    while i < |r.slots|
      invariant 0 <= i <= |r.slots|
      invariant slots == SlotMaps(r.slots[..i])
    {
      assert r.slots[..i + 1][..i] == r.slots[..i];
      slots := slots + [SlotMap(r.slots[i].1)];
      i := i + 1;
    }
    assert r.slots[..i] == r.slots;
    e := Emit("classify", Record(map["intent" := Text(r.intent), "confidence" := Text(r.confidence.text),
                                      "slots" := Items(slots)]));
  }

  /** `error`: the module's name and the error's message, on `error`. */
  function ErrorEvent(moduleName: string, message: string): (e: Emit)
    ensures e.name == "error" && Keys(e.payload) == {"error"}
    ensures Field(e.payload, "error") == Some(Text(moduleName + " " + message))
  {
    Emit("error", Record(map["error" := Text(moduleName + " " + message)]))
  }

  /** `trace`: the module's name and the message, on `trace`. */
  function TraceEvent(moduleName: string, message: string): (e: Emit)
    ensures e.name == "trace" && Keys(e.payload) == {"message"}
    ensures Field(e.payload, "message") == Some(Text(moduleName + " " + message))
  {
    Emit("trace", Record(map["message" := Text(moduleName + " " + message)]))
  }

  /**
   * `ttsEvent`: audio → `synthesize` with the URL, playback start/stop →
   * `play`, error → `error` with a prefix; completion and a null type send
   * nothing. Reading the URL of a missing response, or the message of a
   * missing error, throws.
   */
  function TtsDelivery(ev: TtsEvent): (d: Delivery)
    ensures ev.kind.None? || ev.kind == Some(PlaybackComplete) <==> d.NoSend?
    ensures ev.kind == Some(AudioAvailable) && ev.audioUri.Some? ==>
              d == Send(Emit("synthesize", Record(map["url" := Text(ev.audioUri.value)])))
    ensures ev.kind == Some(PlaybackStarted) ==> d == Send(Emit("play", Record(map["playing" := Flag(true)])))
    ensures ev.kind == Some(PlaybackStopped) ==> d == Send(Emit("play", Record(map["playing" := Flag(false)])))
    ensures ev.kind == Some(TtsError) && ev.error.Some? ==>
              d == Send(Emit("error", Record(map["error" := Text("TTS error: " + ev.error.value)])))
    ensures d.Throw? <==> (ev.kind == Some(AudioAvailable) && ev.audioUri.None?) || (ev.kind == Some(TtsError) && ev.error.None?)
  {
    match ev.kind
    case None => NoSend
    case Some(AudioAvailable) =>
      if ev.audioUri.None? then Throw("NullPointerException")
      else Send(Emit("synthesize", Record(map["url" := Text(ev.audioUri.value)])))
    case Some(PlaybackStarted) => Send(Emit("play", Record(map["playing" := Flag(true)])))
    case Some(PlaybackStopped) => Send(Emit("play", Record(map["playing" := Flag(false)])))
    case Some(PlaybackComplete) => NoSend
    case Some(TtsError) =>
      if ev.error.None? then Throw("NullPointerException")
      else Send(Emit("error", Record(map["error" := Text("TTS error: " + ev.error.value)])))
  }

  /**
   * `speechEvent`: recognition events carry the transcript, activation,
   * deactivation and timeout carry an empty one, an error carries its
   * message; the name sent is the enum constant's name.
   */
  function SpeechDelivery(e: SpeechEvent, ctx: SpeechContext): Delivery
  {
    match e
    case Recognize => Send(Emit(EventName(e), Record(map["transcript" := Text(ctx.transcript)])))
    case PartialRecognize => Send(Emit(EventName(e), Record(map["transcript" := Text(ctx.transcript)])))
    case Activate => Send(Emit(EventName(e), Record(map["transcript" := Text("")])))
    case Deactivate => Send(Emit(EventName(e), Record(map["transcript" := Text("")])))
    case Timeout => Send(Emit(EventName(e), Record(map["transcript" := Text("")])))
    case SpeechError =>
      if ctx.error.None? then Throw("NullPointerException")
      else Send(Emit(EventName(e), Record(map["error" := Text(ctx.error.value)])))
    case Trace => NoSend
  }

  /**
   * Every speech event that is sent goes out under its own enum name; the
   * recognition events carry the context's transcript, the others an
   * empty transcript or the error's message; trace events send nothing.
   */
  lemma SpeechDeliveryContents(e: SpeechEvent, ctx: SpeechContext)
    ensures SpeechDelivery(e, ctx).Send? ==> SpeechDelivery(e, ctx).emit.name == EventName(e)
    ensures e == Recognize || e == PartialRecognize ==>
              SpeechDelivery(e, ctx).Send? && Field(SpeechDelivery(e, ctx).emit.payload, "transcript") == Some(Text(ctx.transcript))
    ensures e == Activate || e == Deactivate || e == Timeout ==>
              SpeechDelivery(e, ctx).Send? && Field(SpeechDelivery(e, ctx).emit.payload, "transcript") == Some(Text(""))
    ensures e == SpeechError && ctx.error.Some? ==>
              SpeechDelivery(e, ctx) == Send(Emit("ERROR", Record(map["error" := Text(ctx.error.value)])))
    ensures SpeechDelivery(e, ctx).NoSend? <==> e == Trace
    ensures SpeechDelivery(e, ctx).Throw? <==> e == SpeechError && ctx.error.None?
  {
  }
}
