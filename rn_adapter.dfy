/**
 * The Java event adapter of the `io.spokestack.RNSpokestack` package: it
 * turns SDK traces, errors, TTS events and NLU results into one flat
 * payload on one named host channel each.
 */
module RNAdapter {
  import opened Bridge
  import opened SdkEvents

  const SpeechChannel: string := "onSpeechEvent"
  const TtsChannel: string := "onTTSEvent"
  const ErrorChannel: string := "onErrorEvent"
  const NluChannel: string := "onNLUEvent"

  /** `isPrimitive`: the values the host bridge can carry as they are. */
  function IsPrimitive(v: Value): (r: bool)
    ensures r <==> v.Null? || v.Boolean? || v.Str? || (v.Number? && v.kind != ByteK)
  {
    match v
    case Null => true
    case Boolean(_) => true
    case Number(kind, _, _) => kind != ByteK
    case Str(_) => true
    case Character(_) => false
    case Object(_, _) => false
  }

  /** A slot value as the envelope carries it: primitives pass, anything else becomes its `toString()`. */
  function NormalizeValue(v: Value): (r: Value)
    ensures IsPrimitive(r)
    ensures IsPrimitive(v) ==> r == v
    ensures !IsPrimitive(v) ==> r == Str(ToString(v))
    ensures r.Null? <==> v.Null?
  {
    if IsPrimitive(v) then v else Str(ToString(v))
  }

  /** The `{type, value, rawValue}` map one slot becomes. */
  function SlotEntry(s: Slot): (d: Data)
    ensures Keys(d) == {"type", "value", "rawValue"}
    ensures Field(d, "type") == Some(Text(s.slotType))
    ensures Field(d, "rawValue") == Some(Text(s.rawValue))
    ensures Field(d, "value") == Some(Scalar(NormalizeValue(s.value)))
  {
    Record(map["type" := Text(s.slotType), "value" := Scalar(NormalizeValue(s.value)), "rawValue" := Text(s.rawValue)])
  }

  /** The slots map after putting every entry in turn; a later key overwrites an earlier one. */
  function SlotsMap(entries: seq<(string, Slot)>): map<string, Data>
  {
    if entries == [] then map[]
    else
      var last := entries[|entries| - 1];
      SlotsMap(entries[..|entries| - 1])[last.0 := SlotEntry(last.1)]
  }

  /** The output slots map has exactly the input's slot keys. */
  lemma {:induction false} SlotsMapKeys(entries: seq<(string, Slot)>)
    ensures SlotsMap(entries).Keys == KeySet(entries)
  {
    if entries != [] {
      SlotsMapKeys(entries[..|entries| - 1]);
      KeySetSnoc(entries);
    }
  }

  /** With distinct keys, each slot's entry is built from that slot alone. */
  lemma {:induction false} SlotsMapAt(entries: seq<(string, Slot)>, i: nat)
    requires DistinctKeys(entries)
    requires i < |entries|
    ensures entries[i].0 in SlotsMap(entries)
    ensures SlotsMap(entries)[entries[i].0] == SlotEntry(entries[i].1)
  {
    var n := |entries| - 1;
    if i < n {
      var init := entries[..n];
      assert DistinctKeys(init);
      assert init[i] == entries[i];
      SlotsMapAt(init, i);
      assert entries[n].0 != entries[i].0;
    }
  }

  /** The `result` map: intent verbatim, confidence as `Float.toString`, the slots map. */
  function ResultMap(r: NluResult): Data
  {
    Record(map["intent" := Text(r.intent), "confidence" := Text(r.confidence.text),
               "slots" := Record(SlotsMap(r.slots))])
  }

  /** `toEvent`: the classification envelope. */
  function ClassificationEvent(r: NluResult): Data
  {
    Record(map["result" := ResultMap(r), "event" := Text("classification")])
  }

  /** `toEvent`, as the loop over the slot entries that fills the slots map. */
  method ToEvent(r: NluResult) returns (event: Data)
    ensures event == ClassificationEvent(r)
  {
    var slots: map<string, Data> := map[];
    var i := 0;
    while i < |r.slots|
      invariant 0 <= i <= |r.slots|
      invariant slots == SlotsMap(r.slots[..i])
    {
      var entry := r.slots[i];
      assert r.slots[..i + 1][..i] == r.slots[..i];
      slots := slots[entry.0 := SlotEntry(entry.1)];
      i := i + 1;
    }
    assert r.slots[..i] == r.slots;
    var result := Record(map["intent" := Text(r.intent), "confidence" := Text(r.confidence.text),
                             "slots" := Record(slots)]);
    event := Record(map["result" := result, "event" := Text("classification")]);
  }

  /**
   * What the envelope says about a result whose slot keys are distinct:
   * the tag, the intent, the confidence text, and one entry per slot key
   * holding type, normalised value and raw value.
   */
  lemma ClassificationContents(r: NluResult)
    requires DistinctKeys(r.slots)
    ensures Keys(ClassificationEvent(r)) == {"event", "result"}
    ensures Field(ClassificationEvent(r), "event") == Some(Text("classification"))
    ensures Keys(ResultMap(r)) == {"intent", "confidence", "slots"}
    ensures Field(ResultMap(r), "intent") == Some(Text(r.intent))
    ensures Field(ResultMap(r), "confidence") == Some(Text(r.confidence.text))
    ensures Keys(Field(ResultMap(r), "slots").value) == KeySet(r.slots)
    ensures forall i :: 0 <= i < |r.slots| ==>
              Field(Field(ResultMap(r), "slots").value, r.slots[i].0) == Some(SlotEntry(r.slots[i].1))
  {
    SlotsMapKeys(r.slots);
    forall i | 0 <= i < |r.slots|
      ensures Field(Field(ResultMap(r), "slots").value, r.slots[i].0) == Some(SlotEntry(r.slots[i].1))
    {
      SlotsMapAt(r.slots, i);
    }
  }

  /** `call`: the classification envelope, sent once on the NLU channel. */
  method Call(r: NluResult) returns (e: Emit)
    ensures e.name == NluChannel
    ensures e.payload == ClassificationEvent(r)
  {
    var event := ToEvent(r);
    e := Emit(NluChannel, event);
  }

  /** `onTrace`: `{event: "trace", trace, level}` on the speech channel. */
  function OnTrace(level: TraceLevel, message: string): (e: Emit)
    ensures e.name == SpeechChannel
    ensures Keys(e.payload) == {"event", "trace", "level"}
    ensures Field(e.payload, "event") == Some(Text("trace"))
    ensures Field(e.payload, "trace") == Some(Text(message))
    ensures Field(e.payload, "level") == Some(Text(LevelName(level)))
  {
    Emit(SpeechChannel, Record(map["event" := Text("trace"), "trace" := Text(message), "level" := Text(LevelName(level))]))
  }

  /** `onError`: `{event: "error", error}` on the error channel. */
  function OnError(message: string): (e: Emit)
    ensures e.name == ErrorChannel
    ensures Keys(e.payload) == {"event", "error"}
    ensures Field(e.payload, "event") == Some(Text("error"))
    ensures Field(e.payload, "error") == Some(Text(message))
  {
    Emit(ErrorChannel, Record(map["event" := Text("error"), "error" := Text(message)]))
  }

  /**
   * `eventReceived`: an event without error is a success carrying the
   * response's URL (reading the URL of an event without a response throws);
   * an event with an error is a failure on the error channel.
   */
  function EventReceived(ev: TtsEvent): (d: Delivery)
    ensures d.NoSend? == false
    ensures ev.error.Some? ==> d == Send(Emit(ErrorChannel, Record(map["event" := Text("failure"), "error" := Text(ev.error.value)])))
    ensures ev.error.None? && ev.audioUri.Some? ==> d == Send(Emit(TtsChannel, Record(map["event" := Text("success"), "url" := Text(ev.audioUri.value)])))
    ensures ev.error.None? && ev.audioUri.None? ==> d.Throw?
  {
    if ev.error.None? then
      if ev.audioUri.Some? then
        Send(Emit(TtsChannel, Record(map["event" := Text("success"), "url" := Text(ev.audioUri.value)])))
      else
        Throw("NullPointerException")
    else
      Send(Emit(ErrorChannel, Record(map["event" := Text("failure"), "error" := Text(ev.error.value)])))
  }

  /** Every kind of input the adapter accepts from the SDK. */
  datatype AdapterInput =
    | TraceIn(level: TraceLevel, message: string)
    | ErrorIn(message: string)
    | TtsIn(event: TtsEvent)
    | NluIn(result: NluResult)

  /** The one delivery each handler makes for its input. */
  function Handle(input: AdapterInput): Delivery
  {
    match input
    case TraceIn(level, message) => Send(OnTrace(level, message))
    case ErrorIn(message) => Send(OnError(message))
    case TtsIn(event) => EventReceived(event)
    case NluIn(result) => Send(Emit(NluChannel, ClassificationEvent(result)))
  }

  /** The channel a payload goes to, decided by its `event` tag alone. */
  function ChannelFor(tag: string): string
  {
    if tag == "trace" then SpeechChannel
    else if tag == "success" then TtsChannel
    else if tag == "classification" then NluChannel
    else ErrorChannel
  }

  /**
   * Every payload the adapter sends is a map tagged by exactly one `event`
   * key, and its channel is a function of that tag: failures and errors go
   * to the error channel, never to the speech or TTS channel.
   */
  lemma RoutingByTag(input: AdapterInput)
    ensures Handle(input).Send? ==>
              var e := Handle(input).emit;
              "event" in Keys(e.payload) &&
              Field(e.payload, "event").value.Scalar? &&
              Field(e.payload, "event").value.v.Str? &&
              e.name == ChannelFor(Field(e.payload, "event").value.v.s)
    ensures Handle(input).Send? && Handle(input).emit.payload.fields["event"] in {Text("failure"), Text("error")} ==>
              Handle(input).emit.name == ErrorChannel
  {
  }
}
