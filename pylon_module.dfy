/**
 * The earliest Android bridge module: each speech event becomes exactly
 * one emit on the device event emitter, chosen by a switch on the event,
 * and speech errors are emitted with their message. The module keeps no
 * state and has no active-instance guard.
 */
module PylonModule {
  import opened Bridge
  import opened SdkEvents

  const SpeechStartName: string := "onSpeechStart"
  const SpeechEndName: string := "onSpeechEnd"
  const SpeechResultsName: string := "onSpeechResults"
  const UnrecognizedName: string := "unrecognizedEvent"
  const SpeechErrorName: string := "onSpeechError"

  /** `onSpeechStart`: `{error: false}` on `onSpeechStart`. */
  function OnSpeechStart(): (e: Emit)
    ensures e.name == SpeechStartName
    ensures Keys(e.payload) == {"error"} && Field(e.payload, "error") == Some(Flag(false))
  {
    Emit(SpeechStartName, Record(map["error" := Flag(false)]))
  }

  /** `onSpeechEnd`: `{error: false}` on `onSpeechEnd`. */
  function OnSpeechEnd(): (e: Emit)
    ensures e.name == SpeechEndName
    ensures Keys(e.payload) == {"error"} && Field(e.payload, "error") == Some(Flag(false))
  {
    Emit(SpeechEndName, Record(map["error" := Flag(false)]))
  }

  /** `onSpeechResults`: the transcript as `value` on `onSpeechResults`. */
  function OnSpeechResults(results: string): (e: Emit)
    ensures e.name == SpeechResultsName
    ensures Keys(e.payload) == {"value"} && Field(e.payload, "value") == Some(Text(results))
  {
    Emit(SpeechResultsName, Record(map["value" := Text(results)]))
  }

  /** `onSpeechError`: the message as `error` on `onSpeechError`. */
  function OnSpeechError(errorMessage: string): (e: Emit)
    ensures e.name == SpeechErrorName
    ensures Keys(e.payload) == {"error"} && Field(e.payload, "error") == Some(Text(errorMessage))
  {
    Emit(SpeechErrorName, Record(map["error" := Text(errorMessage)]))
  }

  /** `onEvent`: activation, deactivation and recognition have their own emit; any other event is unrecognised. */
  function OnEvent(event: SpeechEvent, context: SpeechContext): (e: Emit)
    ensures event == Activate ==> e == OnSpeechStart()
    ensures event == Deactivate ==> e == OnSpeechEnd()
    ensures event == Recognize ==> e == OnSpeechResults(context.transcript)
    ensures event !in {Activate, Deactivate, Recognize} ==>
              e.name == UnrecognizedName && Keys(e.payload) == {"error"} && Field(e.payload, "error") == Some(Flag(true))
  {
    match event
    case Activate => OnSpeechStart()
    case Deactivate => OnSpeechEnd()
    case Recognize => OnSpeechResults(context.transcript)
    case _ => Emit(UnrecognizedName, Record(map["error" := Flag(true)]))
  }

  /**
   * The emitted name tells the events apart: it is `unrecognizedEvent`
   * exactly for the events outside the switch, the `error` flag is true
   * exactly then, and only recognition carries the transcript.
   */
  lemma OnEventClassifies(event: SpeechEvent, context: SpeechContext)
    ensures OnEvent(event, context).name == UnrecognizedName <==> event !in {Activate, Deactivate, Recognize}
    ensures Field(OnEvent(event, context).payload, "error") == Some(Flag(true)) <==> event !in {Activate, Deactivate, Recognize}
    ensures Field(OnEvent(event, context).payload, "value").Some? <==> event == Recognize
    ensures OnEvent(event, context).name != SpeechErrorName
  {
  }

  /** The emit of `onEvent` reads nothing from the context but the transcript, and that only on recognition. */
  lemma OnEventIgnoresContext(event: SpeechEvent, c1: SpeechContext, c2: SpeechContext)
    requires event != Recognize || c1.transcript == c2.transcript
    ensures OnEvent(event, c1) == OnEvent(event, c2)
  {
  }
}
