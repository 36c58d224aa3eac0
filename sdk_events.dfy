/**
 * The SDK objects the adapters translate: NLU results with their slots,
 * TTS events, speech-context events and trace levels. Only the fields the
 * adapters read are kept.
 */
module SdkEvents {
  import opened Bridge

  /** An NLU slot: its name, its declared type, its typed value and the matched text. */
  datatype Slot = Slot(name: string, slotType: string, value: Value, rawValue: string)

  /**
   * An NLU result. `slots` lists the entries of the result's slot map in
   * the map's iteration order.
   */
  datatype NluResult = NluResult(intent: string, confidence: Float32, slots: seq<(string, Slot)>)

  /** `TTSEvent.Type`. */
  datatype TtsType = AudioAvailable | PlaybackStarted | PlaybackStopped | PlaybackComplete | TtsError

  /**
   * A TTS event: its type (possibly null), the localized message of its
   * error (null when there is none) and the audio URI of its response
   * (null when it carries no response).
   */
  datatype TtsEvent = TtsEvent(kind: Option<TtsType>, error: Option<string>, audioUri: Option<string>)

  /** `SpeechContext.Event`. */
  datatype SpeechEvent = Activate | Deactivate | PartialRecognize | Recognize | Timeout | SpeechError | Trace

  /** `event.name`: the enum constant's name. */
  function EventName(e: SpeechEvent): (name: string)
    ensures |name| > 0
  {
    match e
    case Activate => "ACTIVATE"
    case Deactivate => "DEACTIVATE"
    case PartialRecognize => "PARTIAL_RECOGNIZE"
    case Recognize => "RECOGNIZE"
    case Timeout => "TIMEOUT"
    case SpeechError => "ERROR"
    case Trace => "TRACE"
  }

  /** The speech context: its transcript and the message of its error, if any. */
  datatype SpeechContext = SpeechContext(transcript: string, error: Option<string>)

  /** `EventTracer.Level`. */
  datatype TraceLevel = Debug | Perf | Info | NoTrace

  /** `level.toString()`. */
  function LevelName(l: TraceLevel): string
  {
    match l
    case Debug => "DEBUG"
    case Perf => "PERF"
    case Info => "INFO"
    case NoTrace => "NONE"
  }
}
