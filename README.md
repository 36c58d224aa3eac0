# react-native-spokestack, modelled in Dafny

This project models the bridge between a React Native application and the
Spokestack speech SDK. The bridge has these parts:

- **The Android Java module and adapter.** `RNSpokestackModule` turns the
  JavaScript configuration map into calls on the SDK's builder.
  `RNSpokestackAdapter` turns the SDK's speech, NLU, TTS, trace and error
  events into host events on the `onSpeechEvent`, `onNLUEvent`,
  `onTTSEvent` and `onErrorEvent` channels.
- **The Android Kotlin module, adapter and downloader.**
  - `SpokestackModule` keeps the pending host promises by operation name.
  - `SpokestackAdapter` turns SDK events into lower-case host events.
  - `Downloader` fetches model files into the cache directory.
- **The iOS Swift module and downloader.**
  - `RNSpokestack` keeps a resolver and a rejecter per pending operation, parses the configuration dictionary into speech settings and model downloads, and settles promises from the SDK's delegate callbacks.
  - `Downloader` waits for the first network status, then serves a model from the documents directory or fetches it.
- **The JavaScript wrappers** (`src/index.ts` and the older
  `src/index.tsx`). They drop stray arguments, guard `start` and `activate`
  with the microphone permission, supply default arguments, normalise the
  configuration in place before `initialize`, and manage event listeners.
- **The legacy `com.pylon` Android module**, which forwards activation,
  deactivation and recognition as events.
- **The example app's intent handler** (`example/src/handleIntent.ts`), a
  small dialogue state machine over NLU intents.

Each file of the model follows the form of the code it models:

- Objects whose fields change become classes with `modifies` clauses: the modules, the downloaders, the configuration object, the JavaScript module object and the intent handler.
- The loops over configuration sections, slot maps, promise tables and stream reads become methods with loop invariants. Each such method is proved equal to a specification function.
- Pure translations of events and payloads become functions.
- Lemmas relate the parts.

The SDK, the host's event emitter and the host's promises are
represented by what the bridge hands them:

- a log of builder calls;
- a log of SDK calls;
- the emitted events;
- the promise settlements.

Shared vocabulary:

- **Bridge** holds host values, payloads, emits and settlements.
- **SpokestackBuilder** holds the SDK's builder calls and the pipeline-profile enum.
- **SdkEvents** holds the SDK's event types.

## Model

| member | source | states |
|---|---|---|
| Bridge.LowerAscii | android/src/main/java/com/reactnativespokestack/SpokestackModule.kt:48 | under a default locale with ASCII case rules, lower-casing keeps the length, maps each ASCII capital to its small letter and leaves every other character alone |
| Bridge.DoubleToInt | android/src/main/java/io/spokestack/RNSpokestack/RNSpokestackModule.java:82 | `intValue()` truncates toward zero inside the 32-bit range, and anything at or beyond a bound gives that bound |
| SpokestackBuilder.ProfileAt | android/src/main/java/io/spokestack/RNSpokestack/RNSpokestackModule.java:82 | indexing the profile enum succeeds exactly for 0..5 and throws otherwise, with no clamping |
| SpokestackBuilder.ProfileAtOrdinal | android/src/main/java/io/spokestack/RNSpokestack/RNSpokestackModule.java:106-112 | every enum entry is found again at its own ordinal |
| SpokestackBuilder.ProfileClassNames | android/src/main/java/io/spokestack/RNSpokestack/RNSpokestackModule.java:119-121 | each entry's value is the canonical name of its own SDK profile class, in full: `io.spokestack.spokestack.profile.` followed by `TFWakewordAndroidASR`, `VADTriggerAndroidASR`, `PushToTalkAndroidASR`, `TFWakewordSpokestackASR`, `VADTriggerSpokestackASR` or `PushToTalkSpokestackASR` for the six entries in declaration order |
| SpokestackBuilder.ProfileClassInjective | android/src/main/java/io/spokestack/RNSpokestack/RNSpokestackModule.java:106-121 | distinct entries name distinct profile classes |
| SpokestackBuilder.ModeAt | android/src/main/java/io/spokestack/RNSpokestack/RNSpokestackModule.java:155 | `Mode.values()[format]` gives text for 0, SSML for 1 and speech markdown for 2, and no other format has a mode |
| SpokestackBuilder.SetAll | android/src/main/java/io/spokestack/RNSpokestack/RNSpokestackModule.java:71-72 | one `setProperty` per entry, with key and value verbatim and in iteration order |
| RNAdapter.IsPrimitive | android/src/main/java/io/spokestack/RNSpokestack/RNSpokestackAdapter.java:84-93 | null, booleans, strings and numbers other than bytes are primitive; characters, bytes and object values are not |
| RNAdapter.NormalizeValue | android/src/main/java/io/spokestack/RNSpokestack/RNSpokestackAdapter.java:70-71 | a primitive slot value is kept, and anything else becomes its `toString()` text |
| RNAdapter.SlotEntry | android/src/main/java/io/spokestack/RNSpokestack/RNSpokestackAdapter.java:67-73 | a slot becomes `{type, value, rawValue}`: its type and raw value as text, and its normalised value |
| RNAdapter.SlotsMapKeys | android/src/main/java/io/spokestack/RNSpokestack/RNSpokestackAdapter.java:65-75 | the slots map has exactly the slots' names as keys |
| RNAdapter.SlotsMapAt | android/src/main/java/io/spokestack/RNSpokestack/RNSpokestackAdapter.java:66-74 | with distinct names, each name maps to the entry built from its own slot |
| RNAdapter.ToEvent | android/src/main/java/io/spokestack/RNSpokestack/RNSpokestackAdapter.java:62-82 | the loop over the slots builds exactly the classification envelope |
| RNAdapter.ClassificationContents | android/src/main/java/io/spokestack/RNSpokestack/RNSpokestackAdapter.java:62-82 | the envelope is `{event: "classification", result: {intent, confidence, slots}}`, the intent is verbatim and the confidence is the float's text |
| RNAdapter.Call | android/src/main/java/io/spokestack/RNSpokestack/RNSpokestackAdapter.java:57-60 | a classification is emitted once, on the NLU channel |
| RNAdapter.OnTrace | android/src/main/java/io/spokestack/RNSpokestack/RNSpokestackAdapter.java:26-32 | a trace is `{event: "trace", trace, level}` on the speech channel, with the message and the level's name |
| RNAdapter.OnError | android/src/main/java/io/spokestack/RNSpokestack/RNSpokestackAdapter.java:48-54 | an error is `{event: "error", error}` on the error channel, with the message |
| RNAdapter.EventReceived | android/src/main/java/io/spokestack/RNSpokestack/RNSpokestackAdapter.java:35-46 | the event type is never looked at: an event with an error goes on the error channel as a `failure`; one without sends `success` with its URL on the TTS channel, and throws NullPointerException when it has no audio URL |
| RNAdapter.RoutingByTag | android/src/main/java/io/spokestack/RNSpokestack/RNSpokestackAdapter.java:26-60 | every delivery goes to the channel its `event` tag selects, and traces go on the speech channel |
| RNModule.DotIndex | android/src/main/java/io/spokestack/RNSpokestack/RNSpokestackModule.java:81 | the index of the first `.`, or the length when there is none |
| RNModule.ParseDigitsOnly | android/src/main/java/io/spokestack/RNSpokestack/RNSpokestackModule.java:81 | text made of digits alone parses to the number the digits denote |
| RNModule.ParseMinus | android/src/main/java/io/spokestack/RNSpokestack/RNSpokestackModule.java:81 | a leading minus sign negates what the rest parses to |
| RNModule.ParseNegatedDigits | android/src/main/java/io/spokestack/RNSpokestack/RNSpokestackModule.java:81 | a minus sign before the digits of a magnitude parses to the negated magnitude |
| RNModule.ParseUnsignedDigits | android/src/main/java/io/spokestack/RNSpokestack/RNSpokestackModule.java:81 | a natural number's decimal text parses back to it |
| RNModule.ParseNatToString | android/src/main/java/io/spokestack/RNSpokestack/RNSpokestackModule.java:81 | a natural number's digits parse, unsigned, to that number |
| RNModule.ParseNegativeToString | android/src/main/java/io/spokestack/RNSpokestack/RNSpokestackModule.java:81 | the text of a negative integer parses back to it |
| RNModule.ParseIntToString | android/src/main/java/io/spokestack/RNSpokestack/RNSpokestackModule.java:81 | `parseDouble` of any integer's decimal text gives that integer back |
| RNModule.ProfileSelection | android/src/main/java/io/spokestack/RNSpokestack/RNSpokestackModule.java:80-83 | a null profile throws NullPointerException; a number selects the entry at its truncated value; text is parsed as `parseDouble` does (surrounding whitespace, sign, exponent, type suffix, `NaN`, `Infinity`), throws NumberFormatException when it does not parse, and otherwise selects the entry at the parsed value's `intValue()` |
| RNModule.ProfileSelectionNumber | android/src/main/java/io/spokestack/RNSpokestack/RNSpokestackModule.java:81-82 | a numeric profile succeeds exactly when -1 < x < 6, and the selected ordinal is x truncated |
| RNModule.IntegralTruncation | android/src/main/java/io/spokestack/RNSpokestack/RNSpokestackModule.java:82 | truncating an integral double keeps an integer inside 0..5 and keeps one outside it outside |
| RNModule.ProfileSelectionText | android/src/main/java/io/spokestack/RNSpokestack/RNSpokestackModule.java:81-82 | a profile given as an integer's text selects the same entry as that integer |
| RNModule.ProfileSelectionPadded | android/src/main/java/io/spokestack/RNSpokestack/RNSpokestackModule.java:81-82 | whitespace around an integer's text does not change the entry it selects |
| RNModule.ProfileSelectionNaN | android/src/main/java/io/spokestack/RNSpokestack/RNSpokestackModule.java:81-82 | the text `NaN` parses, truncates to 0 and selects the first entry |
| RNModule.ParsePadded | android/src/main/java/io/spokestack/RNSpokestack/RNSpokestackModule.java:81 | `parseDouble` ignores surrounding whitespace |
| RNModule.ParseExponentForm | android/src/main/java/io/spokestack/RNSpokestack/RNSpokestackModule.java:81 | text with an exponent, `2e0`, parses to 2 |
| RNModule.ParseSuffixForm | android/src/main/java/io/spokestack/RNSpokestack/RNSpokestackModule.java:81 | text with a type suffix, `2d`, parses to 2 |
| RNModule.ParseNaNForm | android/src/main/java/io/spokestack/RNSpokestack/RNSpokestackModule.java:81 | `NaN` parses to NaN, not to an exception |
| RNModule.ParseDoubleUnsigned | android/src/main/java/io/spokestack/RNSpokestack/RNSpokestackModule.java:81 | unpadded text without a sign is read as an unsigned number |
| RNModule.AssembleOrder | android/src/main/java/io/spokestack/RNSpokestack/RNSpokestackModule.java:63-104 | the assembled call list starts with the listener and the context, ends with `withoutAutoPlayback` and `build`, and builds once |
| RNModule.AssembleMember | android/src/main/java/io/spokestack/RNSpokestack/RNSpokestackModule.java:63-104 | the assembled list holds exactly the calls of its parts |
| RNModule.PropertyCallsShape | android/src/main/java/io/spokestack/RNSpokestack/RNSpokestackModule.java:69-73 | the `properties` section only sets properties |
| RNModule.PipelineCallsShape | android/src/main/java/io/spokestack/RNSpokestack/RNSpokestackModule.java:76-88 | a present pipeline section sets properties and may select a profile, and an absent one switches off the speech pipeline and automatic classification |
| RNModule.NluCallsShape | android/src/main/java/io/spokestack/RNSpokestack/RNSpokestackModule.java:91-98 | a present `nlu` section only sets properties, and an absent one switches off NLU and automatic classification |
| RNModule.InitListenerFirstBuildLast | android/src/main/java/io/spokestack/RNSpokestack/RNSpokestackModule.java:65-67 | `initialize` registers the adapter first and the context second, never again, and ends with `withoutAutoPlayback` and one `build` |
| RNModule.InitPropertiesFirst | android/src/main/java/io/spokestack/RNSpokestack/RNSpokestackModule.java:69-79 | the `properties` section is applied right after registration with keys verbatim, and the `pipeline` section's keys follow verbatim |
| RNModule.InitSectionSwitches | android/src/main/java/io/spokestack/RNSpokestack/RNSpokestackModule.java:76-98 | the speech pipeline is switched off iff `pipeline` is absent, NLU iff `nlu` is absent, automatic classification iff either is absent, and wakeword never |
| RNModule.InitProfile | android/src/main/java/io/spokestack/RNSpokestack/RNSpokestackModule.java:80-84 | with a `profile` key, `initialize` completes iff the selection succeeds and then uses that entry's class; its exception is `initialize`'s; without one, no profile is chosen |
| RNModule.FormatErrorEvent | android/src/main/java/io/spokestack/RNSpokestack/RNSpokestackModule.java:147-152 | an unsupported format becomes an ERROR TTS event whose message names the format |
| RNModule.RNSpokestackModule.constructor | android/src/main/java/io/spokestack/RNSpokestack/RNSpokestackModule.java:35-38 | a fresh module has emitted nothing and has no SDK object |
| RNModule.RNSpokestackModule.SendEvent | android/src/main/java/io/spokestack/RNSpokestack/RNSpokestackModule.java:53-60 | an event is emitted only while the host instance is active |
| RNModule.RNSpokestackModule.OnAdapterInput | android/src/main/java/io/spokestack/RNSpokestack/RNSpokestackModule.java:32 | the adapter's one delivery per input reaches `sendEvent`, and a throwing delivery changes nothing and is returned |
| RNModule.RNSpokestackModule.Initialize | android/src/main/java/io/spokestack/RNSpokestack/RNSpokestackModule.java:62-104 | the SDK object becomes the one built from `InitPlan`, or the plan's exception is thrown and the old object is kept |
| RNModule.ApplyPipeline | android/src/main/java/io/spokestack/RNSpokestack/RNSpokestackModule.java:76-83 | the `pipeline` section appends its keys as properties and then the selected profile's class, or yields the exception the profile selection throws, exactly as `PipelineCalls` describes |
| RNModule.RNSpokestackModule.Synthesize | android/src/main/java/io/spokestack/RNSpokestack/RNSpokestackModule.java:144-160 | an unsupported format emits one error event and makes no SDK call; a supported one makes one synthesis request with that format's mode, input and voice |
| RNModule.RNSpokestackModule.OnCatalystInstanceDestroy | android/src/main/java/io/spokestack/RNSpokestack/RNSpokestackModule.java:45-51 | stops the SDK only when it has a speech pipeline, and throws when there is no SDK object |
| RNModule.RNSpokestackModule.PipelineControl | android/src/main/java/io/spokestack/RNSpokestack/RNSpokestackModule.java:124-132 | `start` and `stop` reach the speech pipeline, and throw without an SDK object or without a pipeline |
| RNModule.RNSpokestackModule.Forward | android/src/main/java/io/spokestack/RNSpokestack/RNSpokestackModule.java:134-142 | `activate`, `deactivate` and `classify` reach the SDK object, and throw without one |
| RNModule.ApplySection | android/src/main/java/io/spokestack/RNSpokestack/RNSpokestackModule.java:71-72 | the section loop appends exactly `SetAll` of the section |
| KtAdapter.SlotValue | android/src/main/java/com/reactnativespokestack/SpokestackAdapter.kt:38-44 | integers, doubles and booleans keep their type, and any other value becomes its text |
| KtAdapter.SlotTypingAgreement | android/src/main/java/com/reactnativespokestack/SpokestackAdapter.kt:38-44 | the Kotlin and Java adapters agree on primitive numbers and booleans and differ only in how they render other values |
| KtAdapter.SlotMap | android/src/main/java/com/reactnativespokestack/SpokestackAdapter.kt:35-44 | each slot becomes `{type, rawValue, value}`: its type and raw value as text, and its typed value |
| KtAdapter.SlotMaps | android/src/main/java/com/reactnativespokestack/SpokestackAdapter.kt:27-48 | one slot map per slot, in iteration order |
| KtAdapter.NluResultEvent | android/src/main/java/com/reactnativespokestack/SpokestackAdapter.kt:27-49 | the loop pushes exactly the slot maps and emits `classify` with intent, confidence text and slots |
| KtAdapter.ErrorEvent | android/src/main/java/com/reactnativespokestack/SpokestackAdapter.kt:15-19 | an error is emitted as `error` with the module's name and the message |
| KtAdapter.TraceEvent | android/src/main/java/com/reactnativespokestack/SpokestackAdapter.kt:21-25 | a trace is emitted as `trace` with the module's name and the message |
| KtAdapter.TtsDelivery | android/src/main/java/com/reactnativespokestack/SpokestackAdapter.kt:51-77 | audio emits `synthesize` with the URL, playback start and stop emit `play` true and false, an error emits `error`, and nothing else is sent |
| KtAdapter.SpeechDeliveryContents | android/src/main/java/com/reactnativespokestack/SpokestackAdapter.kt:79-108 | each speech event is emitted under its lower-case name with the transcript or the error, as the event calls for |
| KtModule.KebabCase | android/src/main/java/com/reactnativespokestack/SpokestackModule.kt:77-81 | kebab-casing keeps every character and inserts `-` plus the small letter at each lower-to-upper boundary |
| KtModule.KebabCaseFrom | android/src/main/java/com/reactnativespokestack/SpokestackModule.kt:77-81 | kebab-casing is the concatenation of the per-position pieces |
| KtModule.KebabCaseSpec | android/src/main/java/com/reactnativespokestack/SpokestackModule.kt:77-81 | position by position, each character and each boundary of the input maps to its output piece |
| KtModule.KebabCaseIdentity | android/src/main/java/com/reactnativespokestack/SpokestackModule.kt:77-81 | a key without a lower-to-upper boundary is unchanged |
| KtModule.WakeKey | android/src/main/java/com/reactnativespokestack/SpokestackModule.kt:136-155 | the nine known wakeword keys map to their fixed builder keys, and any other key is kebab-cased |
| KtModule.WakeKeyIsFile | android/src/main/java/com/reactnativespokestack/SpokestackModule.kt:137-148 | exactly `filterPath`, `detectPath` and `encodePath` count as wakeword files |
| KtModule.NluKey | android/src/main/java/com/reactnativespokestack/SpokestackModule.kt:173-187 | the four known NLU keys map to their builder keys, and every other key is ignored |
| KtModule.NluKeyIsFile | android/src/main/java/com/reactnativespokestack/SpokestackModule.kt:174-185 | exactly `modelPath`, `metadataPath` and `vocabPath` count as NLU files |
| KtModule.WakeFilesSeen | android/src/main/java/com/reactnativespokestack/SpokestackModule.kt:130-158 | with distinct keys, `wakeFiles` is 3 iff all three wakeword file keys are present |
| KtModule.NluFilesSeen | android/src/main/java/com/reactnativespokestack/SpokestackModule.kt:167-190 | with distinct keys, `nluFiles` is 3 iff all three NLU file keys are present |
| KtModule.SectionCallsOnlySet | android/src/main/java/com/reactnativespokestack/SpokestackModule.kt:118-187 | the section loops only set properties |
| KtModule.ProfileCastAsWritten | android/src/main/java/com/reactnativespokestack/SpokestackModule.kt:124 | as written, `as Int` succeeds only for a boxed integer |
| KtModule.ProfileCastRejectsDoubles | android/src/main/java/com/reactnativespokestack/SpokestackModule.kt:124 | every profile arriving as a double, valid ones included, throws ClassCastException |
| KtModule.ProfileOrdinal | android/src/main/java/com/reactnativespokestack/SpokestackModule.kt:124 | the intended conversion: any number converts by truncation, and a non-number throws |
| KtModule.ProfileOrdinalSelects | android/src/main/java/com/reactnativespokestack/SpokestackModule.kt:124-125 | with the intended conversion, every profile is selected by its own ordinal sent as a double |
| KtModule.HeaderShape | android/src/main/java/com/reactnativespokestack/SpokestackModule.kt:97-111 | the header registers the adapter once, first, then sets the credentials verbatim and possibly the trace level |
| KtModule.PipelineSectionShape | android/src/main/java/com/reactnativespokestack/SpokestackModule.kt:115-127 | with the corrected profile conversion: the pipeline section only sets properties and selects a profile, and with a `profile` key it succeeds iff the truncated number is in 0..5, selecting that entry |
| KtModule.WakeSectionSwitch | android/src/main/java/com/reactnativespokestack/SpokestackModule.kt:130-164 | wakeword is switched off iff the section is missing or lacks a file key |
| KtModule.NluSectionSwitch | android/src/main/java/com/reactnativespokestack/SpokestackModule.kt:167-194 | NLU is switched off iff the section is missing or lacks a file key |
| KtModule.AssembleMember | android/src/main/java/com/reactnativespokestack/SpokestackModule.kt:97-197 | the assembled list holds exactly the calls of its parts |
| KtModule.AssembleOrder | android/src/main/java/com/reactnativespokestack/SpokestackModule.kt:97-197 | header first, then the default profile, then `withoutAutoPlayback` and one `build` last |
| KtModule.KtInitCredentials | android/src/main/java/com/reactnativespokestack/SpokestackModule.kt:100-104 | `initialize` stops before building iff the client id or the secret is empty |
| KtModule.SectionShapes | android/src/main/java/com/reactnativespokestack/SpokestackModule.kt:130-194 | the wakeword and NLU sections only set properties and switch their own feature off |
| KtModule.KtInitOrder | android/src/main/java/com/reactnativespokestack/SpokestackModule.kt:97-197 | a built plan registers the adapter first, sets both credentials verbatim, and ends with `withoutAutoPlayback` and one `build` |
| KtModule.KtInitSwitches | android/src/main/java/com/reactnativespokestack/SpokestackModule.kt:161-194 | wakeword stays on iff all three wakeword files are named, NLU stays on iff all three NLU files are named, and the speech pipeline is never off |
| KtModule.KtWakewordSwitch | android/src/main/java/com/reactnativespokestack/SpokestackModule.kt:161-164 | wakeword stays on iff the section names all three files |
| KtModule.KtNluSwitch | android/src/main/java/com/reactnativespokestack/SpokestackModule.kt:192-194 | NLU stays on iff the section names all three files |
| KtModule.KtPipelineNeverOff | android/src/main/java/com/reactnativespokestack/SpokestackModule.kt:96-203 | the speech pipeline is never switched off |
| KtModule.KtInitProfile | android/src/main/java/com/reactnativespokestack/SpokestackModule.kt:113-126 | with the corrected profile conversion: push-to-talk is selected right after the header; a `profile` key builds iff its truncated value is in 0..5 and adds that entry; without one the default is the only profile |
| KtModule.StringField | android/src/main/java/com/reactnativespokestack/SpokestackModule.kt:57 | `getString` yields a value exactly when the key holds a string |
| KtModule.ClassifyResolutionAsWritten | android/src/main/java/com/reactnativespokestack/SpokestackModule.kt:66 | as written, the `classify` promise receives `getMap("result")`, which is null when there is no `result` key |
| KtModule.ClassifyResolvesNothing | android/src/main/java/com/reactnativespokestack/SpokestackModule.kt:66 | the adapter's classify payload has no `result` key, so as written the promise always receives null |
| KtModule.ClassifyResolution | android/src/main/java/com/reactnativespokestack/SpokestackModule.kt:66 | the intended value is the classification payload itself, with every key unchanged |
| KtModule.ClassifyResolvesResult | android/src/main/java/com/reactnativespokestack/SpokestackModule.kt:65-68 | resolved as intended, the promise receives the intent, the confidence and the slots |
| KtModule.ConfigurePipeline | android/src/main/java/com/reactnativespokestack/SpokestackModule.kt:115-127 | the pipeline loop computes exactly `PipelineSection`, with the corrected profile conversion |
| KtModule.ConfigureWakeword | android/src/main/java/com/reactnativespokestack/SpokestackModule.kt:130-164 | the wakeword loop computes exactly `WakeSection`, counting files as it goes |
| KtModule.ConfigureNlu | android/src/main/java/com/reactnativespokestack/SpokestackModule.kt:167-194 | the NLU loop computes exactly `NluSection` |
| KtModule.SynthesisEffect | android/src/main/java/com/reactnativespokestack/SpokestackModule.kt:56-64 | `synthesize` resolves its promise with the URL (or null) and removes only its key; a pending `say` runs only with a URL, plays it, resolves `speak` with null and is forgotten |
| KtModule.SpokestackModule.constructor | android/src/main/java/com/reactnativespokestack/SpokestackModule.kt:15-20 | a fresh module has no promises, no `say`, no SDK object and no calls |
| KtModule.SpokestackModule.RejectPending | android/src/main/java/com/reactnativespokestack/SpokestackModule.kt:49-55 | every pending promise is rejected exactly once with "Error in Spokestack during <key>." and the table is emptied |
| KtModule.SpokestackModule.ResolveSynthesis | android/src/main/java/com/reactnativespokestack/SpokestackModule.kt:56-64 | the state changes exactly as `SynthesisEffect` says |
| KtModule.SpokestackModule.ResolveClassification | android/src/main/java/com/reactnativespokestack/SpokestackModule.kt:65-68 | with the corrected resolution: only the `classify` promise is resolved, with the classification payload, and removed |
| KtModule.SpokestackModule.SendEvent | android/src/main/java/com/reactnativespokestack/SpokestackModule.kt:46-75 | while active: `error` rejects all, `synthesize` settles its own promise, `classify` settles its own with the corrected resolution, and the event is emitted under its lower-case name; while inactive nothing changes |
| KtModule.SpokestackModule.TextToSpeech | android/src/main/java/com/reactnativespokestack/SpokestackModule.kt:83-92 | a format outside 0..2 throws the format message before any request; otherwise exactly one synthesis request with that mode |
| KtModule.SpokestackModule.Synthesize | android/src/main/java/com/reactnativespokestack/SpokestackModule.kt:250-259 | the promise is stored under `synthesize`, and a failed request rejects it and removes only that key |
| KtModule.SpokestackModule.Speak | android/src/main/java/com/reactnativespokestack/SpokestackModule.kt:261-280 | the promise and the `say` closure are stored, and a failed request rejects the promise and removes its key while `say` stays |
| KtModule.SpokestackModule.Classify | android/src/main/java/com/reactnativespokestack/SpokestackModule.kt:282-286 | the promise is stored under `classify` and the utterance is forwarded |
| KtModule.SpokestackModule.Control | android/src/main/java/com/reactnativespokestack/SpokestackModule.kt:205-248 | `start`, `stop` and `deactivate` forward and resolve, and reject when the call fails |
| KtModule.SpokestackModule.Activate | android/src/main/java/com/reactnativespokestack/SpokestackModule.kt:226-238 | rejects without an SDK call while the pipeline is not running; otherwise activates and resolves |
| KtModule.SpokestackModule.OnCatalystInstanceDestroy | android/src/main/java/com/reactnativespokestack/SpokestackModule.kt:26-31 | stops the SDK only when it has a speech pipeline |
| KtModule.SpokestackModule.Initialize | android/src/main/java/com/reactnativespokestack/SpokestackModule.kt:94-203 | with the corrected profile conversion: empty credentials reject; a profile outside 0..5 or not a number throws and leaves the promise pending; otherwise the SDK object is built from `KtInitPlan` and the promise resolves |
| AndroidDownloader.NetworkAvailable | android/src/main/java/com/reactnativespokestack/Downloader.kt:16-43 | WiFi or Ethernet always count, cellular counts iff allowed, and no active network never counts, on both API paths |
| AndroidDownloader.AllowCellularOnlyAdds | android/src/main/java/com/reactnativespokestack/Downloader.kt:16-43 | allowing cellular only ever adds cellular networks |
| AndroidDownloader.NoNetworkError | android/src/main/java/com/reactnativespokestack/Downloader.kt:46-52 | the error message carries the cellular hint exactly when cellular downloads are not allowed |
| AndroidDownloader.FirstEmpty | android/src/main/java/com/reactnativespokestack/Downloader.kt:63-68 | the index of the first read returning nothing, with every earlier read non-empty |
| AndroidDownloader.DeliveredIsConcatBeforeEnd | android/src/main/java/com/reactnativespokestack/Downloader.kt:63-68 | the written file is the concatenation of the chunks read before the end of the stream |
| AndroidDownloader.DeliveredIgnoresAfterEnd | android/src/main/java/com/reactnativespokestack/Downloader.kt:66 | chunks after the end of the stream are never written |
| AndroidDownloader.PartialFileIsCacheHit | android/src/main/java/com/reactnativespokestack/Downloader.kt:53-67 | a read failure after some bytes leaves a non-empty file, which the next call without `refreshModels` serves as cached |
| AndroidDownloader.Read | android/src/main/java/com/reactnativespokestack/Downloader.kt:65 | a read copies the chunk into the buffer's front and returns its length, or -1 at the end |
| AndroidDownloader.CopyStream | android/src/main/java/com/reactnativespokestack/Downloader.kt:63-68 | the copy loop writes exactly `Delivered` of the chunks |
| AndroidDownloader.Downloader.constructor | android/src/main/java/com/reactnativespokestack/Downloader.kt:12-14 | the settings and the cache contents are those given |
| AndroidDownloader.Downloader.DownloadModel | android/src/main/java/com/reactnativespokestack/Downloader.kt:45-72 | no network raises before the cache is read; a cache hit returns the path unchanged; a failed connection raises before the file is touched; otherwise the streamed bytes replace the file and the path is returned, unless a read throws first, which raises and leaves the bytes written so far |
| IosBridge.RawValue | ios/RNSpokestack.swift:22-50 | each promise key's raw value is its non-empty case name |
| IosBridge.RawValueInjective | ios/RNSpokestack.swift:22-50 | distinct promise keys have distinct raw values |
| IosBridge.FailureRejection | ios/RNSpokestack.swift:65-76 | the rejection of the key `k` carries the code `<k>_error` and "Spokestack error during <k>." |
| IosBridge.FailureCodesDistinct | ios/RNSpokestack.swift:65-76 | rejections of different keys carry different codes |
| IosBridge.NotInitialized | ios/RNSpokestack.swift:78-84 | a missing handle rejects with `not_initialized` and a message naming the component |
| IosBridge.ErrorEvent | ios/RNSpokestack.swift:60-63 | `handleError` emits `error` with the error's description and nothing else |
| IosBridge.ClassificationValue | ios/RNSpokestack.swift:151-164 | the `classify` value holds exactly the intent, the confidence as a number, and one `{type, value, rawValue}` map per slot in order |
| IosBridge.SlotValues | ios/RNSpokestack.swift:155-161 | each slot becomes `{type, value, rawValue}`, in order |
| IosBridge.ProfileOrDefault | ios/RNSpokestack.swift:328-330 | a raw profile outside the six falls back to push-to-talk |
| IosBridge.TraceOrNone | ios/RNSpokestack.swift:241-243 | a raw trace level other than 10, 20, 30 or 100 falls back to NONE |
| IosBridge.VadModeOrDefault | ios/RNSpokestack.swift:337-339 | a raw VAD mode outside 0..3 falls back to highly permissive |
| IosBridge.FormatOrText | ios/RNSpokestack.swift:451-460 | formats 0..2 keep their mode, and any other format is plain text |
| IosBridge.CountInThree | ios/RNSpokestack.swift:244-322 | with distinct keys, the entries in a three-key table are exactly the keys present |
| IosBridge.ParseNluBound | ios/RNSpokestack.swift:244-261 | the NLU loop adds at most one URL per file entry, each mapped to a model-file property |
| IosBridge.NluGroupNeedsAllKeys | ios/RNSpokestack.swift:244-261 | a complete NLU group of three downloads needs all three keys |
| IosBridge.ParseWakeBound | ios/RNSpokestack.swift:262-322 | the wakeword loop adds at most one URL per file entry, and leaves the NLU table and the profile alone |
| IosBridge.WakeGroupNeedsAllKeys | ios/RNSpokestack.swift:262-322 | a complete wakeword group of three downloads needs all three keys |
| IosBridge.SharedUrlIncomplete | ios/RNSpokestack.swift:244-261 | two NLU files given the same URL collapse into one download, so the NLU group is never complete |
| IosBridge.ParsePipelineProfile | ios/RNSpokestack.swift:323-347 | after the pipeline loop the profile is always one of the six, and is unchanged without a `profile` key |
| IosBridge.RequestCount | ios/RNSpokestack.swift:367 | `numRequests` is 0, 3 or 6, and 0 exactly when neither table is complete |
| IosBridge.FailureRejections | ios/RNSpokestack.swift:65-76 | the rejection loop rejects every stored promise exactly once |
| IosBridge.RejectedAppend | ios/RNSpokestack.swift:65-76 | appending such rejections extends the settlement log as `RejectedAfter` describes |
| IosBridge.SuccessTarget | ios/RNSpokestack.swift:141-149 | `success` settles a pending `synthesize` first, otherwise a pending `speak`, never both |
| IosBridge.IssueAll | ios/RNSpokestack.swift:369-378 | each URL of a complete table is downloaded exactly once |
| IosBridge.NluLoop | ios/RNSpokestack.swift:244-261 | the NLU loop computes exactly `ParseNlu` |
| IosBridge.WakeLoop | ios/RNSpokestack.swift:262-322 | the wakeword loop computes exactly `ParseWake` |
| IosBridge.FftWindowOrHann | ios/RNSpokestack.swift:304-306 | a window type the SDK knows is kept, and any other value becomes `hann` |
| IosBridge.ParseWakeWindow | ios/RNSpokestack.swift:262-322 | after the wakeword section the FFT window type, when set, is one the SDK knows, and a last `fftWindowType` entry decides it through the `hann` fallback |
| IosBridge.PipelineLoop | ios/RNSpokestack.swift:323-347 | the pipeline loop computes exactly `ParsePipeline` |
| IosBridge.ParseLoops | ios/RNSpokestack.swift:239-352 | the dictionary loop computes exactly `ParseConfig` |
| IosBridge.BuildFailure | ios/RNSpokestack.swift:195-218 | the build fails iff the needed classifier throws, the builder is missing, or the builder throws, in that order of precedence |
| IosBridge.DownloaderFor | ios/RNSpokestack.swift:231 | the downloader takes both flags from the dictionary, and both are false without one |
| IosBridge.RNSpokestack.constructor | ios/RNSpokestack.swift:35-50 | a fresh module has no promises, no handles and no downloads |
| IosBridge.RNSpokestack.Send | ios/RNSpokestack.swift:56-58 | one event is appended and nothing else changes |
| IosBridge.RNSpokestack.RejectAll | ios/RNSpokestack.swift:65-76 | every stored promise is rejected once and both tables are emptied |
| IosBridge.RNSpokestack.Failure | ios/RNSpokestack.swift:65-76 | the error event first, then one rejection per stored promise, then no stored promises |
| IosBridge.RNSpokestack.Settle | ios/RNSpokestack.swift:90-176 | a stored promise is resolved once and only its key is removed, and a missing one changes nothing |
| IosBridge.RNSpokestack.Put | ios/RNSpokestack.swift:358-359 | a promise is stored with its resolver and rejecter together |
| IosBridge.RNSpokestack.DidTrace | ios/RNSpokestack.swift:86-88 | the trace message is sent as `trace` |
| IosBridge.RNSpokestack.DidInit | ios/RNSpokestack.swift:90-95 | a pending `initialize` is resolved and removed |
| IosBridge.RNSpokestack.DidActivate | ios/RNSpokestack.swift:97-103 | a pending `activate` is resolved, then `activate` is sent with an empty transcript |
| IosBridge.RNSpokestack.DidDeactivate | ios/RNSpokestack.swift:105-111 | a pending `deactivate` is resolved, then `deactivate` is sent with an empty transcript |
| IosBridge.RNSpokestack.DidStart | ios/RNSpokestack.swift:113-119 | the pipeline is marked started and a pending `start` is resolved |
| IosBridge.RNSpokestack.DidStop | ios/RNSpokestack.swift:121-127 | the pipeline is marked stopped and a pending `stop` is resolved |
| IosBridge.RNSpokestack.DidTimeout | ios/RNSpokestack.swift:129-131 | a timeout sends one `timeout` event with an empty transcript and settles nothing |
| IosBridge.RNSpokestack.DidSpeechEvent | ios/RNSpokestack.swift:133-139 | a full or partial recognition sends one event carrying its transcript and settles nothing |
| IosBridge.RNSpokestack.Success | ios/RNSpokestack.swift:141-149 | the promise `SuccessTarget` names is resolved, with the URL for `synthesize` and nil for `speak` |
| IosBridge.RNSpokestack.Classification | ios/RNSpokestack.swift:151-164 | a pending `classify` is resolved with `ClassificationValue` |
| IosBridge.RNSpokestack.DidBeginSpeaking | ios/RNSpokestack.swift:166-172 | a pending `speak` is resolved, then `play` true is sent |
| IosBridge.RNSpokestack.DidFinishSpeaking | ios/RNSpokestack.swift:174-176 | `play` false is sent |
| IosBridge.RNSpokestack.BuildPipeline | ios/RNSpokestack.swift:195-218 | with no pipeline yet: on `BuildFailure` everything fails, otherwise the pipeline is built from the current settings and profile; an existing pipeline is kept |
| IosBridge.RNSpokestack.DownloadComplete | ios/RNSpokestack.swift:178-193 | one request fewer; an error fails everything; a path is stored under the model's property; the last completion builds the pipeline, fails everything on `BuildFailure`, and keeps an existing pipeline |
| IosBridge.RNSpokestack.Prepare | ios/RNSpokestack.swift:231-237 | the downloader, the credentials and a push-to-talk builder are set |
| IosBridge.RNSpokestack.ApplyConfig | ios/RNSpokestack.swift:239-354 | the settings and the profile become `ParseConfig` of the dictionary, and the synthesizer is made |
| IosBridge.RNSpokestack.RequestDownloads | ios/RNSpokestack.swift:356-378 | `numRequests` is set before any download, and exactly the complete tables' downloads are issued |
| IosBridge.RNSpokestack.Initialize | ios/RNSpokestack.swift:227-387 | nothing happens once a pipeline exists; without a dictionary it traps after the setup; otherwise the promise is stored, downloads are issued, and the pipeline is built at once when there are none |
| IosBridge.RNSpokestack.Request | ios/RNSpokestack.swift:390-491 | with the handle, the promise is stored and the call made; without it, the promise is rejected as not initialized |
| IosBridge.RNSpokestack.Start | ios/RNSpokestack.swift:390-399 | `start` needs the pipeline |
| IosBridge.RNSpokestack.Stop | ios/RNSpokestack.swift:402-411 | `stop` needs the pipeline |
| IosBridge.RNSpokestack.Activate | ios/RNSpokestack.swift:414-431 | `activate` needs a started pipeline, and a stopped one rejects with `not_started` |
| IosBridge.RNSpokestack.Deactivate | ios/RNSpokestack.swift:434-443 | `deactivate` needs the pipeline, started or not |
| IosBridge.RNSpokestack.Synthesize | ios/RNSpokestack.swift:450-460 | `synthesize` needs the synthesizer, and an unknown format is plain text |
| IosBridge.RNSpokestack.Speak | ios/RNSpokestack.swift:467-477 | `speak` needs the synthesizer, and an unknown format is plain text |
| IosBridge.RNSpokestack.Classify | ios/RNSpokestack.swift:482-491 | `classify` needs the classifier |
| IosDownloader.Description | Downloader.swift:19-34 | each downloader error has its fixed text, and session and write errors keep their own |
| IosDownloader.NetworkAvailable | Downloader.swift:59-64 | unavailable until the first path arrives; then available iff the path is satisfied and cellular is allowed or the path is cheap |
| IosDownloader.CellularOnlyGatesExpensivePaths | Downloader.swift:59-64 | `allowCellular` matters only for a satisfied expensive path |
| IosDownloader.Dispatch | Downloader.swift:66-112 | a remote URL without network fails; a missing documents directory fails; a cached file is served unless models are refreshed; otherwise a request is started for the URL's last path component |
| IosDownloader.RequestOnlyWhenNeeded | Downloader.swift:66-112 | a request is started only for a reachable URL, and never for a cached file unless models are refreshed |
| IosDownloader.DispatchAll | Downloader.swift:114-122 | each queued entry is dispatched exactly once |
| IosDownloader.RepliesAsWritten | Downloader.swift:91-110 | as written, a transport-clean outcome gets one reply |
| IosDownloader.TransportErrorCompletesTwice | Downloader.swift:93-99 | as written, a transport error calls the completion twice |
| IosDownloader.TimeoutWithoutResponseCompletesTwice | Downloader.swift:93-99 | a timeout without a response is reported as the error and then as `noResponse` |
| IosDownloader.HandlerReply | Downloader.swift:91-110 | the intended handler gives exactly one reply, a success exactly for a clean 200 with the write succeeding |
| IosDownloader.HandlerReplyAgrees | Downloader.swift:91-110 | the corrected handler agrees with the code wherever the code replies once, and keeps the first reply otherwise |
| IosDownloader.WrittenMeansSuccess | Downloader.swift:100-103 | a written file is always reported as a success with its path |
| IosDownloader.Downloader.constructor | Downloader.swift:44-53 | the flags are those given, with no path and an empty queue |
| IosDownloader.Downloader.DownloadModel | Downloader.swift:66-112 | before the first path the completion is queued under its URL, and afterwards it is dispatched at once |
| IosDownloader.Downloader.DownloadAll | Downloader.swift:114-122 | a non-empty queue with network is dispatched entry by entry and emptied, and otherwise nothing happens |
| IosDownloader.Downloader.PathUpdate | Downloader.swift:48-51 | the path is recorded, then the queue is tried |
| IosDownloader.Downloader.TaskFinished | Downloader.swift:91-110 | with the corrected handler: the file is written iff the transfer succeeded, and the completion is called once |
| JsWrappers.Prop | src/index.ts:380 | reading a property of a non-object, or a missing one, gives `undefined` |
| JsWrappers.JoinStrings | src/index.ts:336-338 | joining strings puts the separator between consecutive elements |
| JsWrappers.OrDefault | src/index.ts:301-305 | a default parameter applies exactly when the argument is absent |
| JsWrappers.Section | src/index.ts:325 | `config.<key> \|\| {}` read as the section's fields, or none when it is not an object |
| JsWrappers.WithSection | src/index.ts:325-338 | an update writes back only into an object the config already holds |
| JsWrappers.Without | src/index.ts:433-436 | removing a listener drops every registration of it, keeps every other listener and never lengthens the list |
| JsWrappers.WithoutMultiset | src/index.ts:433-436 | every other listener stays registered exactly as often as before |
| JsWrappers.WithoutAppend | src/index.ts:433-436 | removal distributes over concatenation, so the listeners that stay keep their order |
| JsWrappers.WithoutAbsent | src/index.ts:433-436 | removing an unregistered listener changes nothing |
| JsWrappers.Config.constructor | src/index.ts:313 | the configuration holds the fields given |
| JsWrappers.Spokestack.constructor | src/index.ts:453 | no native calls and no listeners yet |
| JsWrappers.Spokestack.AddEventListener | src/index.ts:429-432 | the listener is appended to its event's listeners |
| JsWrappers.Spokestack.RemoveEventListener | src/index.ts:433-436 | the event's listeners lose that listener, and other events are untouched |
| JsWrappers.Spokestack.Call | src/index.ts:273 | one native call is appended |
| JsWrappers.Spokestack.Stop | src/index.ts:271-274 | `stop` calls the native method with no arguments, whatever it was given |
| JsWrappers.Spokestack.Deactivate | src/index.ts:271-274 | `deactivate` calls the native method with no arguments, whatever it was given |
| JsWrappers.Spokestack.Guarded | src/index.ts:277-296 | on Android without the microphone permission, the call rejects with the permission message and the native method is not called |
| JsWrappers.Spokestack.Start | src/index.ts:277-296 | `start` goes behind the permission guard |
| JsWrappers.Spokestack.Activate | src/index.ts:277-296 | `activate` goes behind the permission guard |
| JsWrappers.Spokestack.Synthesize | src/index.ts:299-306 | the format defaults to text and the voice to `demo-male` |
| JsWrappers.Spokestack.Speak | src/index.ts:299-306 | `speak` has the same defaults as `synthesize` |
| JsWrappers.Spokestack.RemoveAllListeners | src/index.ts:437-447 | the seven listed events lose their listeners and every other event keeps its own |
| JsWrappers.MethodName | android/src/main/java/com/reactnativespokestack/SpokestackModule.kt:96-283 | every native call the wrappers make reaches a method the native module exports, except `destroy` |
| JsWrappers.Spokestack.DestroyAsWritten | src/index.ts:415-419 | as shipped, `destroy` throws because no native module exports `destroy`, and no listener is removed |
| JsWrappers.Spokestack.Destroy | src/index.ts:415-420 | with a native `destroy` to call: that call first, then all listed listeners removed |
| JsIndex.ResolveNumber | src/index.ts:326-334 | a numeric model source becomes its resolved URL, and anything else is kept |
| JsIndex.JoinArray | src/index.ts:336-338 | an array list becomes its comma-joined string, and anything else is kept |
| JsIndex.DefaultProfile | src/index.ts:382-394 | wakeword alone, keyword alone and both each pick their profile, and neither picks none |
| JsIndex.StepRefresh | src/index.ts:316-318 | a boolean `refreshModels` is kept, otherwise it becomes the development flag, and no other key changes |
| JsIndex.StepSection | src/index.ts:325-376 | an object section is replaced by its normalised form, a non-object is kept, and other keys do not change |
| JsIndex.StepPipeline | src/index.ts:380-395 | a truthy profile leaves the pipeline alone; otherwise the pipeline is created if missing and given the default |
| JsIndex.RefreshModelsDefault | src/index.ts:316-318 | the normalised configuration's `refreshModels` is the boolean given, or the development flag |
| JsIndex.OtherKeysKept | src/index.ts:310-411 | keys the wrapper does not know pass through unchanged |
| JsIndex.WakewordNormalized | src/index.ts:325-338 | the wakeword section ends normalised when it is an object, and is kept otherwise |
| JsIndex.KeywordNormalized | src/index.ts:350-370 | the keyword section ends normalised when it is an object, and is kept otherwise |
| JsIndex.NluNormalized | src/index.ts:400-409 | the NLU section ends normalised when it is an object, and is kept otherwise |
| JsIndex.PipelineDefault | src/index.ts:339-395 | the pipeline is untouched when its profile is truthy, and otherwise gets the default of the configured models |
| JsIndex.WakewordSourcesResolved | src/index.ts:326-334 | each numeric wakeword model becomes its URL |
| JsIndex.KeywordSourcesResolved | src/index.ts:351-365 | each numeric keyword model and metadata becomes its URL |
| JsIndex.NluSourcesResolved | src/index.ts:400-409 | each numeric NLU model, metadata and vocabulary becomes its URL |
| JsIndex.ListsJoined | src/index.ts:336-370 | arrays of wakewords and of keyword classes become comma-joined strings |
| JsIndex.ExplicitZeroIsUnset | src/index.ts:380 | an explicit profile 0 counts as unset and is replaced by the default when there is one |
| JsIndex.ZeroProfileReplaced | src/index.ts:380-395 | `{profile: 0}` is falsy and takes the default, or stays when there is none |
| JsIndex.RefreshStep | src/index.ts:316-318 | the configuration object becomes `StepRefresh` of itself |
| JsIndex.WakewordStep | src/index.ts:325-343 | the wakeword section is normalised in place and returned |
| JsIndex.KeywordStep | src/index.ts:350-376 | the keyword section is normalised in place and returned |
| JsIndex.PipelineStep | src/index.ts:380-395 | the configuration object becomes `StepPipeline` of itself |
| JsIndex.NluStep | src/index.ts:400-409 | the NLU section is normalised in place |
| JsIndex.Initialize | src/index.ts:309-411 | the caller's configuration, or a fresh `{}`, becomes `Normalize` of itself and is passed to the native `initialize` |
| JsIndexLegacy.ResolveSource | src/index.tsx:275-283 | a truthy non-string source becomes its resolved URL, and anything else is kept |
| JsIndexLegacy.LegacyPipelineStep | src/index.tsx:287-295 | with all three wakeword models and no truthy profile, the pipeline gets the native-ASR wakeword profile; otherwise it is unchanged |
| JsIndexLegacy.LegacyWakewordResolved | src/index.tsx:274-283 | each wakeword source is resolved when it needs it |
| JsIndexLegacy.LegacyNluResolved | src/index.tsx:296-305 | each NLU source is resolved when it needs it |
| JsIndexLegacy.LegacyOtherKeysKept | src/index.tsx:268-307 | only the wakeword, pipeline and NLU keys can change |
| JsIndexLegacy.LegacySectionsResolved | src/index.tsx:274-305 | the wakeword and NLU sections end resolved when they are objects, and are kept otherwise |
| JsIndexLegacy.LegacyPipelineDefault | src/index.tsx:287-295 | the pipeline changes exactly when the wakeword models are there and no profile is set |
| JsIndexLegacy.LegacyPipelineCreated | src/index.tsx:293-294 | a missing pipeline becomes `{profile: TFLITE_WAKEWORD_NATIVE_ASR}` |
| JsIndexLegacy.LegacyWakewordStep | src/index.tsx:274-283 | the wakeword section is resolved in place |
| JsIndexLegacy.LegacyPipeline | src/index.tsx:287-295 | the configuration object becomes `LegacyPipelineStep` of itself |
| JsIndexLegacy.LegacyNluStep | src/index.tsx:296-305 | the NLU section is resolved in place |
| JsIndexLegacy.LegacyInitialize | src/index.tsx:268-307 | the configuration becomes `LegacyNormalize` of itself and is passed to the native `initialize` |
| PylonModule.OnSpeechStart | android/src/main/java/com/pylon/RNSpokestack/RNSpokestackModule.java:73-77 | `{error: false}` on `onSpeechStart` |
| PylonModule.OnSpeechEnd | android/src/main/java/com/pylon/RNSpokestack/RNSpokestackModule.java:79-83 | `{error: false}` on `onSpeechEnd` |
| PylonModule.OnSpeechResults | android/src/main/java/com/pylon/RNSpokestack/RNSpokestackModule.java:67-71 | the transcript as `value` on `onSpeechResults` |
| PylonModule.OnSpeechError | android/src/main/java/com/pylon/RNSpokestack/RNSpokestackModule.java:60-65 | the message as `error` on `onSpeechError` |
| PylonModule.OnEvent | android/src/main/java/com/pylon/RNSpokestack/RNSpokestackModule.java:40-58 | activation, deactivation and recognition have their own events, and anything else is `unrecognizedEvent` with `{error: true}` |
| PylonModule.OnEventClassifies | android/src/main/java/com/pylon/RNSpokestack/RNSpokestackModule.java:41-57 | the event name tells activation, deactivation, recognition and everything else apart |
| PylonModule.OnEventIgnoresContext | android/src/main/java/com/pylon/RNSpokestack/RNSpokestackModule.java:41-57 | the event reads nothing from the context but the transcript, and that only on recognition |
| HandleIntent.ItemPhrase | example/src/handleIntent.ts:45 | `a <Item>` when the slot is there, and `something` otherwise |
| HandleIntent.RecipePrompt | example/src/handleIntent.ts:44-46 | the recipe prompt is the fixed lead, the item phrase and the fixed tail |
| HandleIntent.Next | example/src/handleIntent.ts:17-58 | Repeat keeps the last node; yes, no, stop, cancel, fallback, recipe and help lead to their nodes; any other intent returns to the greeting |
| HandleIntent.NextReachable | example/src/handleIntent.ts:17-58 | every step stays among the reachable nodes |
| HandleIntent.NextForgetsPast | example/src/handleIntent.ts:17-58 | only Repeat depends on the last node |
| HandleIntent.RunReachable | example/src/handleIntent.ts:17-58 | a conversation from a reachable node stays at reachable nodes |
| HandleIntent.RunTrailingRepeats | example/src/handleIntent.ts:19-20 | repeats at the end of a conversation change nothing |
| HandleIntent.RepeatsKeep | example/src/handleIntent.ts:19-20 | a run of repeats keeps the node |
| HandleIntent.Handler.constructor | example/src/handleIntent.ts:15 | the handler starts at the greeting |
| HandleIntent.Handler.Handle | example/src/handleIntent.ts:17-58 | the remembered node becomes `Next` of the old one and is the answer |

## Left out

- The SDK itself, the host's event emitter, its promises and the React Native bridge appear only as the calls, events and settlements the bridge hands them.
- Threads, dispatch queues and callbacks arriving concurrently are not modelled. Each callback runs to completion.
- Floating point is not modelled. Confidences keep their `Float.toString` text, and doubles are exact reals truncated as Java does.
- `getName`, `supportedEvents`, `requiresMainQueueSetup`, the `is*` status queries, the exported enums and the type declarations have no behaviour beyond constants and are not modelled.
- The Java module's `classify` context argument is ignored, as the code ignores it.
- The Java module routes traces to `onSpeechEvent`, not to a channel of their own, and the model follows the code.
- Java `start` and `stop` call the pipeline, so a missing pipeline throws, as in the model.
- The Java and Kotlin modules iterate a `HashMap`, whose order is the entry order of the section lists. Duplicate keys cannot occur in a host map, and lemmas that need this require distinct keys.
- Null entries inside a section are values like any other. A section that is present but null is not modelled.
- In the Kotlin module, `audioPlayer.audioReceived` and the host's `Uri` parsing are reduced to the URL played.
- KtModule.SpokestackModule.Control: the SDK's own exceptions from `start`, `stop` and `deactivate` are not modelled. Only the unset late-initialised property rejects.
- The Kotlin `sendEvent` emits with a null message when an error has none. Messages are always strings here.
- Swift `RCTConvert` conversions and `as!` casts are not modelled. The dictionary arrives typed, with URLs as their text.
- In the Swift module, the downloader-nil branch is not modelled. The downloader has just been made, so that branch is dead.
- Swift resolvers and rejecters are always stored together, so the model keeps them as one table plus a pairing invariant.
- The Swift `failure` loop rejects in dictionary order, which the model leaves open: one rejection each, in some order.
- Swift completions that run re-entrantly inside `downloadModel` are not modelled. `DownloadComplete` is a separate step.
- The link from the Swift downloader's replies to `DownloadComplete` is not modelled.
- The built Swift pipeline is a snapshot of the settings and profile it was built from.
- Swift sections write disjoint state, so their relative order in the dictionary is immaterial.
- `URLSession`, `NWPathMonitor`, the file manager and the Android connectivity manager, file system and HTTP connection are values given to the model.
- The Android cache path is the cache directory, `/` and the file name. Canonicalisation is not modelled.
- AndroidDownloader.CopyStream: each read is required to return at most one buffer, which the stream guarantees.
- JavaScript numbers are integers in the model.
- `resolveModelUrl` is a parameter that always returns a string.
- The `__DEV__` flag, the platform and the permission check are parameters.
- A non-object section is treated as `{}`, and that stand-in is never written back. Properties inherited by array sections are not modelled.
- A truthy non-object pipeline is left unchanged. The strict-mode TypeError of writing a property onto a primitive is not modelled.
- The pipeline-profile constants are a parameter in `src/index.ts`. `VAD_KEYWORD_ASR` and `TFLITE_WAKEWORD_KEYWORD` are missing from `src/types.ts`.
- The legacy wrapper writes `TFLITE_WAKEWORD_NATIVE_ASR`, which is 0 in `src/types.ts`.
- JsWrappers.Spokestack.RemoveEventListener: the emitter is assumed to drop every registration of the listener.
- The pylon module's `ExceptionHandler`, its constructor's host wiring and its `sendEvent` plumbing are not modelled. The `com.pylon` module under the hyphenated package directory is not part of this model.
- The example app's UI and speech calls around `handleIntent` are not modelled.
- KtModule.PipelineSectionShape: states the corrected profile conversion (`ProfileOrdinal`), not the `as Int` cast at line 124 of `SpokestackModule.kt`. As written, every numeric profile throws ClassCastException (`KtModule.ProfileCastRejectsDoubles`). See Findings.
- KtModule.KtInitProfile: states the corrected profile conversion. As written, a configuration with a numeric `profile` never builds.
- KtModule.ConfigurePipeline: the loop performs the corrected profile conversion, not the `as Int` cast.
- KtModule.SpokestackModule.Initialize: builds with the corrected profile conversion. As written, a numeric `profile` throws ClassCastException and leaves the promise pending.
- KtModule.SpokestackModule.ResolveClassification: resolves the `classify` promise with the corrected value, the classification payload. As written, the code resolves with `getMap("result")` on a payload without that key (`KtModule.ClassifyResolutionAsWritten`), which the model takes to be null. Whether the host map throws NoSuchKeyException instead is not modelled. Such a throw would come before the promise is removed and before the event is emitted.
- KtModule.SpokestackModule.SendEvent: its `classify` branch uses the corrected resolution, as `ResolveClassification` does.
- KtModule.SpokestackModule.RejectPending: rejects the pending promises in an order it leaves open. `mutableMapOf` iterates in insertion order, which a Dafny map does not keep.
- Bridge.LowerAscii: Kotlin `toLowerCase()` follows the device's default locale. The model assumes a locale with ASCII case rules. Under a Turkish or Azeri locale `I` lowers to dotless `ı`, and non-ASCII capitals are lowered too; neither is modelled.
- KtModule.KebabCase: lowers the boundary capital with `Bridge.LowerAscii`, so it assumes the same ASCII-rule default locale.
- KtModule.SpokestackModule.SendEvent: the event name is lowered with `Bridge.LowerAscii`, under the same locale assumption. Under a Turkish locale, names such as `ACTIVATE` would be emitted as `actıvate`, which the model does not capture.
- JsWrappers.Spokestack.Destroy: assumes the native module provides `destroy`. As shipped, no native module exports it, and the call throws before any listener is removed (`JsWrappers.Spokestack.DestroyAsWritten`). See Findings.
- An explicit `null` configuration passed to `initialize` is not modelled. The configuration is either an object or absent, and absent takes the `{}` default. A `null` argument skips that default, and reading its `wakeword` throws a TypeError.
- The FFT window types the SDK declares are taken to be `hann` alone. The SDK's `FFTWindowType` is not part of this model.
- IosDownloader.Downloader.TaskFinished: logs the single reply of the corrected handler (`HandlerReply`). As written, the handler completes twice after a transport error (`IosDownloader.RepliesAsWritten`). See Findings.
- RNModule.ProfileSelection: hexadecimal floating-point text is not modelled, so the model throws NumberFormatException for it.
- RNModule.ProfileSelection: decimal text is read exactly rather than rounded to the nearest double. So `5.99999999999999999` selects entry 5, where Java rounds it to 6.0 and throws.

## Findings

| source | as written | input that shows it | evidently intended | confidence | as-written member | corrected member |
|---|---|---|---|---|---|---|
| android/src/main/java/com/reactnativespokestack/SpokestackModule.kt:124 | `map["profile"] as Int` casts the profile number | `{pipeline: {profile: 2}}`. The host map boxes every number as `Double`, so the cast throws ClassCastException | convert the number to an ordinal (`(map["profile"] as Number).toInt()`) | not executed | KtModule.ProfileCastRejectsDoubles | KtModule.ProfileOrdinalSelects |
| android/src/main/java/com/reactnativespokestack/SpokestackModule.kt:66 | the `classify` promise is resolved with `params.getMap("result")` | any classification. The adapter's payload has only `intent`, `confidence` and `slots`, so the promise receives null | resolve with the classification payload itself | not executed | KtModule.ClassifyResolvesNothing | KtModule.ClassifyResolvesResult |
| src/index.ts:415-419 | `destroy` calls the native module's `destroy` and then removes the listeners | `Spokestack.destroy()`. Neither native module exports `destroy`, so `originalDestroy` is undefined and the call throws a TypeError before `removeAllListeners` | a native `destroy` that tears the SDK down, after which the listeners are removed | not executed | JsWrappers.Spokestack.DestroyAsWritten | JsWrappers.Spokestack.Destroy |
| Downloader.swift:93-95 | after a transport error the handler calls the completion and goes on | a request that times out with no response: the completion is called with the error, then again with `noResponse` | `return` after reporting the error, so there is exactly one reply | not executed | IosDownloader.TransportErrorCompletesTwice | IosDownloader.HandlerReplyAgrees |
