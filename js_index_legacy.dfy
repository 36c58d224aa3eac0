/**
 * The `initialize` wrapper of the earlier JavaScript entry point: any
 * truthy, non-string model source is turned into a URL, and the pipeline
 * defaults to the wakeword profile only when all three wakeword models
 * are given and no profile is set. There is no `refreshModels` default,
 * no list joining and no keyword section.
 */
module JsIndexLegacy {
  import opened Bridge
  import opened JsWrappers
  import opened JsIndex

  /** `PipelineProfile.TFLITE_WAKEWORD_NATIVE_ASR`. */
  const WakewordNativeAsr: JsValue := JsNum(0)

  /** A source the wrapper resolves: truthy and not already a string. */
  predicate NeedsResolution(v: JsValue)
  {
    Truthy(v) && !v.JsStr?
  }

  /** One model source resolved to its URL when it needs it; every other entry is kept. */
  function ResolveSource(s: map<string, JsValue>, key: string, resolve: JsValue -> string): (r: map<string, JsValue>)
    ensures r.Keys == s.Keys
    ensures key in s && NeedsResolution(s[key]) ==> r[key] == JsStr(resolve(s[key]))
    ensures forall k :: k in s && (k != key || !NeedsResolution(s[k])) ==> r[k] == s[k]
  {
    if key in s && NeedsResolution(s[key]) then s[key := JsStr(resolve(s[key]))] else s
  }

  /** The wakeword section with its filter, detect and encode models resolved. */
  function LegacyWakeword(s: map<string, JsValue>, resolve: JsValue -> string): map<string, JsValue>
  {
    ResolveSource(ResolveSource(ResolveSource(s, "filter", resolve), "detect", resolve), "encode", resolve)
  }

  /** The NLU section with its model, metadata and vocabulary resolved. */
  function LegacyNlu(s: map<string, JsValue>, resolve: JsValue -> string): map<string, JsValue>
  {
    ResolveSource(ResolveSource(ResolveSource(s, "model", resolve), "metadata", resolve), "vocab", resolve)
  }

  /**
   * The pipeline step: with all three wakeword models and a falsy profile
   * the pipeline (created if missing) gets the wakeword profile; otherwise
   * nothing changes, and a missing pipeline stays missing.
   */
  function LegacyPipelineStep(fields: map<string, JsValue>, hasWakeword: bool): (r: map<string, JsValue>)
    ensures hasWakeword && !Truthy(Prop(Get(fields, "pipeline"), "profile")) ==>
              Get(r, "pipeline") == PipelineWithDefault(Get(fields, "pipeline"), Some(WakewordNativeAsr))
    ensures !(hasWakeword && !Truthy(Prop(Get(fields, "pipeline"), "profile"))) ==> r == fields
    ensures forall k :: k != "pipeline" ==> Get(r, k) == Get(fields, k)
  {
    if hasWakeword && !Truthy(Prop(Get(fields, "pipeline"), "profile")) then
      fields["pipeline" := PipelineWithDefault(Get(fields, "pipeline"), Some(WakewordNativeAsr))]
    else fields
  }

  /** The configuration this `initialize` hands to the native module. */
  function LegacyNormalize(fields: map<string, JsValue>, resolve: JsValue -> string): map<string, JsValue>
  {
    var wake := LegacyWakeword(Section(fields, "wakeword"), resolve);
    var f1 := StepSection(fields, "wakeword", wake);
    var f2 := LegacyPipelineStep(f1, HasWakeword(wake));
    StepSection(f2, "nlu", LegacyNlu(Section(f2, "nlu"), resolve))
  }

  /** Each wakeword source: resolved when it needs it, kept otherwise. */
  lemma LegacyWakewordResolved(s: map<string, JsValue>, resolve: JsValue -> string, key: string)
    requires key in {"filter", "detect", "encode"}
    ensures Get(LegacyWakeword(s, resolve), key) ==
            (if NeedsResolution(Get(s, key)) then JsStr(resolve(Get(s, key))) else Get(s, key))
  {
  }

  /** Each NLU source: resolved when it needs it, kept otherwise. */
  lemma LegacyNluResolved(s: map<string, JsValue>, resolve: JsValue -> string, key: string)
    requires key in {"model", "metadata", "vocab"}
    ensures Get(LegacyNlu(s, resolve), key) ==
            (if NeedsResolution(Get(s, key)) then JsStr(resolve(Get(s, key))) else Get(s, key))
  {
  }

  /** Only the wakeword section, the pipeline and the NLU section can change; `refreshModels` and `keyword` are passed as they are. */
  lemma LegacyOtherKeysKept(fields: map<string, JsValue>, resolve: JsValue -> string, k: string)
    requires k != "wakeword" && k != "pipeline" && k != "nlu"
    ensures Get(LegacyNormalize(fields, resolve), k) == Get(fields, k)
  {
    var wake := LegacyWakeword(Section(fields, "wakeword"), resolve);
    var f1 := StepSection(fields, "wakeword", wake);
    var f2 := LegacyPipelineStep(f1, HasWakeword(wake));
    assert Get(f2, k) == Get(fields, k);
  }

  /** The wakeword and NLU sections: an object is resolved, anything else is left as it is. */
  lemma LegacySectionsResolved(fields: map<string, JsValue>, resolve: JsValue -> string)
    ensures var r := LegacyNormalize(fields, resolve);
            (Get(fields, "wakeword").JsObject? ==> Get(r, "wakeword") == JsObject(LegacyWakeword(Section(fields, "wakeword"), resolve))) &&
            (!Get(fields, "wakeword").JsObject? ==> Get(r, "wakeword") == Get(fields, "wakeword"))
    ensures var r := LegacyNormalize(fields, resolve);
            (Get(fields, "nlu").JsObject? ==> Get(r, "nlu") == JsObject(LegacyNlu(Section(fields, "nlu"), resolve))) &&
            (!Get(fields, "nlu").JsObject? ==> Get(r, "nlu") == Get(fields, "nlu"))
  {
    var wake := LegacyWakeword(Section(fields, "wakeword"), resolve);
    var f1 := StepSection(fields, "wakeword", wake);
    var f2 := LegacyPipelineStep(f1, HasWakeword(wake));
    assert Get(f2, "wakeword") == Get(f1, "wakeword");
    assert Get(f2, "nlu") == Get(fields, "nlu");
  }

  /**
   * The pipeline: the wakeword profile is written exactly when the
   * resolved wakeword models are all truthy and no truthy profile is set;
   * otherwise the pipeline is what it was, even when missing.
   */
  lemma LegacyPipelineDefault(fields: map<string, JsValue>, resolve: JsValue -> string)
    ensures var wake := LegacyWakeword(Section(fields, "wakeword"), resolve);
            var p := Get(LegacyNormalize(fields, resolve), "pipeline");
            (HasWakeword(wake) && !Truthy(Prop(Get(fields, "pipeline"), "profile")) ==>
               p == PipelineWithDefault(Get(fields, "pipeline"), Some(WakewordNativeAsr))) &&
            (!(HasWakeword(wake) && !Truthy(Prop(Get(fields, "pipeline"), "profile"))) ==> p == Get(fields, "pipeline"))
  {
    var wake := LegacyWakeword(Section(fields, "wakeword"), resolve);
    var f1 := StepSection(fields, "wakeword", wake);
    var f2 := LegacyPipelineStep(f1, HasWakeword(wake));
    assert Get(f1, "pipeline") == Get(fields, "pipeline");
    assert Get(LegacyNormalize(fields, resolve), "pipeline") == Get(f2, "pipeline");
  }

  /** A missing pipeline with all three wakeword models becomes `{profile: TFLITE_WAKEWORD_NATIVE_ASR}`. */
  lemma LegacyPipelineCreated(fields: map<string, JsValue>, resolve: JsValue -> string)
    requires "pipeline" !in fields
    requires HasWakeword(LegacyWakeword(Section(fields, "wakeword"), resolve))
    ensures Get(LegacyNormalize(fields, resolve), "pipeline") == JsObject(map["profile" := WakewordNativeAsr])
  {
    LegacyPipelineDefault(fields, resolve);
  }

  /** The wakeword section resolved in place; the resolved section is returned. */
  method LegacyWakewordStep(c: Config, resolve: JsValue -> string) returns (wake: map<string, JsValue>)
    modifies c
    ensures wake == LegacyWakeword(Section(old(c.fields), "wakeword"), resolve)
    ensures c.fields == StepSection(old(c.fields), "wakeword", wake)
  {
    wake := Section(c.fields, "wakeword");
    wake := ResolveSource(wake, "filter", resolve);
    wake := ResolveSource(wake, "detect", resolve);
    wake := ResolveSource(wake, "encode", resolve);
    c.fields := WithSection(c.fields, "wakeword", wake);
  }

  /** The pipeline given the wakeword profile when the wakeword models are there and no profile is set. */
  method LegacyPipeline(c: Config, hasWakeword: bool)
    modifies c
    ensures c.fields == LegacyPipelineStep(old(c.fields), hasWakeword)
  {
    if hasWakeword && !Truthy(Prop(Get(c.fields, "pipeline"), "profile")) {
      c.fields := c.fields["pipeline" := PipelineWithDefault(Get(c.fields, "pipeline"), Some(WakewordNativeAsr))];
    }
  }

  /** The NLU section resolved in place. */
  method LegacyNluStep(c: Config, resolve: JsValue -> string)
    modifies c
    ensures c.fields == StepSection(old(c.fields), "nlu", LegacyNlu(Section(old(c.fields), "nlu"), resolve))
  {
    var nlu := Section(c.fields, "nlu");
    nlu := ResolveSource(nlu, "model", resolve);
    nlu := ResolveSource(nlu, "metadata", resolve);
    nlu := ResolveSource(nlu, "vocab", resolve);
    c.fields := WithSection(c.fields, "nlu", nlu);
  }

  /** The wrapped `initialize`: the caller's configuration, or a fresh `{}`, updated in place and passed on. */
  method LegacyInitialize(sp: Spokestack, id: string, secret: string, config: Option<Config>, resolve: JsValue -> string)
    modifies sp, if config.Some? then {config.value} else {}
    ensures config.Some? ==> config.value.fields == LegacyNormalize(old(config.value.fields), resolve)
    ensures sp.calls == old(sp.calls) +
              [NInitialize(id, secret, LegacyNormalize(if config.Some? then old(config.value.fields) else map[], resolve))]
    ensures sp.listeners == old(sp.listeners)
  {
    var c: Config;
    if config.Some? {
      c := config.value;
    } else {
      c := new Config(map[]);
    }
    ghost var f0 := c.fields;
    var wake := LegacyWakewordStep(c, resolve);
    LegacyPipeline(c, HasWakeword(wake));
    LegacyNluStep(c, resolve);
    assert c.fields == LegacyNormalize(f0, resolve);
    sp.Call(NInitialize(id, secret, c.fields));
  }
}
