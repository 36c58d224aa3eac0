/**
 * The `initialize` wrapper of the current JavaScript entry point: it
 * defaults `refreshModels`, turns numeric model sources into URLs, joins
 * array lists into comma-separated strings, and picks a default pipeline
 * profile from the wakeword and keyword models present, before the
 * configuration reaches the native module.
 *
 * `resolveModelUrl` is a parameter, and so are the values of the profile
 * constants the wrapper writes.
 */
module JsIndex {
  import opened Bridge
  import opened JsWrappers

  /** The values of the three profile constants the wrapper may write. */
  datatype ProfileValues = ProfileValues(wakewordNativeAsr: JsValue, vadKeywordAsr: JsValue, wakewordKeyword: JsValue)

  /** A numeric model source replaced by its URL; any other value is left alone. */
  function ResolveNumber(s: map<string, JsValue>, key: string, resolve: int -> string): (r: map<string, JsValue>)
    ensures r.Keys == s.Keys
    ensures key in s && s[key].JsNum? ==> r[key] == JsStr(resolve(s[key].n))
    ensures forall k :: k in s && (k != key || !s[k].JsNum?) ==> r[k] == s[k]
  {
    if key in s && s[key].JsNum? then s[key := JsStr(resolve(s[key].n))] else s
  }

  /** An array list replaced by its comma-joined string; any other value is left alone. */
  function JoinArray(s: map<string, JsValue>, key: string): (r: map<string, JsValue>)
    ensures r.Keys == s.Keys
    ensures key in s && s[key].JsArray? ==> r[key] == JsStr(Join(s[key].items, ","))
    ensures forall k :: k in s && (k != key || !s[k].JsArray?) ==> r[k] == s[k]
  {
    if key in s && s[key].JsArray? then s[key := JsStr(Join(s[key].items, ","))] else s
  }

  /** The wakeword section after resolution and joining. */
  function NormalizeWakeword(s: map<string, JsValue>, resolve: int -> string): map<string, JsValue>
  {
    JoinArray(ResolveNumber(ResolveNumber(ResolveNumber(s, "detect", resolve), "encode", resolve), "filter", resolve),
              "wakewords")
  }

  /** The keyword section after resolution and joining. */
  function NormalizeKeyword(s: map<string, JsValue>, resolve: int -> string): map<string, JsValue>
  {
    JoinArray(ResolveNumber(ResolveNumber(ResolveNumber(ResolveNumber(s, "detect", resolve), "encode", resolve),
                                          "filter", resolve), "metadata", resolve),
              "classes")
  }

  /** The NLU section after resolution. */
  function NormalizeNlu(s: map<string, JsValue>, resolve: int -> string): map<string, JsValue>
  {
    ResolveNumber(ResolveNumber(ResolveNumber(s, "model", resolve), "metadata", resolve), "vocab", resolve)
  }

  /** `hasWakeword`: all three wakeword models are truthy. */
  predicate HasWakeword(s: map<string, JsValue>)
  {
    Truthy(Get(s, "filter")) && Truthy(Get(s, "detect")) && Truthy(Get(s, "encode"))
  }

  /** `hasKeyword`: the three keyword models, and the classes or the metadata. */
  predicate HasKeyword(s: map<string, JsValue>)
  {
    Truthy(Get(s, "filter")) && Truthy(Get(s, "detect")) && Truthy(Get(s, "encode")) &&
    (Truthy(Get(s, "classes")) || Truthy(Get(s, "metadata")))
  }

  /** The default profile: wakeword only, keyword only, or both; none when neither is configured. */
  function DefaultProfile(hasWakeword: bool, hasKeyword: bool, pv: ProfileValues): (r: Option<JsValue>)
    ensures r.None? <==> !hasWakeword && !hasKeyword
    ensures hasWakeword && !hasKeyword ==> r == Some(pv.wakewordNativeAsr)
    ensures !hasWakeword && hasKeyword ==> r == Some(pv.vadKeywordAsr)
    ensures hasWakeword && hasKeyword ==> r == Some(pv.wakewordKeyword)
  {
    if hasWakeword && !hasKeyword then Some(pv.wakewordNativeAsr)
    else if !hasWakeword && hasKeyword then Some(pv.vadKeywordAsr)
    else if hasWakeword && hasKeyword then Some(pv.wakewordKeyword)
    else None
  }

  /** `config.pipeline = config.pipeline || {}`, then the default profile written into it, if there is one. */
  function PipelineWithDefault(p: JsValue, d: Option<JsValue>): JsValue
  {
    var base := if Truthy(p) then p else JsObject(map[]);
    if d.Some? && base.JsObject? then JsObject(base.fields["profile" := d.value]) else base
  }

  /** Step one: `refreshModels` keeps a boolean and otherwise becomes the development flag. */
  function StepRefresh(fields: map<string, JsValue>, isDev: bool): (r: map<string, JsValue>)
    ensures Get(r, "refreshModels") ==
            (if Get(fields, "refreshModels").JsBool? then Get(fields, "refreshModels") else JsBool(isDev))
    ensures forall k :: k != "refreshModels" ==> Get(r, k) == Get(fields, k)
  {
    if Get(fields, "refreshModels").JsBool? then fields else fields["refreshModels" := JsBool(isDev)]
  }

  /** Steps two to four: one section normalised in place, every other key untouched. */
  function StepSection(fields: map<string, JsValue>, key: string, normalized: map<string, JsValue>)
    : (r: map<string, JsValue>)
    ensures Get(fields, key).JsObject? ==> Get(r, key) == JsObject(normalized)
    ensures !Get(fields, key).JsObject? ==> Get(r, key) == Get(fields, key)
    ensures forall k :: k != key ==> Get(r, k) == Get(fields, k)
  {
    WithSection(fields, key, normalized)
  }

  /** The pipeline step: nothing when the profile is truthy, otherwise the pipeline with the default. */
  function StepPipeline(fields: map<string, JsValue>, d: Option<JsValue>): (r: map<string, JsValue>)
    ensures Truthy(Prop(Get(fields, "pipeline"), "profile")) ==> Get(r, "pipeline") == Get(fields, "pipeline")
    ensures !Truthy(Prop(Get(fields, "pipeline"), "profile")) ==>
              Get(r, "pipeline") == PipelineWithDefault(Get(fields, "pipeline"), d)
    ensures forall k :: k != "pipeline" ==> Get(r, k) == Get(fields, k)
  {
    if Truthy(Prop(Get(fields, "pipeline"), "profile")) then fields
    else fields["pipeline" := PipelineWithDefault(Get(fields, "pipeline"), d)]
  }

  /** The profile the wrapper defaults to for a configuration, from its normalised sections. */
  function DefaultFor(fields: map<string, JsValue>, resolve: int -> string, pv: ProfileValues): Option<JsValue>
  {
    DefaultProfile(HasWakeword(NormalizeWakeword(Section(fields, "wakeword"), resolve)),
                   HasKeyword(NormalizeKeyword(Section(fields, "keyword"), resolve)), pv)
  }

  /** The configuration `initialize` hands to the native module: the steps in the wrapper's order. */
  function Normalize(fields: map<string, JsValue>, isDev: bool, resolve: int -> string, pv: ProfileValues)
    : map<string, JsValue>
  {
    var f1 := StepRefresh(fields, isDev);
    var f2 := StepSection(f1, "wakeword", NormalizeWakeword(Section(f1, "wakeword"), resolve));
    var f3 := StepSection(f2, "keyword", NormalizeKeyword(Section(f2, "keyword"), resolve));
    var f4 := StepPipeline(f3, DefaultFor(fields, resolve, pv));
    StepSection(f4, "nlu", NormalizeNlu(Section(f4, "nlu"), resolve))
  }

  /** The keys of the configuration the wrapper may change. */
  const TouchedKeys: set<string> := {"refreshModels", "wakeword", "keyword", "pipeline", "nlu"}

  /** The intermediate configurations, after one, two, three and four steps. */
  function AfterSections(fields: map<string, JsValue>, isDev: bool, resolve: int -> string)
    : (r: map<string, JsValue>)
    ensures forall k :: k != "refreshModels" && k != "wakeword" && k != "keyword" ==> Get(r, k) == Get(fields, k)
  {
    var f1 := StepRefresh(fields, isDev);
    var f2 := StepSection(f1, "wakeword", NormalizeWakeword(Section(f1, "wakeword"), resolve));
    StepSection(f2, "keyword", NormalizeKeyword(Section(f2, "keyword"), resolve))
  }

  /** `refreshModels`: a boolean is kept, anything else becomes the development flag. */
  lemma RefreshModelsDefault(fields: map<string, JsValue>, isDev: bool, resolve: int -> string, pv: ProfileValues)
    ensures Get(Normalize(fields, isDev, resolve, pv), "refreshModels") ==
            (if Get(fields, "refreshModels").JsBool? then Get(fields, "refreshModels") else JsBool(isDev))
  {
    var f1 := StepRefresh(fields, isDev);
    var f2 := StepSection(f1, "wakeword", NormalizeWakeword(Section(f1, "wakeword"), resolve));
    var f3 := StepSection(f2, "keyword", NormalizeKeyword(Section(f2, "keyword"), resolve));
    var f4 := StepPipeline(f3, DefaultFor(fields, resolve, pv));
    assert Get(f4, "refreshModels") == Get(f1, "refreshModels");
  }

  /** Keys the wrapper does not know are passed through unchanged. */
  lemma OtherKeysKept(fields: map<string, JsValue>, isDev: bool, resolve: int -> string, pv: ProfileValues, k: string)
    requires k !in TouchedKeys
    ensures Get(Normalize(fields, isDev, resolve, pv), k) == Get(fields, k)
  {
    var f3 := AfterSections(fields, isDev, resolve);
    var f4 := StepPipeline(f3, DefaultFor(fields, resolve, pv));
    assert Get(f4, k) == Get(fields, k);
  }

  /** The wakeword section: an object is normalised, anything else is left as it is. */
  lemma WakewordNormalized(fields: map<string, JsValue>, isDev: bool, resolve: int -> string, pv: ProfileValues)
    ensures var r := Normalize(fields, isDev, resolve, pv);
            (Get(fields, "wakeword").JsObject? ==> Get(r, "wakeword") == JsObject(NormalizeWakeword(Section(fields, "wakeword"), resolve))) &&
            (!Get(fields, "wakeword").JsObject? ==> Get(r, "wakeword") == Get(fields, "wakeword"))
  {
    var f1 := StepRefresh(fields, isDev);
    var f2 := StepSection(f1, "wakeword", NormalizeWakeword(Section(f1, "wakeword"), resolve));
    var f3 := StepSection(f2, "keyword", NormalizeKeyword(Section(f2, "keyword"), resolve));
    var f4 := StepPipeline(f3, DefaultFor(fields, resolve, pv));
    assert Get(f1, "wakeword") == Get(fields, "wakeword");
    assert Get(f4, "wakeword") == Get(f2, "wakeword");
  }

  /** The keyword section: an object is normalised, anything else is left as it is. */
  lemma KeywordNormalized(fields: map<string, JsValue>, isDev: bool, resolve: int -> string, pv: ProfileValues)
    ensures var r := Normalize(fields, isDev, resolve, pv);
            (Get(fields, "keyword").JsObject? ==> Get(r, "keyword") == JsObject(NormalizeKeyword(Section(fields, "keyword"), resolve))) &&
            (!Get(fields, "keyword").JsObject? ==> Get(r, "keyword") == Get(fields, "keyword"))
  {
    var f1 := StepRefresh(fields, isDev);
    var f2 := StepSection(f1, "wakeword", NormalizeWakeword(Section(f1, "wakeword"), resolve));
    var f3 := StepSection(f2, "keyword", NormalizeKeyword(Section(f2, "keyword"), resolve));
    var f4 := StepPipeline(f3, DefaultFor(fields, resolve, pv));
    assert Get(f2, "keyword") == Get(fields, "keyword");
    assert Get(f4, "keyword") == Get(f3, "keyword");
  }

  /** The NLU section: an object is normalised, anything else is left as it is. */
  lemma NluNormalized(fields: map<string, JsValue>, isDev: bool, resolve: int -> string, pv: ProfileValues)
    ensures var r := Normalize(fields, isDev, resolve, pv);
            (Get(fields, "nlu").JsObject? ==> Get(r, "nlu") == JsObject(NormalizeNlu(Section(fields, "nlu"), resolve))) &&
            (!Get(fields, "nlu").JsObject? ==> Get(r, "nlu") == Get(fields, "nlu"))
  {
    var f3 := AfterSections(fields, isDev, resolve);
    var f4 := StepPipeline(f3, DefaultFor(fields, resolve, pv));
    assert Get(f4, "nlu") == Get(fields, "nlu");
  }

  /**
   * The pipeline: left alone when its profile is truthy, otherwise created
   * if missing and given the default profile of the configured models.
   */
  lemma PipelineDefault(fields: map<string, JsValue>, isDev: bool, resolve: int -> string, pv: ProfileValues)
    ensures var r := Normalize(fields, isDev, resolve, pv);
            (Truthy(Prop(Get(fields, "pipeline"), "profile")) ==> Get(r, "pipeline") == Get(fields, "pipeline")) &&
            (!Truthy(Prop(Get(fields, "pipeline"), "profile")) ==>
               Get(r, "pipeline") == PipelineWithDefault(Get(fields, "pipeline"), DefaultFor(fields, resolve, pv)))
  {
    var f3 := AfterSections(fields, isDev, resolve);
    var f4 := StepPipeline(f3, DefaultFor(fields, resolve, pv));
    assert Get(f3, "pipeline") == Get(fields, "pipeline");
    assert Get(Normalize(fields, isDev, resolve, pv), "pipeline") == Get(f4, "pipeline");
  }

  /** The wakeword model sources: a number becomes its URL, anything else is kept. */
  lemma WakewordSourcesResolved(s: map<string, JsValue>, resolve: int -> string, key: string)
    requires key in {"detect", "encode", "filter"}
    ensures Get(NormalizeWakeword(s, resolve), key) == (if Get(s, key).JsNum? then JsStr(resolve(Get(s, key).n)) else Get(s, key))
  {
  }

  /** The keyword model sources and metadata: a number becomes its URL, anything else is kept. */
  lemma KeywordSourcesResolved(s: map<string, JsValue>, resolve: int -> string, key: string)
    requires key in {"detect", "encode", "filter", "metadata"}
    ensures Get(NormalizeKeyword(s, resolve), key) == (if Get(s, key).JsNum? then JsStr(resolve(Get(s, key).n)) else Get(s, key))
  {
  }

  /** The NLU model, metadata and vocabulary: a number becomes its URL, anything else is kept. */
  lemma NluSourcesResolved(s: map<string, JsValue>, resolve: int -> string, key: string)
    requires key in {"model", "metadata", "vocab"}
    ensures Get(NormalizeNlu(s, resolve), key) == (if Get(s, key).JsNum? then JsStr(resolve(Get(s, key).n)) else Get(s, key))
  {
  }

  /** The lists: an array of wakewords or keyword classes becomes one comma-joined string. */
  lemma ListsJoined(s: map<string, JsValue>, resolve: int -> string)
    ensures Get(NormalizeWakeword(s, resolve), "wakewords") ==
            (if Get(s, "wakewords").JsArray? then JsStr(Join(Get(s, "wakewords").items, ",")) else Get(s, "wakewords"))
    ensures Get(NormalizeKeyword(s, resolve), "classes") ==
            (if Get(s, "classes").JsArray? then JsStr(Join(Get(s, "classes").items, ",")) else Get(s, "classes"))
  {
  }

  /**
   * An explicit profile 0 counts as unset: the pipeline `{profile: 0}`
   * gets the default profile of the configured models, and stays as it is
   * only when neither wakeword nor keyword models are configured.
   */
  lemma ExplicitZeroIsUnset(fields: map<string, JsValue>, isDev: bool, resolve: int -> string, pv: ProfileValues)
    requires Get(fields, "pipeline") == JsObject(map["profile" := JsNum(0)])
    ensures var d := DefaultFor(fields, resolve, pv);
            var p := Get(Normalize(fields, isDev, resolve, pv), "pipeline");
            (d.Some? ==> p == JsObject(map["profile" := d.value])) && (d.None? ==> p == Get(fields, "pipeline"))
  {
    PipelineDefault(fields, isDev, resolve, pv);
    ZeroProfileReplaced(DefaultFor(fields, resolve, pv));
  }

  /** The pipeline `{profile: 0}` with a default: the default replaces the 0, and no default keeps it. */
  lemma ZeroProfileReplaced(d: Option<JsValue>)
    ensures !Truthy(Prop(JsObject(map["profile" := JsNum(0)]), "profile"))
    ensures d.Some? ==> PipelineWithDefault(JsObject(map["profile" := JsNum(0)]), d) == JsObject(map["profile" := d.value])
    ensures d.None? ==> PipelineWithDefault(JsObject(map["profile" := JsNum(0)]), d) == JsObject(map["profile" := JsNum(0)])
  {
    if d.Some? {
      assert map["profile" := JsNum(0)]["profile" := d.value] == map["profile" := d.value];
    }
  }

  /** The first step on the configuration object. */
  method RefreshStep(c: Config, isDev: bool)
    modifies c
    ensures c.fields == StepRefresh(old(c.fields), isDev)
  {
    if !Get(c.fields, "refreshModels").JsBool? {
      c.fields := c.fields["refreshModels" := JsBool(isDev)];
    }
  }

  /** The wakeword section resolved and joined in place; the normalised section is returned. */
  method WakewordStep(c: Config, resolve: int -> string) returns (wake: map<string, JsValue>)
    modifies c
    ensures wake == NormalizeWakeword(Section(old(c.fields), "wakeword"), resolve)
    ensures c.fields == StepSection(old(c.fields), "wakeword", wake)
  {
    wake := Section(c.fields, "wakeword");
    wake := ResolveNumber(wake, "detect", resolve);
    wake := ResolveNumber(wake, "encode", resolve);
    wake := ResolveNumber(wake, "filter", resolve);
    wake := JoinArray(wake, "wakewords");
    c.fields := WithSection(c.fields, "wakeword", wake);
  }

  /** The keyword section resolved and joined in place; the normalised section is returned. */
  method KeywordStep(c: Config, resolve: int -> string) returns (keyword: map<string, JsValue>)
    modifies c
    ensures keyword == NormalizeKeyword(Section(old(c.fields), "keyword"), resolve)
    ensures c.fields == StepSection(old(c.fields), "keyword", keyword)
  {
    keyword := Section(c.fields, "keyword");
    keyword := ResolveNumber(keyword, "detect", resolve);
    keyword := ResolveNumber(keyword, "encode", resolve);
    keyword := ResolveNumber(keyword, "filter", resolve);
    keyword := ResolveNumber(keyword, "metadata", resolve);
    keyword := JoinArray(keyword, "classes");
    c.fields := WithSection(c.fields, "keyword", keyword);
  }

  /** The pipeline given the default profile unless its profile is truthy. */
  method PipelineStep(c: Config, d: Option<JsValue>)
    modifies c
    ensures c.fields == StepPipeline(old(c.fields), d)
  {
    if !Truthy(Prop(Get(c.fields, "pipeline"), "profile")) {
      c.fields := c.fields["pipeline" := PipelineWithDefault(Get(c.fields, "pipeline"), d)];
    }
  }

  /** The NLU section resolved in place. */
  method NluStep(c: Config, resolve: int -> string)
    modifies c
    ensures c.fields == StepSection(old(c.fields), "nlu", NormalizeNlu(Section(old(c.fields), "nlu"), resolve))
  {
    var nlu := Section(c.fields, "nlu");
    nlu := ResolveNumber(nlu, "model", resolve);
    nlu := ResolveNumber(nlu, "metadata", resolve);
    nlu := ResolveNumber(nlu, "vocab", resolve);
    c.fields := WithSection(c.fields, "nlu", nlu);
  }

  /** The wrapped `initialize`: the caller's configuration, or a fresh `{}`, updated step by step and then passed on. */
  method Initialize(sp: Spokestack, id: string, secret: string, config: Option<Config>, isDev: bool,
                    resolve: int -> string, pv: ProfileValues)
    modifies sp, if config.Some? then {config.value} else {}
    ensures config.Some? ==> config.value.fields == Normalize(old(config.value.fields), isDev, resolve, pv)
    ensures sp.calls == old(sp.calls) +
              [NInitialize(id, secret, Normalize(if config.Some? then old(config.value.fields) else map[], isDev, resolve, pv))]
    ensures sp.listeners == old(sp.listeners)
  {
    var c: Config;
    if config.Some? {
      c := config.value;
    } else {
      c := new Config(map[]);
    }
    ghost var f0 := c.fields;
    RefreshStep(c, isDev);
    assert Section(c.fields, "wakeword") == Section(f0, "wakeword");
    var wake := WakewordStep(c, resolve);
    assert Section(c.fields, "keyword") == Section(f0, "keyword");
    var keyword := KeywordStep(c, resolve);
    assert DefaultProfile(HasWakeword(wake), HasKeyword(keyword), pv) == DefaultFor(f0, resolve, pv);
    PipelineStep(c, DefaultProfile(HasWakeword(wake), HasKeyword(keyword), pv));
    NluStep(c, resolve);
    assert c.fields == Normalize(f0, isDev, resolve, pv);
    sp.Call(NInitialize(id, secret, c.fields));
  }
}
