/**
 * The JavaScript side of the bridge: JavaScript values with their
 * truthiness and `Array.prototype.join`, and the wrappers the package
 * puts around the native module's methods (dropped arguments, the
 * microphone-permission guard, default arguments, listener removal).
 *
 * The native module is a log of the calls it receives; the event emitter
 * is its listeners by event name.
 */
module JsWrappers {
  import opened Bridge

  /** A JavaScript value. Numbers are integers here. */
  datatype JsValue =
    | Undefined
    | JsNull
    | JsBool(b: bool)
    | JsNum(n: int)
    | JsStr(s: string)
    | JsArray(items: seq<JsValue>)
    | JsObject(fields: map<string, JsValue>)

  /** JavaScript truthiness: `undefined`, `null`, `false`, `0` and `""` are falsy, everything else is truthy. */
  predicate Truthy(v: JsValue)
  {
    match v
    case Undefined => false
    case JsNull => false
    case JsBool(b) => b
    case JsNum(n) => n != 0
    case JsStr(s) => s != ""
    case JsArray(_) => true
    case JsObject(_) => true
  }

  /** A property read: an object's own property, `undefined` when it is missing or the value is not an object. */
  function Prop(v: JsValue, key: string): (r: JsValue)
    ensures !v.JsObject? ==> r == Undefined
    ensures v.JsObject? && key !in v.fields ==> r == Undefined
  {
    if v.JsObject? && key in v.fields then v.fields[key] else Undefined
  }

  /** A property read on an object's fields. */
  function Get(fields: map<string, JsValue>, key: string): JsValue
  {
    if key in fields then fields[key] else Undefined
  }

  /** How `join` renders one element: nothing for `undefined` and `null`, nested arrays joined with commas. */
  function ElementString(v: JsValue): string
    decreases v
  {
    match v
    case Undefined => ""
    case JsNull => ""
    case JsBool(b) => if b then "true" else "false"
    case JsNum(n) => IntToString(n)
    case JsStr(s) => s
    case JsArray(items) => Join(items, ",")
    case JsObject(_) => "[object Object]"
  }

  /** `items.join(sep)`. */
  function Join(items: seq<JsValue>, sep: string): (r: string)
    decreases items
  {
    if items == [] then ""
    else if |items| == 1 then ElementString(items[0])
    else
      Join(items[..|items| - 1], sep) + sep + ElementString(items[|items| - 1])
  }

  /** Joining strings: one string is itself, and each further element adds the separator and its text. */
  lemma JoinStrings(items: seq<string>, x: string, sep: string)
    ensures Join([JsStr(x)], sep) == x
    ensures items != [] ==>
              Join(seq(|items|, i requires 0 <= i < |items| => JsStr(items[i])) + [JsStr(x)], sep) ==
              Join(seq(|items|, i requires 0 <= i < |items| => JsStr(items[i])), sep) + sep + x
  {
    var strs := seq(|items|, i requires 0 <= i < |items| => JsStr(items[i]));
    assert (strs + [JsStr(x)])[..|strs|] == strs;
  }

  /** A call the native module receives. */
  datatype NativeCall =
    | NInitialize(id: string, secret: string, config: map<string, JsValue>)
    | NStart
    | NStop
    | NActivate
    | NDeactivate
    | NSynthesize(input: string, format: int, voice: string)
    | NSpeak(input: string, format: int, voice: string)
    | NDestroy

  /**
   * The methods the native `Spokestack` module exports: the `@ReactMethod`
   * functions of the Kotlin module and the `@objc` methods of the Swift
   * module. Neither exports `destroy`.
   */
  const NativeMethods: set<string> :=
    {"initialize", "start", "stop", "activate", "deactivate", "synthesize", "speak", "classify"}

  /** The native method a call reaches; every call but `destroy` reaches an exported one. */
  function MethodName(c: NativeCall): (n: string)
    ensures n in NativeMethods <==> !c.NDestroy?
  {
    match c
    case NInitialize(_, _, _) => "initialize"
    case NStart => "start"
    case NStop => "stop"
    case NActivate => "activate"
    case NDeactivate => "deactivate"
    case NSynthesize(_, _, _) => "synthesize"
    case NSpeak(_, _, _) => "speak"
    case NDestroy => "destroy"
  }

  /** `TTSFormat.TEXT` and the free voice, the defaults of `synthesize` and `speak`. */
  const TextFormat: int := 0
  const DefaultVoice: string := "demo-male"

  /** The rejection of `start` and `activate` on Android without the microphone permission. */
  const MicPermissionMessage: string :=
    "Microphone permission is required to use Spokestack.\n        Use PermissionsAndroid from React Native to request microphone\n        permission before calling Spokestack.start() or Spokestack.activate()."

  /** The event names `removeAllListeners` clears; `trace` is not among them. */
  const ListenedEvents: seq<string> :=
    ["recognize", "partial_recognize", "activate", "deactivate", "timeout", "play", "error"]

  /** A default parameter: it applies when the argument is `undefined`. */
  function OrDefault<T>(arg: Option<T>, default: T): (r: T)
    ensures arg.Some? ==> r == arg.value
    ensures arg.None? ==> r == default
  {
    if arg.Some? then arg.value else default
  }

  /** A configuration object the caller passes to `initialize`, which the wrapper updates in place. */
  class Config {
    var fields: map<string, JsValue>

    constructor(fields: map<string, JsValue>)
      ensures this.fields == fields
    {
      this.fields := fields;
    }
  }

  /** `config.<key> || {}` read as an object: the section's fields, or none when it is not an object. */
  function Section(fields: map<string, JsValue>, key: string): (s: map<string, JsValue>)
    ensures Get(fields, key).JsObject? ==> s == Get(fields, key).fields
    ensures !Get(fields, key).JsObject? ==> s == map[]
  {
    var v := Get(fields, key);
    if v.JsObject? then v.fields else map[]
  }

  /**
   * The section after the wrapper updated it in place: only an object the
   * config already holds is changed; the fresh `{}` standing in for a
   * missing section is discarded.
   */
  function WithSection(fields: map<string, JsValue>, key: string, s: map<string, JsValue>): (r: map<string, JsValue>)
    ensures Get(fields, key).JsObject? ==> r == fields[key := JsObject(s)]
    ensures !Get(fields, key).JsObject? ==> r == fields
  {
    if Get(fields, key).JsObject? then fields[key := JsObject(s)] else fields
  }

  /** A listener list with every registration of one listener removed, the others kept in order. */
  function Without(s: seq<nat>, x: nat): (r: seq<nat>)
    ensures x !in r
    ensures forall y :: y != x ==> (y in r <==> y in s)
    ensures |r| <= |s|
  {
    if s == [] then [] else (if s[0] == x then [] else [s[0]]) + Without(s[1..], x)
  }

  /** Removal drops every registration of the listener and keeps every other one as often as it was registered. */
  lemma {:induction false} WithoutMultiset(s: seq<nat>, x: nat)
    ensures multiset(Without(s, x)) == multiset(s)[x := 0]
  {
    if s != [] {
      assert s == [s[0]] + s[1..];
      WithoutMultiset(s[1..], x);
    }
  }

  /** Removal from a list with a first element. */
  lemma WithoutCons(h: nat, t: seq<nat>, x: nat)
    ensures Without([h] + t, x) == (if h == x then [] else [h]) + Without(t, x)
  {
    assert ([h] + t)[1..] == t;
  }

  /** Removal distributes over concatenation, so the listeners that stay keep their order. */
  lemma {:induction false} WithoutAppend(a: seq<nat>, b: seq<nat>, x: nat)
    ensures Without(a + b, x) == Without(a, x) + Without(b, x)
  {
    if a == [] {
      assert a + b == b;
    } else {
      var head := if a[0] == x then [] else [a[0]];
      assert a == [a[0]] + a[1..];
      assert a + b == [a[0]] + (a[1..] + b);
      WithoutCons(a[0], a[1..] + b, x);
      WithoutCons(a[0], a[1..], x);
      WithoutAppend(a[1..], b, x);
    }
  }

  /** Removing a listener that is not registered changes nothing. */
  lemma {:induction false} WithoutAbsent(s: seq<nat>, x: nat)
    requires x !in s
    ensures Without(s, x) == s
  {
    if s != [] {
      WithoutAbsent(s[1..], x);
      assert [s[0]] + s[1..] == s;
    }
  }

  /** The module object the package exports, with the native calls and the emitter's listeners it causes. */
  class Spokestack {
    var calls: seq<NativeCall>
    var listeners: map<string, seq<nat>>

    constructor()
      ensures calls == [] && listeners == map[]
    {
      calls := [];
      listeners := map[];
    }

    /** The listeners registered for an event, in order. */
    function ListenersOf(event: string): seq<nat>
      reads this
    {
      if event in listeners then listeners[event] else []
    }

    /** `addEventListener`. */
    method AddEventListener(event: string, listener: nat)
      modifies this
      ensures listeners == old(listeners)[event := old(ListenersOf(event)) + [listener]]
      ensures calls == old(calls)
    {
      listeners := listeners[event := ListenersOf(event) + [listener]];
    }

    /** `removeEventListener`: every registration of the listener for that event is dropped. */
    method RemoveEventListener(event: string, listener: nat)
      modifies this
      ensures ListenersOf(event) == Without(old(ListenersOf(event)), listener)
      ensures forall e :: e != event ==> ListenersOf(e) == old(ListenersOf(e))
      ensures calls == old(calls)
    {
      if event in listeners {
        listeners := listeners[event := Without(listeners[event], listener)];
      }
    }

    /** The native call at the end of the log. */
    method Call(c: NativeCall)
      modifies this
      ensures calls == old(calls) + [c] && listeners == old(listeners)
    {
      calls := calls + [c];
    }

    /** `stop`: whatever arguments it is given, the native method is called with none. */
    method Stop(args: seq<JsValue>)
      modifies this
      ensures calls == old(calls) + [NStop] && listeners == old(listeners)
    {
      Call(NStop);
    }

    /** `deactivate`: whatever arguments it is given, the native method is called with none. */
    method Deactivate(args: seq<JsValue>)
      modifies this
      ensures calls == old(calls) + [NDeactivate] && listeners == old(listeners)
    {
      Call(NDeactivate);
    }

    /**
     * The guard of `start` and `activate`: on Android without the
     * microphone permission the promise rejects and the native method is
     * never called.
     */
    method Guarded(c: NativeCall, android: bool, micPermission: bool) returns (rejection: Option<string>)
      modifies this
      ensures android && !micPermission ==> rejection == Some(MicPermissionMessage) && calls == old(calls)
      ensures !(android && !micPermission) ==> rejection.None? && calls == old(calls) + [c]
      ensures listeners == old(listeners)
    {
      if android && !micPermission {
        return Some(MicPermissionMessage);
      }
      Call(c);
      rejection := None;
    }

    /** `start`, behind the permission guard. */
    method Start(android: bool, micPermission: bool) returns (rejection: Option<string>)
      modifies this
      ensures android && !micPermission ==> rejection == Some(MicPermissionMessage) && calls == old(calls)
      ensures !(android && !micPermission) ==> rejection.None? && calls == old(calls) + [NStart]
      ensures listeners == old(listeners)
    {
      rejection := Guarded(NStart, android, micPermission);
    }

    /** `activate`, behind the permission guard. */
    method Activate(android: bool, micPermission: bool) returns (rejection: Option<string>)
      modifies this
      ensures android && !micPermission ==> rejection == Some(MicPermissionMessage) && calls == old(calls)
      ensures !(android && !micPermission) ==> rejection.None? && calls == old(calls) + [NActivate]
      ensures listeners == old(listeners)
    {
      rejection := Guarded(NActivate, android, micPermission);
    }

    /** `synthesize`: the format defaults to text and the voice to `demo-male`. */
    method Synthesize(input: string, format: Option<int>, voice: Option<string>)
      modifies this
      ensures calls == old(calls) + [NSynthesize(input, OrDefault(format, TextFormat), OrDefault(voice, DefaultVoice))]
      ensures listeners == old(listeners)
    {
      Call(NSynthesize(input, OrDefault(format, TextFormat), OrDefault(voice, DefaultVoice)));
    }

    /** `speak`: the same defaults as `synthesize`. */
    method Speak(input: string, format: Option<int>, voice: Option<string>)
      modifies this
      ensures calls == old(calls) + [NSpeak(input, OrDefault(format, TextFormat), OrDefault(voice, DefaultVoice))]
      ensures listeners == old(listeners)
    {
      Call(NSpeak(input, OrDefault(format, TextFormat), OrDefault(voice, DefaultVoice)));
    }

    /** `removeAllListeners`: clears the seven listed events and leaves every other event's listeners alone. */
    method RemoveAllListeners()
      modifies this
      ensures forall e :: e in ListenedEvents ==> ListenersOf(e) == []
      ensures forall e :: e !in ListenedEvents ==> ListenersOf(e) == old(ListenersOf(e))
      ensures calls == old(calls)
    {
      for i := 0 to |ListenedEvents|
        invariant forall e :: e in ListenedEvents[..i] ==> ListenersOf(e) == []
        invariant forall e :: e !in ListenedEvents[..i] ==> ListenersOf(e) == old(ListenersOf(e))
        invariant calls == old(calls)
      {
        assert ListenedEvents[..i + 1] == ListenedEvents[..i] + [ListenedEvents[i]];
        listeners := listeners - {ListenedEvents[i]};
      }
      assert ListenedEvents[..|ListenedEvents|] == ListenedEvents;
    }

    /**
     * `destroy` as shipped: `originalDestroy` is the native module's
     * `destroy` property, which is undefined because no native module
     * exports it, so the call throws a TypeError before any listener is
     * removed: the method modifies nothing.
     */
    method DestroyAsWritten() returns (threw: bool)
      ensures threw <==> "destroy" !in NativeMethods
      ensures threw
    {
      threw := "destroy" !in NativeMethods;
    }

    /** `destroy` with a native `destroy` to call: that call first, then every listed listener removed. */
    method Destroy()
      modifies this
      ensures calls == old(calls) + [NDestroy]
      ensures forall e :: e in ListenedEvents ==> ListenersOf(e) == []
      ensures forall e :: e !in ListenedEvents ==> ListenersOf(e) == old(ListenersOf(e))
    {
      Call(NDestroy);
      RemoveAllListeners();
    }
  }
}
