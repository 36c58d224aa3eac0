/**
 * Values that cross the boundary between the Spokestack SDK and the React
 * Native host, shared by every adapter and module of the model.
 */
module Bridge {

  datatype Option<+T> = None | Some(value: T)

  datatype Result<+T, +E> = Success(value: T) | Failure(error: E)

  /** Boxed numeric classes of the JVM. */
  datatype NumKind = DoubleK | FloatK | IntegerK | LongK | ShortK | ByteK

  /**
   * A JVM object reference as the adapters see it. A number carries its
   * numeric value and the text its `toString()` returns; an arbitrary
   * object carries its class name and its `toString()` text.
   */
  datatype Value =
    | Null
    | Boolean(b: bool)
    | Number(kind: NumKind, x: real, text: string)
    | Str(s: string)
    | Character(c: char)
    | Object(className: string, text: string)

  /** `toString()` of a non-null value. */
  function ToString(v: Value): string
    requires !v.Null?
  {
    match v
    case Boolean(b) => if b then "true" else "false"
    case Number(_, _, text) => text
    case Str(s) => s
    case Character(c) => [c]
    case Object(_, text) => text
  }

  /**
   * A 32-bit float, kept with the text `Float.toString` gives for it;
   * the decimal rendering itself is not computed.
   */
  datatype Float32 = Float32(x: real, text: string)

  /** A serialisable payload: a scalar, a keyed map or an array. */
  datatype Data =
    | Scalar(v: Value)
    | Record(fields: map<string, Data>)
    | Items(elems: seq<Data>)

  function Text(s: string): Data { Scalar(Str(s)) }

  function Flag(b: bool): Data { Scalar(Boolean(b)) }

  const NullData: Data := Scalar(Null)

  /** Looks a key up in a payload that is a keyed map. */
  function Field(d: Data, key: string): Option<Data>
  {
    if d.Record? && key in d.fields then Some(d.fields[key]) else None
  }

  /** The keys of a payload that is a keyed map (empty otherwise). */
  function Keys(d: Data): set<string>
  {
    if d.Record? then d.fields.Keys else {}
  }

  /**
   * The keys of an entry list are pairwise distinct, as the keys of a map
   * are; an entry list stands for a map in its iteration order.
   */
  predicate DistinctKeys<V>(entries: seq<(string, V)>)
  {
    forall i, j :: 0 <= i < j < |entries| ==> entries[i].0 != entries[j].0
  }

  /** The keys of an entry list. */
  function KeySet<V>(entries: seq<(string, V)>): (keys: set<string>)
    ensures forall k :: k in keys <==> exists i :: 0 <= i < |entries| && entries[i].0 == k
  {
    set i | 0 <= i < |entries| :: entries[i].0
  }

  /** Appending an entry adds its key; with distinct keys it was not there before. */
  lemma KeySetSnoc<V>(entries: seq<(string, V)>)
    requires entries != []
    ensures KeySet(entries) == KeySet(entries[..|entries| - 1]) + {entries[|entries| - 1].0}
    ensures DistinctKeys(entries) ==>
              DistinctKeys(entries[..|entries| - 1]) && entries[|entries| - 1].0 !in KeySet(entries[..|entries| - 1])
  {
    var init := entries[..|entries| - 1];
    forall k ensures k in KeySet(entries) <==> k in KeySet(init) + {entries[|entries| - 1].0} {
      if k in KeySet(entries) {
        var i :| 0 <= i < |entries| && entries[i].0 == k;
        if i < |entries| - 1 { assert init[i].0 == k; }
      }
      if k in KeySet(init) {
        var i :| 0 <= i < |init| && init[i].0 == k;
        assert entries[i].0 == k;
      }
    }
    if DistinctKeys(entries) {
      forall i | 0 <= i < |init| ensures init[i].0 != entries[|entries| - 1].0 {
        assert init[i] == entries[i];
      }
    }
  }

  /** One event handed to the host's event channel. */
  datatype Emit = Emit(name: string, payload: Data)

  /** What one adapter handler does: send once, send nothing, or throw. */
  datatype Delivery = Send(emit: Emit) | NoSend | Throw(exception: string)

  /** A promise handed over by the host, identified by a number. */
  type PromiseId = nat

  /** Resolution or rejection of a host promise; a rejection may carry an explicit code. */
  datatype Settlement =
    | Resolved(promise: PromiseId, value: Data)
    | Rejected(promise: PromiseId, code: Option<string>, message: string)

  predicate IsLowerAscii(c: char) { 'a' <= c <= 'z' }

  predicate IsUpperAscii(c: char) { 'A' <= c <= 'Z' }

  function LowerChar(c: char): (r: char)
    ensures IsUpperAscii(c) ==> IsLowerAscii(r) && r as int == c as int + 32
    ensures !IsUpperAscii(c) ==> r == c
  {
    if IsUpperAscii(c) then (c as int + 32) as char else c
  }

  /**
   * `toLowerCase()` under a default locale with ASCII case rules: each
   * ASCII capital becomes its small letter, and every other character is
   * kept.
   */
  function LowerAscii(s: string): (r: string)
    ensures |r| == |s|
    ensures forall i :: 0 <= i < |s| ==> r[i] == LowerChar(s[i])
  {
    if s == [] then [] else [LowerChar(s[0])] + LowerAscii(s[1..])
  }

  function DigitChar(d: nat): char
    requires d < 10
  {
    "0123456789"[d]
  }

  /** Decimal rendering of an integer, as `Integer.toString` gives it. */
  function IntToString(i: int): string
  {
    if i < 0 then "-" + NatToString(-i) else NatToString(i)
  }

  function NatToString(n: nat): string
    decreases n
  {
    if n < 10 then [DigitChar(n)] else NatToString(n / 10) + [DigitChar(n % 10)]
  }

  /** Java's `(int)` / `Double.intValue`: truncation toward zero, saturating at the 32-bit bounds. */
  function DoubleToInt(x: real): (r: int)
    ensures -0x8000_0000 <= r <= 0x7fff_ffff
    ensures 0.0 <= x < 0x7fff_ffff as real ==> r as real <= x < r as real + 1.0
    ensures -0x8000_0000 as real < x < 0.0 ==> r as real - 1.0 < x <= r as real
    ensures x >= 0x7fff_ffff as real ==> r == 0x7fff_ffff
    ensures x <= -0x8000_0000 as real ==> r == -0x8000_0000
  {
    if x >= 0x7fff_ffff as real then 0x7fff_ffff
    else if x <= -0x8000_0000 as real then -0x8000_0000
    else if x >= 0.0 then x.Floor
    else -((-x).Floor)
  }
}
