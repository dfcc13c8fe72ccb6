/**
  The JavaScript values and plain objects that the purge client passes around,
  and the two helpers `defaults` and `extend` (lib/index.js:154-169) that merge
  an object literal into an options object in place.
*/
module Js {

  /** The JavaScript values that reach the client's option objects. */
  datatype Value = Undefined | Bool(b: bool) | Num(n: int) | Str(s: string)

  /** `!!v`: JavaScript truthiness, for the values above. */
  predicate Truthy(v: Value) {
    match v
    case Undefined => false
    case Bool(b) => b
    case Num(n) => n != 0
    case Str(s) => s != ""
  }

  /** `a || b`: the first operand when it is truthy, otherwise the second. */
  function Or(a: Value, b: Value): Value {
    if Truthy(a) then a else b
  }

  /** The media type the client asks for and the one whose bodies it parses. */
  const APPLICATION_JSON: string := "application/json"

  /** The own properties of an object. */
  type Props = map<string, Value>

  /** `o.k`: a missing property reads as `undefined`. */
  function Get(o: Props, k: string): Value {
    if k in o then o[k] else Undefined
  }

  type Entry = (string, Value)

  predicate DistinctKeys(entries: seq<Entry>) {
    forall i, j :: 0 <= i < j < |entries| ==> entries[i].0 != entries[j].0
  }

  /** An object literal: its own properties in `Object.keys` order, each key once. */
  type Literal = entries: seq<Entry> | DistinctKeys(entries) witness []

  function KeysOf(entries: seq<Entry>): set<string> {
    set i | 0 <= i < |entries| :: entries[i].0
  }

  /**
    What `defaults(obj, def)` leaves in `obj`: each key of `def` that `obj`
    does not own is added; a key `obj` already owns keeps its value, even
    when that value is `false` or `undefined` (the test is `hasOwnProperty`).
  */
  function Defaulted(obj: Props, def: Literal): (r: Props)
    ensures r.Keys == obj.Keys + KeysOf(def)
    ensures forall k :: k in obj ==> r[k] == obj[k]
    ensures forall i :: 0 <= i < |def| && def[i].0 !in obj ==> r[def[i].0] == def[i].1
    decreases |def|
  {
    if def == [] then obj
    else
      var (k, v) := def[0];
      var rest: Literal := def[1..];
      assert KeysOf(def) == {k} + KeysOf(rest) by {
        forall key | key in KeysOf(def) ensures key in {k} + KeysOf(rest) {
          var i :| 0 <= i < |def| && def[i].0 == key;
          if i > 0 { assert rest[i - 1].0 == key; }
        }
      }
      Defaulted(if k in obj then obj else obj[k := v], rest)
  }

  /**
    What `extend(obj, ext)` leaves in `obj`: every key of `ext` now holds the
    value `ext` gives it, and every other key of `obj` is unchanged.
  */
  function Extended(obj: Props, ext: Literal): (r: Props)
    ensures r.Keys == obj.Keys + KeysOf(ext)
    ensures forall i :: 0 <= i < |ext| ==> r[ext[i].0] == ext[i].1
    ensures forall k :: k in obj && k !in KeysOf(ext) ==> r[k] == obj[k]
    decreases |ext|
  {
    if ext == [] then obj
    else
      var (k, v) := ext[0];
      var rest: Literal := ext[1..];
      assert KeysOf(ext) == {k} + KeysOf(rest) by {
        forall key | key in KeysOf(ext) ensures key in {k} + KeysOf(rest) {
          var i :| 0 <= i < |ext| && ext[i].0 == key;
          if i > 0 { assert rest[i - 1].0 == key; }
        }
      }
      Extended(obj[k := v], rest)
  }

  /** A second `defaults` with the same literal changes nothing. */
  lemma DefaultedIdempotent(obj: Props, def: Literal)
    ensures Defaulted(Defaulted(obj, def), def) == Defaulted(obj, def)
  {
  }

  /** A second `extend` with the same literal changes nothing. */
  lemma ExtendedIdempotent(obj: Props, ext: Literal)
    ensures Extended(Extended(obj, ext), ext) == Extended(obj, ext)
  {
  }

  /** A JavaScript object whose own properties the client changes in place. */
  class JsObject {
    var props: Props

    constructor (props: Props)
      ensures this.props == props
    {
      this.props := props;
    }
  }

  /** `defaults(obj, def)`: the `forEach` over the keys of `def`. */
  method Defaults(obj: JsObject, def: Literal)
    modifies obj
    ensures obj.props == Defaulted(old(obj.props), def)
  {
    var i := 0;
    while i < |def|
      invariant 0 <= i <= |def|
      invariant Defaulted(obj.props, def[i..]) == Defaulted(old(obj.props), def)
    {
      var (k, v) := def[i];
      assert def[i..][1..] == def[i + 1..];
      if k !in obj.props {
        obj.props := obj.props[k := v];
      }
      i := i + 1;
    }
  }

  /** `extend(obj, ext)`: the `forEach` over the keys of `ext`. */
  method Extend(obj: JsObject, ext: Literal)
    modifies obj
    ensures obj.props == Extended(old(obj.props), ext)
  {
    var i := 0;
    while i < |ext|
      invariant 0 <= i <= |ext|
      invariant Extended(obj.props, ext[i..]) == Extended(old(obj.props), ext)
    {
      var (k, v) := ext[i];
      assert ext[i..][1..] == ext[i + 1..];
      obj.props := obj.props[k := v];
      i := i + 1;
    }
  }
}
