/**
  The dynamically typed values that flow through the contexts: states, event
  payloads, query payloads and message bodies are JSON-like JavaScript values.
  Reading a property of `undefined` or `null` throws a TypeError, which the
  reducers do not catch, so it is modelled as a `Fault`.
 */
module Values {
  import opened Wrappers

  datatype Value =
    | Undefined
    | Null
    | Bool(b: bool)
    | Num(n: int)
    | Str(s: string)
    | Arr(items: seq<Value>)
    | Obj(fields: map<string, Value>)

  /** The own properties of a plain object; every context state is one. */
  type Fields = map<string, Value>

  /** What a throw carries: a thrown string, or the TypeError of reading `property` from undefined or null. */
  datatype Fault = Thrown(message: string) | TypeError(property: string)

  predicate Nullish(v: Value) {
    v.Undefined? || v.Null?
  }

  /** JavaScript truthiness (numbers are integers here, so NaN does not arise). */
  predicate Truthy(v: Value) {
    match v
    case Undefined => false
    case Null => false
    case Bool(b) => b
    case Num(n) => n != 0
    case Str(s) => s != ""
    case Arr(_) => true
    case Obj(_) => true
  }

  /** `o.k` on a plain object: a missing key reads as undefined. */
  function Field(o: Fields, k: string): Value {
    if k in o then o[k] else Undefined
  }

  /** `v.k` (and `const { k } = v`) on any value. Primitives and arrays have no own key used here. */
  function Prop(v: Value, k: string): Result<Value, Fault> {
    match v
    case Undefined => Failure(TypeError(k))
    case Null => Failure(TypeError(k))
    case Obj(fields) => Success(Field(fields, k))
    case _ => Success(Undefined)
  }

  /** What `v.k` reads when it does not throw. */
  function Get(v: Value, k: string): Value {
    if v.Obj? then Field(v.fields, k) else Undefined
  }

  /** The id of one element, read the way `x => x.id` reads it when it does not throw. */
  function IdOf(x: Value): Value {
    Get(x, "id")
  }

  /** Reference definition: the ids of a list, position by position. */
  function IdsOf(xs: seq<Value>): seq<Value> {
    seq(|xs|, i requires 0 <= i < |xs| => IdOf(xs[i]))
  }

  /** A value on which `.map(x => x.id)` succeeds: an array with no undefined or null element. */
  predicate HasReadableIds(v: Value) {
    v.Arr? && forall i :: 0 <= i < |v.items| ==> !Nullish(v.items[i])
  }

  /** `xs.map(x => x.id)` over the elements of an array, left to right. */
  function MapIds(xs: seq<Value>): (r: Result<seq<Value>, Fault>)
    ensures r.Success? <==> forall i :: 0 <= i < |xs| ==> !Nullish(xs[i])
    ensures r.Success? ==> r.value == IdsOf(xs)
    ensures r.Failure? ==> r.error == TypeError("id")
  {
    if xs == [] then Success([])
    else
      var head :- Prop(xs[0], "id");
      var tail :- MapIds(xs[1..]);
      assert forall i :: 1 <= i < |xs| ==> xs[i] == xs[1..][i - 1];
      Success([head] + tail)
  }

  /** `v.map(x => x.id)`: a TypeError unless `v` is an array whose elements all have readable ids. */
  function Ids(v: Value): (r: Result<seq<Value>, Fault>)
    ensures r.Success? <==> HasReadableIds(v)
    ensures r.Success? ==> |r.value| == |v.items| && r.value == IdsOf(v.items)
  {
    if v.Arr? then MapIds(v.items) else Failure(TypeError("map"))
  }
}
