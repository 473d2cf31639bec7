/**
 * The JavaScript values the API and web code inspect: the results of
 * `typeof`, truthiness, `String(v)`, and property reads and writes as they
 * behave in strict-mode module code.
 *
 * An object is its own properties in insertion order. Property reads see
 * only own properties, which is exact for every key the modelled code reads
 * except where a module says otherwise (the prototype lookup of
 * notifiers.js is modelled there). Numbers are integers.
 */
module Js {
  import opened Wrappers
  import Text

  type Props = seq<(string, Value)>

  datatype Value =
    | Undefined
    | Null
    | Bool(b: bool)
    | Num(n: int)
    | Str(s: string)
    | Arr(items: seq<Value>, props: Props)
    | Obj(props: Props)
    | Fn(name: string)

  /** The `typeof` operator. */
  function TypeOf(v: Value): (t: string)
    ensures t == "object" <==> v.Null? || v.Arr? || v.Obj?
  {
    match v
    case Undefined => "undefined"
    case Null => "object"
    case Bool(_) => "boolean"
    case Num(_) => "number"
    case Str(_) => "string"
    case Arr(_, _) => "object"
    case Obj(_) => "object"
    case Fn(_) => "function"
  }

  /** `typeof v === 'object'`. */
  predicate IsObjectType(v: Value)
    ensures IsObjectType(v) <==> TypeOf(v) == "object"
  {
    v.Null? || v.Arr? || v.Obj?
  }

  /** Conversion to boolean: undefined, null, false, 0 and "" are falsy. */
  predicate Truthy(v: Value) {
    match v
    case Undefined => false
    case Null => false
    case Bool(b) => b
    case Num(n) => n != 0
    case Str(s) => s != ""
    case _ => true
  }

  /** Reading a property of undefined or null throws a TypeError. */
  predicate Nullish(v: Value) {
    v.Undefined? || v.Null?
  }

  /** The value of the first property named key, or undefined. */
  function Lookup(props: Props, key: string): Value
  {
    if |props| == 0 then Undefined
    else if props[0].0 == key then props[0].1
    else Lookup(props[1..], key)
  }

  /** Assigning a property: an existing key keeps its place, a new one goes last. */
  function Put(props: Props, key: string, x: Value): (r: Props)
    ensures |r| == |props| || |r| == |props| + 1
  {
    if |props| == 0 then [(key, x)]
    else if props[0].0 == key then [(key, x)] + props[1..]
    else [props[0]] + Put(props[1..], key, x)
  }

  lemma {:induction false} LookupPut(props: Props, key: string, x: Value, other: string)
    ensures Lookup(Put(props, key, x), key) == x
    ensures other != key ==> Lookup(Put(props, key, x), other) == Lookup(props, other)
  {
    if |props| > 0 && props[0].0 != key {
      LookupPut(props[1..], key, x, other);
    }
  }

  /** `v[key]` for a value that is not undefined or null. */
  function Prop(v: Value, key: string): (r: Value)
    requires !Nullish(v)
    ensures !(v.Arr? || v.Obj?) ==> r == Undefined
  {
    match v
    case Arr(_, props) => Lookup(props, key)
    case Obj(props) => Lookup(props, key)
    case _ => Undefined
  }

  /**
   * `v[key] = x`: objects and arrays take the property; on undefined or
   * null, and in strict mode on any primitive, the assignment throws.
   */
  function SetProp(v: Value, key: string, x: Value): (r: Option<Value>)
    ensures r.Some? <==> v.Arr? || v.Obj?
    ensures r.Some? ==> r.value.Arr? || r.value.Obj?
    ensures r.Some? ==> Prop(r.value, key) == x
    ensures r.Some? ==> forall k | k != key :: Prop(r.value, k) == Prop(v, k)
    ensures r.Some? && v.Arr? ==> r.value.Arr? && r.value.items == v.items
    ensures r.Some? && v.Obj? ==> r.value.Obj?
  {
    match v
    case Arr(items, props) =>
      LookupPutAll(props, key, x);
      Some(Arr(items, Put(props, key, x)))
    case Obj(props) =>
      LookupPutAll(props, key, x);
      Some(Obj(Put(props, key, x)))
    case _ => None
  }

  lemma LookupPutAll(props: Props, key: string, x: Value)
    ensures Lookup(Put(props, key, x), key) == x
    ensures forall k | k != key :: Lookup(Put(props, key, x), k) == Lookup(props, k)
  {
    LookupPut(props, key, x, key);
    forall k | k != key
      ensures Lookup(Put(props, key, x), k) == Lookup(props, k)
    {
      LookupPut(props, key, x, k);
    }
  }

  /** `String(v)`, as also used by template literals and `+` with a string. */
  function ToString(v: Value): string
    decreases v, 1
  {
    match v
    case Undefined => "undefined"
    case Null => "null"
    case Bool(b) => if b then "true" else "false"
    case Num(n) => Text.FormatInt(n)
    case Str(s) => s
    case Arr(items, _) => Text.Join(seq(|items|, i requires 0 <= i < |items| => ElementString(items[i])), ',')
    case Obj(_) => "[object Object]"
    case Fn(name) => "function " + name + "() { [native code] }"
  }

  /** Array.prototype.join writes undefined and null elements as empty strings. */
  function ElementString(v: Value): string
    decreases v, 2
  {
    if Nullish(v) then "" else ToString(v)
  }
}
