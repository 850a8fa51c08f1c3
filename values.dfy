/**
 * JSON-like JavaScript values as the configuration pipeline sees them, with the
 * language's truthiness, property reads, template-string conversion and the
 * prototype-chain test that decides whether an object is "plain".
 */
module JsValue {
  import opened Wrappers
  import Decimal

  /** The prototype objects a chain can pass through. */
  datatype Proto = ObjectPrototype | ArrayPrototype | ClassPrototype(name: string)

  /** How an object that is not plain was made. */
  datatype ObjKind =
    | NullPrototype                                   // Object.create(null): its chain is empty
    | Instance(cls: string, ancestors: seq<string>)   // new cls(...): Date, RegExp, Map, user classes

  /**
   * Plain stands for every object whose immediate prototype ends its chain
   * (object literals and JSON objects); numbers are integers (no NaN, no fractions).
   */
  datatype Value =
    | Plain(fields: map<string, Value>)
    | Arr(elems: seq<Value>)
    | NonPlainObj(kind: ObjKind, own: map<string, Value>)
    | Str(s: string)
    | Num(n: int)
    | Bool(b: bool)
    | Null
    | Undef

  /** JavaScript truthiness: what `!v`, `v || w` and `if (v)` test. */
  predicate Truthy(v: Value) {
    match v
    case Plain(_) => true
    case Arr(_) => true
    case NonPlainObj(_, _) => true
    case Str(s) => s != ""
    case Num(n) => n != 0
    case Bool(b) => b
    case Null => false
    case Undef => false
  }

  predicate IsNullish(v: Value) { v.Null? || v.Undef? }

  /** `typeof v === 'object' && v !== null` */
  predicate IsObjectType(v: Value) { v.Plain? || v.Arr? || v.NonPlainObj? }

  /** `v || w` */
  function Or(v: Value, w: Value): Value {
    if Truthy(v) then v else w
  }

  /** The prototypes reached from an object by repeated Object.getPrototypeOf, up to the one whose prototype is null. */
  function PrototypeChain(v: Value): seq<Proto>
    requires IsObjectType(v)
  {
    match v
    case Plain(_) => [ObjectPrototype]
    case Arr(_) => [ArrayPrototype, ObjectPrototype]
    case NonPlainObj(NullPrototype, _) => []
    case NonPlainObj(Instance(cls, ancestors), _) =>
      [ClassPrototype(cls)] + seq(|ancestors|, i requires 0 <= i < |ancestors| => ClassPrototype(ancestors[i])) + [ObjectPrototype]
  }

  /**
   * isPlainObject (src/utils/object.ts:6-15): walks `proto` from the object to the
   * end of its chain and compares the object's own prototype with the last one.
   */
  method IsPlainObject(v: Value) returns (b: bool)
    ensures b <==> v.Plain?
  {
    if !IsObjectType(v) {
      return false;
    }
    var chain := PrototypeChain(v);
    // `proto`: None while it is still the object itself, else the prototype reached;
    // after pos steps Object.getPrototypeOf(proto) is chain[pos], or null once pos == |chain|
    var proto: Option<Proto> := None;
    var pos := 0;
    while pos < |chain|
      invariant 0 <= pos <= |chain|
      invariant proto == if pos == 0 then None else Some(chain[pos - 1])
    {
      proto := Some(chain[pos]);
      pos := pos + 1;
    }
    // Object.getPrototypeOf(obj) is chain[0], or null when the chain is empty
    b := |chain| > 0 && proto == Some(chain[0]);
  }

  /**
   * isObject (src/utils/object.ts:49-51): `value && typeof value === 'object' && !Array.isArray(value)`.
   * A falsy value is returned itself, everything else becomes a boolean.
   */
  function IsObject(v: Value): (r: Value)
    ensures !Truthy(v) ==> r == v
    ensures Truthy(v) ==> r.Bool?
    ensures Truthy(r) <==> v.Plain? || v.NonPlainObj?
  {
    if !Truthy(v) then v else Bool(IsObjectType(v) && !v.Arr?)
  }

  /** `v[key]` on a value that is not null or undefined (own data properties only). */
  function Property(v: Value, key: string): (r: Value)
    requires !IsNullish(v)
    ensures (v.Plain? && key in v.fields) ==> r == v.fields[key]
    ensures (v.Plain? && key !in v.fields) ==> r == Undef
    ensures (v.Num? || v.Bool?) ==> r == Undef
  {
    match v
    case Plain(f) => if key in f then f[key] else Undef
    case NonPlainObj(_, f) => if key in f then f[key] else Undef
    case Arr(e) =>
      if key == "length" then Num(|e|)
      else if Decimal.ParseIndex(key).Some? && Decimal.ParseIndex(key).value < |e| then e[Decimal.ParseIndex(key).value]
      else Undef
    case Str(s) =>
      if key == "length" then Num(|s|)
      else if Decimal.ParseIndex(key).Some? && Decimal.ParseIndex(key).value < |s| then Str([s[Decimal.ParseIndex(key).value]])
      else Undef
    case Num(_) => Undef
    case Bool(_) => Undef
  }

  /** `obj?.key`: undefined when obj is null or undefined. */
  function OptionalProperty(v: Value, key: string): (r: Value)
    ensures IsNullish(v) ==> r == Undef
    ensures !IsNullish(v) ==> r == Property(v, key)
  {
    if IsNullish(v) then Undef else Property(v, key)
  }

  /** The field of a record, undefined when it is absent. */
  function Field(m: map<string, Value>, key: string): Value {
    if key in m then m[key] else Undef
  }

  /** String(v), as `${v}` in a template literal writes it (objects use the default toString). */
  function TemplateText(v: Value): string {
    match v
    case Str(s) => s
    case Num(n) => Decimal.IntToString(n)
    case Bool(b) => if b then "true" else "false"
    case Null => "null"
    case Undef => "undefined"
    case Plain(_) => "[object Object]"
    case NonPlainObj(_, _) => "[object Object]"
    case Arr(e) => JoinElements(e)
  }

  /** Array.prototype.join(','): null and undefined elements become empty. */
  function JoinElements(e: seq<Value>): string
    decreases e
  {
    if e == [] then ""
    else
      var first := if IsNullish(e[0]) then "" else TemplateText(e[0]);
      if |e| == 1 then first else first + "," + JoinElements(e[1..])
  }
}
