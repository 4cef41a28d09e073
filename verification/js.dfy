/** JavaScript values as the mail listener sees them: the fields of its
    options object and the arguments its IMAP callbacks receive. Only the
    parts of the language semantics the listener relies on are modelled:
    truthiness (`if (x)`, `x || y`, `!!x`), reading and strict-mode writing
    of named properties, and the text a template literal `${x}` produces. */
module Js {

  /** Numbers are integers here; `NaN` is its own case. Arrays and objects
      both carry named properties (an array may be given one, as the
      listener does to `attachmentOptions`). */
  datatype JsValue =
    | Undefined
    | Null
    | Bool(b: bool)
    | Num(n: int)
    | NaN
    | Str(s: string)
    | Arr(items: seq<JsValue>, props: map<string, JsValue>)
    | Obj(props: map<string, JsValue>)

  /** The exceptions the modelled code can throw. */
  datatype JsError =
    | TypeError(property: string)
    | ReferenceError(name: string)

  datatype Option<T> = None | Some(value: T)

  /** The outcome of code that may throw. */
  datatype Result<T> = Ok(value: T) | Thrown(error: JsError)

  const EmptyObject: JsValue := Obj(map[])

  /** JavaScript's ToBoolean: `undefined`, `null`, `false`, `0`, `NaN` and
      the empty string are falsy; every array and object is truthy. */
  predicate Truthy(v: JsValue) {
    match v
    case Undefined => false
    case Null => false
    case Bool(b) => b
    case Num(n) => n != 0
    case NaN => false
    case Str(s) => s != ""
    case Arr(_, _) => true
    case Obj(_) => true
  }

  /** `a || b` */
  function Or(a: JsValue, b: JsValue): JsValue {
    if Truthy(a) then a else b
  }

  predicate IsObject(v: JsValue) {
    v.Arr? || v.Obj?
  }

  /** `v[key]` for a key that is not a built-in property name. Reading
      such a key of a primitive yields `undefined`; reading from `null` or
      `undefined` would throw, but the listener only reads from truthy
      values. */
  function Prop(v: JsValue, key: string): JsValue {
    if IsObject(v) && key in v.props then v.props[key] else Undefined
  }

  /** Strict-mode `v[key] = x`. An array or object gains (or overwrites)
      the property and keeps everything else; any primitive throws a
      TypeError, because class bodies are strict code. */
  function SetProp(v: JsValue, key: string, x: JsValue): (r: Result<JsValue>)
    ensures r.Ok? <==> IsObject(v)
    ensures r.Ok? ==> Prop(r.value, key) == x
    ensures r.Ok? ==> forall k :: k != key ==> Prop(r.value, k) == Prop(v, k)
    ensures r.Ok? ==> r.value.Arr? == v.Arr? && (v.Arr? ==> r.value.items == v.items)
  {
    match v
    case Arr(items, props) => Ok(Arr(items, props[key := x]))
    case Obj(props) => Ok(Obj(props[key := x]))
    case _ => Thrown(TypeError(key))
  }

  /** Writing back the value a property already holds changes nothing. */
  lemma SetPropSameValue(v: JsValue, key: string)
    requires IsObject(v) && key in v.props
    ensures SetProp(v, key, Prop(v, key)) == Ok(v)
  {
    assert v.props[key := v.props[key]] == v.props;
  }

  function DigitChar(d: nat): char
    requires d < 10
  {
    "0123456789"[d]
  }

  /** Decimal text of a natural number, without leading zeros. */
  function NatText(n: nat): (r: string)
    ensures |r| >= 1
    ensures n < 10 <==> |r| == 1
    ensures forall i :: 0 <= i < |r| ==> '0' <= r[i] <= '9'
  {
    if n < 10 then [DigitChar(n)] else NatText(n / 10) + [DigitChar(n % 10)]
  }

  /** Number-to-string for integral values (below 10^21 in magnitude; see
      the README). `-0` is `0` here, and prints as "0" in JavaScript too. */
  function IntText(n: int): string {
    if n < 0 then "-" + NatText(-n) else NatText(n)
  }

  /** The text `${v}` inserts into a template literal (ToString). Arrays
      print as `join(",")`, where `null` and `undefined` elements print as
      the empty string; plain objects print as "[object Object]". */
  function TemplateText(v: JsValue): string
    decreases v, 1, 0
  {
    match v
    case Undefined => "undefined"
    case Null => "null"
    case Bool(b) => if b then "true" else "false"
    case Num(n) => IntText(n)
    case NaN => "NaN"
    case Str(s) => s
    case Arr(items, _) => JoinText(v, items)
    case Obj(_) => "[object Object]"
  }

  /** `join(",")` over a suffix `rest` of the items of array `owner`. */
  function JoinText(owner: JsValue, rest: seq<JsValue>): string
    requires owner.Arr? && |rest| <= |owner.items|
    requires rest == owner.items[|owner.items| - |rest|..]
    decreases owner, 0, |rest|
  {
    if |rest| == 0 then ""
    else
      assert rest[0] == owner.items[|owner.items| - |rest|];
      var head := if rest[0].Undefined? || rest[0].Null? then "" else TemplateText(rest[0]);
      if |rest| == 1 then head
      else
        assert rest[1..] == owner.items[|owner.items| - |rest[1..]|..];
        head + "," + JoinText(owner, rest[1..])
  }
}
