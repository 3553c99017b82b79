/** The loosely typed values the chat component receives: whatever `JSON.parse`
    makes of the backend's history records and stream events, plus `undefined`,
    which is what reading an absent property yields. It also defines the few
    JavaScript coercions the component applies to them: truthiness, `??`,
    `String(v)` and `JSON.stringify(v, null, 2)`. */
module JsValue {
  import opened JsText

  datatype Option<T> = None | Some(value: T)

  /** A JavaScript value. Numbers are integers. The properties of an object are
      listed in JavaScript's enumeration order, each name at most once, as
      `JSON.parse` builds them. */
  datatype Value =
    | Undefined
    | Null
    | Bool(b: bool)
    | Num(n: int)
    | Str(s: string)
    | Arr(elems: seq<Value>)
    | Obj(props: seq<Prop>)

  datatype Prop = Prop(name: string, value: Value)

  /** `v == null`, true of `null` and `undefined`. */
  predicate Nullish(v: Value) {
    v.Undefined? || v.Null?
  }

  /** `a ?? b` */
  function Coalesce(a: Value, b: Value): Value {
    if Nullish(a) then b else a
  }

  /** The property read `v.name`, and `v?.name`. None of the names the component
      reads is a property of strings, numbers, booleans or arrays, so those give
      `undefined`; reading a property of `null` or `undefined` with a plain `.`
      throws, and the callers model that where it can happen. */
  function Get(v: Value, name: string): Value {
    if v.Obj? then Lookup(v.props, name) else Undefined
  }

  /** The value of the property `name`. Names are unique, so the first match
      is the only one; `JSON.parse` keeps the last of repeated names in a
      text, and `parse` is taken to return objects whose names are unique. */
  function Lookup(ps: seq<Prop>, name: string): Value {
    if ps == [] then Undefined
    else if ps[0].name == name then ps[0].value
    else Lookup(ps[1..], name)
  }

  /** JavaScript truthiness. */
  predicate Truthy(v: Value) {
    match v
    case Undefined => false
    case Null => false
    case Bool(b) => b
    case Num(n) => n != 0
    case Str(s) => s != ""
    case Arr(_) => true
    case Obj(_) => true
  }

  function DigitChar(d: nat): char
    requires d < 10
  {
    "0123456789"[d]
  }

  function NatDecimal(n: nat): string
    decreases n
  {
    if n < 10 then [DigitChar(n)] else NatDecimal(n / 10) + [DigitChar(n % 10)]
  }

  /** The decimal text JavaScript gives an integer. */
  function Decimal(n: int): string {
    if n < 0 then "-" + NatDecimal(-n) else NatDecimal(n)
  }

  /** `String(v)`, and what a template literal `${v}` inserts. */
  function ToJsString(v: Value): string
    decreases v, 1
  {
    match v
    case Undefined => "undefined"
    case Null => "null"
    case Bool(b) => if b then "true" else "false"
    case Num(n) => Decimal(n)
    case Str(s) => s
    case Arr(xs) => Join(ElemStrings(xs), ",")
    case Obj(_) => "[object Object]"
  }

  /** What `Array.prototype.join` makes of each element: `null` and `undefined`
      become the empty string. */
  function ElemStrings(xs: seq<Value>): (r: seq<string>)
    ensures |r| == |xs|
    decreases xs, 0
  {
    if xs == [] then []
    else [if Nullish(xs[0]) then "" else ToJsString(xs[0])] + ElemStrings(xs[1..])
  }

  function HexDigit(d: nat): char
    requires d < 16
  {
    "0123456789abcdef"[d]
  }

  /** How `JSON.stringify` writes one character inside a string literal. */
  function EscapeChar(c: char): string {
    if c == '"' then "\\\""
    else if c == '\\' then "\\\\"
    else if c == '\U{8}' then "\\b"
    else if c == '\t' then "\\t"
    else if c == '\n' then "\\n"
    else if c == '\U{C}' then "\\f"
    else if c == '\r' then "\\r"
    else if (c as int) < 0x20 then "\\u00" + [HexDigit(c as int / 16), HexDigit(c as int % 16)]
    else [c]
  }

  function Escape(s: string): string {
    if s == [] then "" else EscapeChar(s[0]) + Escape(s[1..])
  }

  /** A JSON string literal. */
  function Quote(s: string): string {
    "\"" + Escape(s) + "\""
  }

  /** `JSON.stringify(v, null, 2)` for a value that is not `undefined`. */
  function Stringify(v: Value): string
    requires !v.Undefined?
  {
    Serialize(v, "")
  }

  /** The serialization of `v` when the enclosing lines are indented by `ind`.
      An `undefined` array element is written `null`, as `JSON.stringify` does. */
  function Serialize(v: Value, ind: string): string
    decreases v, 1
  {
    match v
    case Undefined => "null"
    case Null => "null"
    case Bool(b) => if b then "true" else "false"
    case Num(n) => Decimal(n)
    case Str(s) => Quote(s)
    case Arr(xs) =>
      if xs == [] then "[]"
      else "[\n" + ind + "  " + Join(SerializeElems(xs, ind + "  "), ",\n" + ind + "  ") + "\n" + ind + "]"
    case Obj(ps) =>
      var members := SerializeProps(ps, ind + "  ");
      if members == [] then "{}"
      else "{\n" + ind + "  " + Join(members, ",\n" + ind + "  ") + "\n" + ind + "}"
  }

  function SerializeElems(xs: seq<Value>, ind: string): (r: seq<string>)
    ensures |r| == |xs|
    decreases xs, 0
  {
    if xs == [] then [] else [Serialize(xs[0], ind)] + SerializeElems(xs[1..], ind)
  }

  /** The members of an object; a property whose value is `undefined` is left out. */
  function SerializeProps(ps: seq<Prop>, ind: string): (r: seq<string>)
    ensures |r| <= |ps|
    decreases ps, 0
  {
    if ps == [] then []
    else if ps[0].value.Undefined? then SerializeProps(ps[1..], ind)
    else [Quote(ps[0].name) + ": " + Serialize(ps[0].value, ind)] + SerializeProps(ps[1..], ind)
  }

  /** `pretty(v)`: a string as it is, anything else as indented JSON, with
      `null` and `undefined` first replaced by the empty string. */
  function Pretty(v: Value): (r: string)
    ensures v.Str? ==> r == v.s
    ensures Nullish(v) ==> r == "\"\""
  {
    if v.Str? then v.s else Stringify(Coalesce(v, Str("")))
  }
}
