/**
 * The pure meaning of the JSON writer: applying a schema to a value gives a
 * `Format` proxy (the schema's call operator), and emitting the proxy gives
 * the text the streamers append (the `operator<<` overloads).
 */
module Rendering {
  import opened Wrappers
  import opened HostTypes
  import opened Schemas

  /** Combinations that C++ rejects at compile time; `Render` reports them. */
  datatype RenderError =
    | NotConvertible   // the value cannot be bound to the schema's input type
    | NoFields         // an object schema without any field

  /**
   * The proxy a schema returns when applied to a value. A leaf holds the value
   * already converted to its native type; an array holds its element schema and
   * the unconverted elements; an object holds its fields and the value.
   */
  datatype Format =
    | BoolFormat(b: bool)
    | NumberFormat(x: real)
    | StringFormat(s: string)
    | ArrayFormat(schema: Schema, elems: seq<Value>)
    | ObjectFormat(owner: HostType, fields: seq<Field>, value: Value)

  /** The schema a proxy was produced by. */
  function SchemaOf(f: Format): Schema {
    match f
    case BoolFormat(_) => Boolean
    case NumberFormat(_) => Number
    case StringFormat(_) => String
    case ArrayFormat(e, _) => Array(e)
    case ObjectFormat(u, fs, _) => Object(u, fs)
  }

  /** `schema(value)`: bind the value, converting it where the schema is a leaf. */
  function Invoke(s: Schema, v: Value): (r: Result<Format, RenderError>)
    ensures r.Ok? ==> SchemaOf(r.value) == s
  {
    match s
    case Boolean => (match ToBool(v) case Some(b) => Ok(BoolFormat(b)) case None => Err(NotConvertible))
    case Number => (match ToDouble(v) case Some(x) => Ok(NumberFormat(x)) case None => Err(NotConvertible))
    case String => (match ToStdString(v) case Some(t) => Ok(StringFormat(t)) case None => Err(NotConvertible))
    case Array(e) => if v.VecV? then Ok(ArrayFormat(e, v.elems)) else Err(NotConvertible)
    case Object(u, fs) => Ok(ObjectFormat(u, fs, v))
  }

  /** Text of a boolean under `std::boolalpha`. */
  function BoolText(b: bool): string {
    if b then "true" else "false"
  }

  /** A string between double quotes, with nothing escaped. */
  function Quote(s: string): string {
    "\"" + s + "\""
  }

  /** One `"name":value` member of an object. */
  function Member(name: string, text: string): string {
    Quote(name) + ":" + text
  }

  /** `parts` separated by `sep`: the reference definition of the comma lists. */
  function Join(sep: string, parts: seq<string>): string {
    if |parts| == 0 then ""
    else if |parts| == 1 then parts[0]
    else parts[0] + sep + Join(sep, parts[1..])
  }

  /** `schema(value)` streamed: the whole text, or the reason it cannot be compiled. */
  function Render(num: real -> string, s: Schema, v: Value): Result<string, RenderError>
    decreases s, 2
  {
    match Invoke(s, v)
    case Err(x) => Err(x)
    case Ok(f) => Emit(num, f)
  }

  /** The text `operator<<` appends for a proxy; `num` is the host's `double` output. */
  function Emit(num: real -> string, f: Format): Result<string, RenderError>
    decreases SchemaOf(f), 1
  {
    match f
    case BoolFormat(b) => Ok(BoolText(b))
    case NumberFormat(x) => Ok(num(x))
    case StringFormat(s) => Ok(Quote(s))
    case ArrayFormat(e, es) =>
      (match RenderElems(num, e, es, |es|)
       case Err(x) => Err(x)
       case Ok(body) => Ok("[" + body + "]"))
    case ObjectFormat(u, fs, v) =>
      if |fs| == 0 then Err(NoFields)
      else
        match RenderFields(num, u, fs, v, |fs|)
        case Err(x) => Err(x)
        case Ok(body) => Ok("{" + body + "}")
  }

  /** The first `n` elements through `e`, with a comma before every element but the first. */
  function RenderElems(num: real -> string, e: Schema, es: seq<Value>, n: nat): Result<string, RenderError>
    requires n <= |es|
    decreases e, 3, n
  {
    if n == 0 then Ok("")
    else
      match RenderElems(num, e, es, n - 1)
      case Err(x) => Err(x)
      case Ok(prefix) =>
        match Render(num, e, es[n - 1])
        case Err(x) => Err(x)
        case Ok(text) => Ok(prefix + (if n == 1 then "" else ",") + text)
  }

  /** The first `n` fields applied to `v`, comma-separated, in declaration order. */
  function RenderFields(num: real -> string, u: HostType, fs: seq<Field>, v: Value, n: nat)
    : Result<string, RenderError>
    requires n <= |fs|
    decreases Object(u, fs), 0, n
  {
    if n == 0 then Ok("")
    else
      match RenderFields(num, u, fs, v, n - 1)
      case Err(x) => Err(x)
      case Ok(prefix) =>
        match Render(num, fs[n - 1].schema, fs[n - 1].get(v))
        case Err(x) => Err(x)
        case Ok(text) => Ok(prefix + (if n == 1 then "" else ",") + Member(fs[n - 1].name, text))
  }
}
