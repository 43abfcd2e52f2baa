/**
 * The `operator<<` overloads of the writer, `Field::write` and `FieldWriter`,
 * as methods appending to a `Stream`, each proved to append exactly the text
 * `Rendering` gives and to leave the format flags as they were.
 */
module Streamers {
  import opened Wrappers
  import opened HostTypes
  import opened Schemas
  import opened Rendering
  import opened RenderProperties
  import opened Streams

  /** Boolean: switch `boolalpha` on, insert, then restore the saved flags. */
  method WriteBoolean(strm: Stream, b: bool)
    modifies strm
    ensures strm.text == old(strm.text) + BoolText(b)
    ensures strm.flags == old(strm.flags)
  {
    var previous := strm.SetF(BoolAlpha);
    strm.PutBool(b);
    strm.SetFlags(previous);
  }

  /** Number: the host's insertion of a `double`. */
  method WriteNumber(strm: Stream, num: real -> string, x: real)
    modifies strm
    ensures strm.text == old(strm.text) + num(x)
    ensures strm.flags == old(strm.flags)
  {
    strm.PutDouble(num, x);
  }

  /** String: a quote, the characters unchanged, a quote. */
  method WriteString(strm: Stream, s: string)
    modifies strm
    ensures strm.text == old(strm.text) + Quote(s)
    ensures strm.flags == old(strm.flags)
  {
    strm.Put("\"");
    strm.Put(s);
    strm.Put("\"");
  }

  /** `strm << schema(value)`. */
  method WriteValue(strm: Stream, num: real -> string, s: Schema, v: Value)
    requires Render(num, s, v).Ok?
    modifies strm
    ensures strm.text == old(strm.text) + Render(num, s, v).value
    ensures strm.flags == old(strm.flags)
    decreases s, 2
  {
    var f := Invoke(s, v).value;
    Write(strm, num, f);
  }

  /** `strm << proxy`, dispatched on the schema the proxy came from. */
  method Write(strm: Stream, num: real -> string, f: Format)
    requires Emit(num, f).Ok?
    modifies strm
    ensures strm.text == old(strm.text) + Emit(num, f).value
    ensures strm.flags == old(strm.flags)
    decreases SchemaOf(f), 1
  {
    match f
    case BoolFormat(b) => WriteBoolean(strm, b);
    case NumberFormat(x) => WriteNumber(strm, num, x);
    case StringFormat(s) => WriteString(strm, s);
    case ArrayFormat(e, es) => WriteArray(strm, num, e, es);
    case ObjectFormat(u, fs, v) => WriteObject(strm, num, u, fs, v);
  }

  /** One pass of the array writer's loop: `,` unless `i` is the first index, then element `i`. */
  method WriteElement(strm: Stream, num: real -> string, e: Schema, es: seq<Value>, i: nat)
    requires i < |es| && Render(num, e, es[i]).Ok?
    modifies strm
    ensures strm.text == old(strm.text) + (if i == 0 then "" else ",") + Render(num, e, es[i]).value
    ensures strm.flags == old(strm.flags)
    decreases e, 4
  {
    if i > 0 {
      strm.Put(",");
    }
    WriteValue(strm, num, e, es[i]);
  }

  /** Array: `[`, each element through `e` with `,` before all but the first, `]`. */
  method WriteArray(strm: Stream, num: real -> string, e: Schema, es: seq<Value>)
    requires RenderElems(num, e, es, |es|).Ok?
    modifies strm
    ensures strm.text == old(strm.text) + "[" + RenderElems(num, e, es, |es|).value + "]"
    ensures strm.flags == old(strm.flags)
    decreases e, 5
  {
    strm.Put("[");
    ghost var done := "";
    for i := 0 to |es|
      invariant RenderElems(num, e, es, i) == Ok(done)
      invariant strm.text == old(strm.text) + "[" + done
      invariant strm.flags == old(strm.flags)
    {
      ElemsPrefixOk(num, e, es, |es|, i + 1);
      ElemsStep(num, e, es, i);
      ghost var sep, elem := if i == 0 then "" else ",", Render(num, e, es[i]).value;
      WriteElement(strm, num, e, es, i);
      AppendAssoc(old(strm.text) + "[", done + sep, elem);
      AppendAssoc(old(strm.text) + "[", done, sep);
      done := done + sep + elem;
    }
    strm.Put("]");
  }

  /** `Field::write`: the quoted name, `:`, then the accessor's result through the field's schema. */
  method WriteField(strm: Stream, num: real -> string, f: Field, v: Value)
    requires Render(num, f.schema, f.get(v)).Ok?
    modifies strm
    ensures strm.text == old(strm.text) + Member(f.name, Render(num, f.schema, f.get(v)).value)
    ensures strm.flags == old(strm.flags)
    decreases f.schema, 3
  {
    WriteString(strm, f.name);
    strm.Put(":");
    WriteValue(strm, num, f.schema, f.get(v));
  }

  /** The step `FieldWriter` takes for every field after the first: `,` and the field. */
  method WriteSeparatedField(strm: Stream, num: real -> string, f: Field, v: Value)
    requires Render(num, f.schema, f.get(v)).Ok?
    modifies strm
    ensures strm.text == old(strm.text) + "," + Member(f.name, Render(num, f.schema, f.get(v)).value)
    ensures strm.flags == old(strm.flags)
    decreases f.schema, 4
  {
    strm.Put(",");
    WriteField(strm, num, f, v);
  }

  /** `FieldWriter`: the first field, then `,` and each further field in order. */
  method WriteFields(strm: Stream, num: real -> string, u: HostType, fs: seq<Field>, v: Value)
    requires |fs| > 0 && RenderFields(num, u, fs, v, |fs|).Ok?
    modifies strm
    ensures strm.text == old(strm.text) + RenderFields(num, u, fs, v, |fs|).value
    ensures strm.flags == old(strm.flags)
    decreases Object(u, fs), 0, 0
  {
    FieldsPrefixOk(num, u, fs, v, |fs|, 1);
    FieldsStep(num, u, fs, v, 0);
    assert RenderFields(num, u, fs, v, 0) == Ok("");
    WriteField(strm, num, fs[0], v);
    ghost var done := Member(fs[0].name, Render(num, fs[0].schema, fs[0].get(v)).value);
    assert RenderFields(num, u, fs, v, 1).value == "" + "" + done;
    assert "" + "" + done == done;
    for k := 1 to |fs|
      invariant RenderFields(num, u, fs, v, k) == Ok(done)
      invariant strm.text == old(strm.text) + done
      invariant strm.flags == old(strm.flags)
    {
      FieldsPrefixOk(num, u, fs, v, |fs|, k + 1);
      FieldsStep(num, u, fs, v, k);
      ghost var member := Member(fs[k].name, Render(num, fs[k].schema, fs[k].get(v)).value);
      WriteSeparatedField(strm, num, fs[k], v);
      AppendAssoc(old(strm.text), done + ",", member);
      AppendAssoc(old(strm.text), done, ",");
      done := done + "," + member;
    }
  }

  /** Object: `{`, the fields, `}`. */
  method WriteObject(strm: Stream, num: real -> string, u: HostType, fs: seq<Field>, v: Value)
    requires |fs| > 0 && RenderFields(num, u, fs, v, |fs|).Ok?
    modifies strm
    ensures strm.text == old(strm.text) + "{" + RenderFields(num, u, fs, v, |fs|).value + "}"
    ensures strm.flags == old(strm.flags)
    decreases Object(u, fs), 0, 1
  {
    strm.Put("{");
    WriteFields(strm, num, u, fs, v);
    strm.Put("}");
  }

  /** Writing `schema(value)` into a fresh stream yields exactly the rendered text. */
  method Stringify(num: real -> string, s: Schema, v: Value) returns (out: string)
    requires Render(num, s, v).Ok?
    ensures out == Render(num, s, v).value
  {
    var strm := new Stream();
    WriteValue(strm, num, s, v);
    out := strm.text;
  }
}
