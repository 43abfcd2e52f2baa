/**
 * The concrete outputs the repository's tests expect, stated for the model:
 * leaves, arrays of each leaf, nested arrays, and the two objects over
 * `Resource` and `Framework`, plus a schema for a base class applied to a
 * derived object.
 */
module Examples {
  import opened Wrappers
  import opened HostTypes
  import opened Schemas
  import opened Rendering
  import opened RenderProperties

  /** A typed data member: the string at position `i` of an object, or "" if there is none. */
  function StringMember(i: nat): Value -> Value {
    (v: Value) => if v.RecV? && i < |v.data| && v.data[i].StrV? then v.data[i] else StrV("")
  }

  /** The bool at position `i`, or false. */
  function BoolMember(i: nat): Value -> Value {
    (v: Value) => if v.RecV? && i < |v.data| && v.data[i].BoolV? then v.data[i] else BoolV(false)
  }

  /** The vector of `t` at position `i`, or the empty vector. */
  function VectorMember(i: nat, t: HostType): Value -> Value {
    (v: Value) => if v.RecV? && i < |v.data| && HasType(v.data[i], Vector(t)) then v.data[i] else VecV([])
  }

  function Text(v: Value): string {
    if v.StrV? then v.s else ""
  }

  const ResourceClass := Class("Resource", [])
  const FrameworkClass := Class("Framework", [])

  function ResourceValue(name: string, role: string): Value {
    RecV(ResourceClass, [StrV(name), StrV(role)])
  }

  /** `Framework{"framework", "summary", true, {{"cpus", "ads"}, {"mem", "ads"}}}`. */
  const FrameworkValue := RecV(FrameworkClass, [StrV("framework"), StrV("summary"), BoolV(true),
                                                 VecV([ResourceValue("cpus", "ads"), ResourceValue("mem", "ads")])])

  const ResourceSchema := Object(Record(ResourceClass), [
    Field("name", Record(ResourceClass), StdString, StringMember(0), String),
    Field("role", Record(ResourceClass), StdString, StringMember(1), String)
  ])

  /** The `id-name` field's callable: `f.id + "-" + f.name`. */
  function IdName(v: Value): Value {
    StrV(Text(StringMember(0)(v)) + "-" + Text(StringMember(1)(v)))
  }

  const FrameworkSchema := Object(Record(FrameworkClass), [
    Field("id", Record(FrameworkClass), StdString, StringMember(0), String),
    Field("name", Record(FrameworkClass), StdString, StringMember(1), String),
    Field("checkpoint", Record(FrameworkClass), Bool, BoolMember(2), Boolean),
    Field("id-name", Record(FrameworkClass), StdString, IdName, String),
    Field("resources", Record(FrameworkClass), Vector(Record(ResourceClass)),
          VectorMember(3, Record(ResourceClass)), Array(ResourceSchema))
  ])

  lemma Join2(a: string, b: string)
    ensures Join(",", [a, b]) == a + "," + b
  {
    assert [a, b][1..] == [b];
  }

  lemma Join3(a: string, b: string, c: string)
    ensures Join(",", [a, b, c]) == a + "," + b + "," + c
  {
    assert [a, b, c][1..] == [b, c];
    Join2(b, c);
  }

  lemma Regroup2(a: string, b: string)
    ensures "[" + (a + "," + b) + "]" == "[" + a + "," + b + "]"
  {
  }

  lemma Regroup3(a: string, b: string, c: string)
    ensures "[" + (a + "," + b + "," + c) + "]" == "[" + a + "," + b + "," + c + "]"
  {
  }

  /** Two-element arrays: the brackets around the two element texts. */
  lemma Array2(num: real -> string, e: Schema, x: Value, y: Value, a: string, b: string)
    requires Render(num, e, x) == Ok(a) && Render(num, e, y) == Ok(b)
    ensures Render(num, Array(e), VecV([x, y])) == Ok("[" + a + "," + b + "]")
  {
    ArrayOutput(num, e, [x, y], [a, b]);
    Join2(a, b);
    Regroup2(a, b);
  }

  /** Three-element arrays. */
  lemma Array3(num: real -> string, e: Schema, x: Value, y: Value, z: Value, a: string, b: string, c: string)
    requires Render(num, e, x) == Ok(a) && Render(num, e, y) == Ok(b) && Render(num, e, z) == Ok(c)
    ensures Render(num, Array(e), VecV([x, y, z])) == Ok("[" + a + "," + b + "," + c + "]")
  {
    ArrayOutput(num, e, [x, y, z], [a, b, c]);
    Join3(a, b, c);
    Regroup3(a, b, c);
  }

  lemma BooleanExamples(num: real -> string)
    ensures Render(num, Boolean, BoolV(true)) == Ok("true")
    ensures Render(num, Boolean, BoolV(false)) == Ok("false")
  {
    LeafOutputs(num, true, 0, 0.0, "");
    LeafOutputs(num, false, 0, 0.0, "");
  }

  /** `number(42)` and `number(4.2)`: the text is whatever the stream's double formatting gives. */
  lemma NumberExamples(num: real -> string)
    ensures Render(num, Number, IntV(42)) == Ok(num(42.0))
    ensures Render(num, Number, DoubleV(4.2)) == Ok(num(4.2))
  {
    LeafOutputs(num, true, 42, 4.2, "");
  }

  lemma StringExamples(num: real -> string)
    ensures Render(num, String, CStrV("hello")) == Ok("\"hello\"")
    ensures Render(num, String, StrV("world")) == Ok("\"world\"")
  {
    LeafOutputs(num, true, 0, 0.0, "hello");
    LeafOutputs(num, true, 0, 0.0, "world");
    assert Quote("hello") == "\"hello\"";
    assert Quote("world") == "\"world\"";
  }

  lemma ArrayOfBooleanExample(num: real -> string)
    ensures Render(num, Array(Boolean), VecV([BoolV(true), BoolV(true), BoolV(false)])) == Ok("[true,true,false]")
  {
    BooleanExamples(num);
    Array3(num, Boolean, BoolV(true), BoolV(true), BoolV(false), "true", "true", "false");
    assert "[" + "true" + "," + "true" + "," + "false" + "]" == "[true,true,false]";
  }

  /**
   * `std::vector<double>{1.1, 2.2}` and `std::vector<int>{101, 202}` through `array(number)`:
   * each element is converted to double before it is written.
   */
  lemma ArrayOfNumbersExample(num: real -> string)
    ensures Convertible(Vector(Double), Array(Number)) && Convertible(Vector(Int), Array(Number))
    ensures Render(num, Array(Number), VecV([DoubleV(1.1), DoubleV(2.2)])) == Ok("[" + num(1.1) + "," + num(2.2) + "]")
    ensures Render(num, Array(Number), VecV([IntV(101), IntV(202)])) == Ok("[" + num(101.0) + "," + num(202.0) + "]")
  {
    LeafOutputs(num, true, 101, 1.1, "");
    LeafOutputs(num, true, 202, 2.2, "");
    Array2(num, Number, DoubleV(1.1), DoubleV(2.2), num(1.1), num(2.2));
    Array2(num, Number, IntV(101), IntV(202), num(101.0), num(202.0));
  }

  lemma QuotedHelloWorld()
    ensures "[" + Quote("hello") + "," + Quote("world") + "]" == "[\"hello\",\"world\"]"
  {
  }

  /** `std::vector<std::string>` and `std::vector<const char *>` give the same text. */
  lemma ArrayOfStringExample(num: real -> string)
    ensures Render(num, Array(String), VecV([StrV("hello"), StrV("world")])) == Ok("[\"hello\",\"world\"]")
    ensures Render(num, Array(String), VecV([CStrV("hello"), CStrV("world")])) == Ok("[\"hello\",\"world\"]")
  {
    LeafOutputs(num, true, 0, 0.0, "hello");
    LeafOutputs(num, true, 0, 0.0, "world");
    Array2(num, String, StrV("hello"), StrV("world"), Quote("hello"), Quote("world"));
    Array2(num, String, CStrV("hello"), CStrV("world"), Quote("hello"), Quote("world"));
    QuotedHelloWorld();
  }

  lemma NestedBooleanTexts()
    ensures "[" + "true" + "," + "true" + "]" == "[true,true]"
    ensures "[" + "false" + "," + "true" + "," + "false" + "]" == "[false,true,false]"
    ensures "[" + Join(",", ["false"]) + "]" == "[false]"
  {
  }

  lemma NestedBooleanText()
    ensures "[" + "[true,true]" + "," + "[false,true,false]" + "," + "[false]" + "]" == "[[true,true],[false,true,false],[false]]"
  {
    assert "[" + "[true,true]" + "," == "[[true,true],";
    assert "[[true,true]," + "[false,true,false]" + "," == "[[true,true],[false,true,false],";
  }

  lemma ArrayOfArrayOfBooleansExample(num: real -> string)
    ensures Render(num, Array(Array(Boolean)),
                   VecV([VecV([BoolV(true), BoolV(true)]), VecV([BoolV(false), BoolV(true), BoolV(false)]), VecV([BoolV(false)])]))
            == Ok("[[true,true],[false,true,false],[false]]")
  {
    BooleanExamples(num);
    Array2(num, Boolean, BoolV(true), BoolV(true), "true", "true");
    Array3(num, Boolean, BoolV(false), BoolV(true), BoolV(false), "false", "true", "false");
    ArrayOutput(num, Boolean, [BoolV(false)], ["false"]);
    NestedBooleanTexts();
    Array3(num, Array(Boolean), VecV([BoolV(true), BoolV(true)]), VecV([BoolV(false), BoolV(true), BoolV(false)]), VecV([BoolV(false)]),
           "[true,true]", "[false,true,false]", "[false]");
    NestedBooleanText();
  }

  /** `array(array(number))` over vectors of doubles and of `size_t`s. */
  lemma ArrayOfArrayOfNumbersExample(num: real -> string)
    ensures Render(num, Array(Array(Number)), VecV([VecV([DoubleV(1.1), DoubleV(2.2)]), VecV([DoubleV(3.3), DoubleV(4.4)])]))
            == Ok("[" + ("[" + num(1.1) + "," + num(2.2) + "]") + "," + ("[" + num(3.3) + "," + num(4.4) + "]") + "]")
    ensures Render(num, Array(Array(Number)), VecV([VecV([IntV(101), IntV(202)]), VecV([IntV(303), IntV(404), IntV(505)])]))
            == Ok("[" + ("[" + num(101.0) + "," + num(202.0) + "]") + ","
                  + ("[" + num(303.0) + "," + num(404.0) + "," + num(505.0) + "]") + "]")
  {
    LeafOutputs(num, true, 101, 1.1, "");
    LeafOutputs(num, true, 202, 2.2, "");
    LeafOutputs(num, true, 303, 3.3, "");
    LeafOutputs(num, true, 404, 4.4, "");
    LeafOutputs(num, true, 505, 0.0, "");
    var a := "[" + num(1.1) + "," + num(2.2) + "]";
    var b := "[" + num(3.3) + "," + num(4.4) + "]";
    Array2(num, Number, DoubleV(1.1), DoubleV(2.2), num(1.1), num(2.2));
    Array2(num, Number, DoubleV(3.3), DoubleV(4.4), num(3.3), num(4.4));
    Array2(num, Array(Number), VecV([DoubleV(1.1), DoubleV(2.2)]), VecV([DoubleV(3.3), DoubleV(4.4)]), a, b);
    var c := "[" + num(101.0) + "," + num(202.0) + "]";
    var d := "[" + num(303.0) + "," + num(404.0) + "," + num(505.0) + "]";
    Array2(num, Number, IntV(101), IntV(202), num(101.0), num(202.0));
    Array3(num, Number, IntV(303), IntV(404), IntV(505), num(303.0), num(404.0), num(505.0));
    Array2(num, Array(Number), VecV([IntV(101), IntV(202)]), VecV([IntV(303), IntV(404), IntV(505)]), c, d);
  }

  lemma NestedStringTexts()
    ensures "[" + Quote("x") + "," + Quote("y") + "]" == "[\"x\",\"y\"]"
    ensures "[" + Quote("a") + "," + Quote("b") + "," + Quote("c") + "]" == "[\"a\",\"b\",\"c\"]"
  {
  }

  lemma NestedStringText()
    ensures "[" + "[\"x\",\"y\"]" + "," + "[\"a\",\"b\",\"c\"]" + "]" == "[[\"x\",\"y\"],[\"a\",\"b\",\"c\"]]"
  {
    assert "[" + "[\"x\",\"y\"]" + "," == "[[\"x\",\"y\"],";
  }

  /** `array(array(string))` over vectors of `std::string` and of `const char *`: the same text. */
  lemma ArrayOfArrayOfStringsExample(num: real -> string)
    ensures Render(num, Array(Array(String)), VecV([VecV([StrV("x"), StrV("y")]), VecV([StrV("a"), StrV("b"), StrV("c")])]))
            == Ok("[[\"x\",\"y\"],[\"a\",\"b\",\"c\"]]")
    ensures Render(num, Array(Array(String)), VecV([VecV([CStrV("x"), CStrV("y")]), VecV([CStrV("a"), CStrV("b"), CStrV("c")])]))
            == Ok("[[\"x\",\"y\"],[\"a\",\"b\",\"c\"]]")
  {
    LeafOutputs(num, true, 0, 0.0, "x");
    LeafOutputs(num, true, 0, 0.0, "y");
    LeafOutputs(num, true, 0, 0.0, "a");
    LeafOutputs(num, true, 0, 0.0, "b");
    LeafOutputs(num, true, 0, 0.0, "c");
    NestedStringTexts();
    NestedStringText();
    Array2(num, String, StrV("x"), StrV("y"), Quote("x"), Quote("y"));
    Array3(num, String, StrV("a"), StrV("b"), StrV("c"), Quote("a"), Quote("b"), Quote("c"));
    Array2(num, Array(String), VecV([StrV("x"), StrV("y")]), VecV([StrV("a"), StrV("b"), StrV("c")]),
           "[\"x\",\"y\"]", "[\"a\",\"b\",\"c\"]");
    Array2(num, String, CStrV("x"), CStrV("y"), Quote("x"), Quote("y"));
    Array3(num, String, CStrV("a"), CStrV("b"), CStrV("c"), Quote("a"), Quote("b"), Quote("c"));
    Array2(num, Array(String), VecV([CStrV("x"), CStrV("y")]), VecV([CStrV("a"), CStrV("b"), CStrV("c")]),
           "[\"x\",\"y\"]", "[\"a\",\"b\",\"c\"]");
  }

  /** `std::vector<std::vector<std::size_t>>` converts to `array(array(number))`, other shapes do not. */
  lemma NestedSizeTConvertible()
    ensures Convertible(Vector(Vector(SizeT)), Array(Array(Number)))
    ensures !Convertible(Vector(Vector(StdString)), Array(Array(Number)))
    ensures !Convertible(Vector(SizeT), Array(Array(Number)))
  {
    NestedConvertible(2, SizeT, Number);
  }

  /** A nested vector of strings through `array(array(number))` is rejected. */
  lemma NestedStringsRejected(num: real -> string)
    ensures Render(num, Array(Array(Number)), VecV([VecV([StrV("x")])])) == Err(NotConvertible)
  {
    RenderRejectsNonConvertible(num, Array(Array(Number)), Vector(Vector(StdString)), VecV([VecV([StrV("x")])]));
  }

  lemma Join5(a: string, b: string, c: string, d: string, e: string)
    ensures Join(",", [a, b, c, d, e]) == a + "," + b + "," + c + "," + d + "," + e
  {
    assert [a, b, c, d, e][1..] == [b, c, d, e];
    assert [b, c, d, e][1..] == [c, d, e];
    Join3(c, d, e);
  }

  lemma Brace2(a: string, b: string)
    ensures "{" + (a + "," + b) + "}" == "{" + a + "," + b + "}"
  {
  }

  lemma Brace5(a: string, b: string, c: string, d: string, e: string)
    ensures "{" + (a + "," + b + "," + c + "," + d + "," + e) + "}" == "{" + a + "," + b + "," + c + "," + d + "," + e + "}"
  {
  }

  /** Two-field objects: the braces around the two members. */
  lemma Object2(num: real -> string, u: HostType, f: Field, g: Field, v: Value, a: string, b: string)
    requires Render(num, f.schema, f.get(v)) == Ok(a) && Render(num, g.schema, g.get(v)) == Ok(b)
    ensures Render(num, Object(u, [f, g]), v) == Ok("{" + Member(f.name, a) + "," + Member(g.name, b) + "}")
  {
    ObjectOutput(num, u, [f, g], v, [a, b]);
    var members := seq(2, k requires 0 <= k < 2 => "\"" + [f, g][k].name + "\":" + [a, b][k]);
    assert members[0] == Member(f.name, a);
    assert members[1] == Member(g.name, b);
    assert members == [Member(f.name, a), Member(g.name, b)];
    Join2(Member(f.name, a), Member(g.name, b));
    Brace2(Member(f.name, a), Member(g.name, b));
  }

  lemma SummaryMembers()
    ensures Member("ID", Quote("framework")) == "\"ID\":\"framework\""
    ensures Member("Name", Quote("summary")) == "\"Name\":\"summary\""
  {
  }

  lemma SummaryText()
    ensures "{" + "\"ID\":\"framework\"" + "," + "\"Name\":\"summary\"" + "}" == "{\"ID\":\"framework\",\"Name\":\"summary\"}"
  {
    assert "{" + "\"ID\":\"framework\"" + "," == "{\"ID\":\"framework\",";
  }

  /** `object<Framework>(field("ID", ...), field("Name", ...))`: only the declared fields, in declared order. */
  lemma SummaryObjectExample(num: real -> string)
    ensures Render(num, Object(Record(FrameworkClass), [FrameworkSchema.fields[0].(name := "ID"),
                                                        FrameworkSchema.fields[1].(name := "Name")]),
                   FrameworkValue)
            == Ok("{\"ID\":\"framework\",\"Name\":\"summary\"}")
  {
    var f, g := FrameworkSchema.fields[0].(name := "ID"), FrameworkSchema.fields[1].(name := "Name");
    assert f.get(FrameworkValue) == StrV("framework");
    assert g.get(FrameworkValue) == StrV("summary");
    LeafOutputs(num, true, 0, 0.0, "framework");
    LeafOutputs(num, true, 0, 0.0, "summary");
    Object2(num, Record(FrameworkClass), f, g, FrameworkValue, Quote("framework"), Quote("summary"));
    SummaryMembers();
    SummaryText();
  }

  /** Five-field objects. */
  lemma Object5(num: real -> string, u: HostType, fs: seq<Field>, v: Value, texts: seq<string>)
    requires |fs| == 5 && |texts| == 5
    requires forall k :: 0 <= k < 5 ==> Render(num, fs[k].schema, fs[k].get(v)) == Ok(texts[k])
    ensures Render(num, Object(u, fs), v)
            == Ok("{" + Member(fs[0].name, texts[0]) + "," + Member(fs[1].name, texts[1]) + ","
                  + Member(fs[2].name, texts[2]) + "," + Member(fs[3].name, texts[3]) + ","
                  + Member(fs[4].name, texts[4]) + "}")
  {
    var members := [Member(fs[0].name, texts[0]), Member(fs[1].name, texts[1]), Member(fs[2].name, texts[2]),
                    Member(fs[3].name, texts[3]), Member(fs[4].name, texts[4])];
    FieldsJoin(num, u, fs, v, 5, texts, members);
    assert Render(num, Object(u, fs), v) == Ok("{" + Join(",", members) + "}");
    Join5(members[0], members[1], members[2], members[3], members[4]);
    Brace5(members[0], members[1], members[2], members[3], members[4]);
  }

  lemma ResourceMembers()
    ensures Member("name", Quote("cpus")) == "\"name\":\"cpus\""
    ensures Member("name", Quote("mem")) == "\"name\":\"mem\""
    ensures Member("role", Quote("ads")) == "\"role\":\"ads\""
  {
  }

  lemma FrameworkLeafMembers()
    ensures Member("id", Quote("framework")) == "\"id\":\"framework\""
    ensures Member("name", Quote("summary")) == "\"name\":\"summary\""
  {
  }

  lemma FrameworkOtherMembers(resources: string)
    ensures Member("checkpoint", "true") == "\"checkpoint\":true"
    ensures Member("resources", resources) == "\"resources\":" + resources
  {
    assert "\"" + "resources" + "\":" == "\"resources\":";
  }

  lemma IdNameMember()
    ensures Member("id-name", Quote("framework-summary")) == "\"id-name\":\"framework-summary\""
  {
  }

  /** The resource `{name, role}` as `object<Resource>` writes it. */
  lemma ResourceExample(num: real -> string, name: string, role: string)
    ensures Render(num, ResourceSchema, ResourceValue(name, role))
            == Ok("{" + Member("name", Quote(name)) + "," + Member("role", Quote(role)) + "}")
  {
    LeafOutputs(num, true, 0, 0.0, name);
    LeafOutputs(num, true, 0, 0.0, role);
    Object2(num, Record(ResourceClass), ResourceSchema.fields[0], ResourceSchema.fields[1], ResourceValue(name, role),
            Quote(name), Quote(role));
  }

  /** What each field of `FrameworkSchema` yields on `FrameworkValue`, written out. */
  /** What the first four fields of `FrameworkSchema` yield on `FrameworkValue`. */
  lemma FrameworkLeafTexts(num: real -> string)
    ensures Render(num, FrameworkSchema.fields[0].schema, FrameworkSchema.fields[0].get(FrameworkValue)) == Ok(Quote("framework"))
    ensures Render(num, FrameworkSchema.fields[1].schema, FrameworkSchema.fields[1].get(FrameworkValue)) == Ok(Quote("summary"))
    ensures Render(num, FrameworkSchema.fields[2].schema, FrameworkSchema.fields[2].get(FrameworkValue)) == Ok("true")
    ensures Render(num, FrameworkSchema.fields[3].schema, FrameworkSchema.fields[3].get(FrameworkValue))
            == Ok(Quote("framework-summary"))
  {
    var v, fs := FrameworkValue, FrameworkSchema.fields;
    assert fs[0].get(v) == StrV("framework");
    assert fs[1].get(v) == StrV("summary");
    assert fs[2].get(v) == BoolV(true);
    assert "framework" + "-" + "summary" == "framework-summary";
    assert fs[3].get(v) == StrV("framework-summary");
    LeafOutputs(num, true, 0, 0.0, "framework");
    LeafOutputs(num, true, 0, 0.0, "summary");
    LeafOutputs(num, true, 0, 0.0, "framework-summary");
  }

  /** What the `resources` field yields: the two resources through `array(resource)`. */
  lemma ResourcesText(num: real -> string)
    ensures Render(num, FrameworkSchema.fields[4].schema, FrameworkSchema.fields[4].get(FrameworkValue))
            == Ok("[" + ("{" + "\"name\":\"cpus\"" + "," + "\"role\":\"ads\"" + "}") + ","
                  + ("{" + "\"name\":\"mem\"" + "," + "\"role\":\"ads\"" + "}") + "]")
  {
    var r1 := "{" + "\"name\":\"cpus\"" + "," + "\"role\":\"ads\"" + "}";
    var r2 := "{" + "\"name\":\"mem\"" + "," + "\"role\":\"ads\"" + "}";
    ResourceExample(num, "cpus", "ads");
    ResourceExample(num, "mem", "ads");
    ResourceMembers();
    Array2(num, ResourceSchema, ResourceValue("cpus", "ads"), ResourceValue("mem", "ads"), r1, r2);
    assert FrameworkSchema.fields[4].get(FrameworkValue) == VecV([ResourceValue("cpus", "ads"), ResourceValue("mem", "ads")]);
  }

  /**
   * The full `Framework` object: plain members, a callable member, and a
   * vector of nested objects through `array(resource)`. The expected text is
   * written as the concatenation of its members' texts; put together it reads
   *
   *   {"id":"framework","name":"summary","checkpoint":true,"id-name":"framework-summary",
   *    "resources":[{"name":"cpus","role":"ads"},{"name":"mem","role":"ads"}]}
   *
   * (one line, without the break).
   */
  lemma ElaborateObjectExample(num: real -> string)
    ensures Render(num, FrameworkSchema, FrameworkValue)
            == Ok("{" + "\"id\":\"framework\"" + "," + "\"name\":\"summary\"" + "," + "\"checkpoint\":true" + ","
                  + "\"id-name\":\"framework-summary\"" + ","
                  + ("\"resources\":" + ("[" + ("{" + "\"name\":\"cpus\"" + "," + "\"role\":\"ads\"" + "}") + ","
                                           + ("{" + "\"name\":\"mem\"" + "," + "\"role\":\"ads\"" + "}") + "]"))
                  + "}")
  {
    var r1 := "{" + "\"name\":\"cpus\"" + "," + "\"role\":\"ads\"" + "}";
    var r2 := "{" + "\"name\":\"mem\"" + "," + "\"role\":\"ads\"" + "}";
    FrameworkLeafTexts(num);
    ResourcesText(num);
    var texts := [Quote("framework"), Quote("summary"), "true", Quote("framework-summary"), "[" + r1 + "," + r2 + "]"];
    Object5(num, Record(FrameworkClass), FrameworkSchema.fields, FrameworkValue, texts);
    FrameworkLeafMembers();
    FrameworkOtherMembers("[" + r1 + "," + r2 + "]");
    IdNameMember();
  }

  /** Every field of the two test schemas passes `field`'s check and every accessor is typed. */
  lemma ResourceSchemaWellFormed()
    ensures WellFormed(ResourceSchema) && AccessorsTyped(ResourceSchema)
  {
  }

  lemma FrameworkAccessorsTyped()
    ensures AccessorsTyped(FrameworkSchema)
  {
    ResourceSchemaWellFormed();
  }

  lemma FrameworkSchemaWellFormed()
    ensures WellFormed(FrameworkSchema) && AccessorsTyped(FrameworkSchema)
  {
    ResourceSchemaWellFormed();
    assert Convertible(Vector(Record(ResourceClass)), Array(ResourceSchema));
    FrameworkAccessorsTyped();
  }

  /** Hence writing any `Framework` through `FrameworkSchema` cannot fail. */
  lemma FrameworkAlwaysRenders(num: real -> string, v: Value)
    requires HasType(v, Record(FrameworkClass))
    ensures Render(num, FrameworkSchema, v).Ok?
  {
    FrameworkSchemaWellFormed();
    NativeValuesRender(num, FrameworkSchema, v);
  }

  /** `field("checkpoint", &Framework::checkpoint, string)` does not compile: a bool is no string. */
  lemma MisTypedFieldRejected()
    ensures MakeField("checkpoint", Record(FrameworkClass), Bool, BoolMember(2), String)
            == Err(FieldNotConvertible("checkpoint", Bool))
    ensures MakeField("checkpoint", Record(FrameworkClass), Bool, BoolMember(2), Boolean).Ok?
  {
  }

  const BaseClass := Class("Base", [])
  const DerivedClass := Class("Derived", [BaseClass])
  /** A class with the same members as `Resource` but no relation to it. */
  const TwinClass := Class("Twin", [])

  const BaseSchema := Object(Record(BaseClass), [Field("id", Record(BaseClass), StdString, StringMember(0), String)])

  /** A `Derived` whose base part holds `"d"` and which adds a member of its own. */
  const DerivedValue := RecV(DerivedClass, [StrV("d"), BoolV(true)])

  /**
   * A schema for a base class accepts a derived object and writes only the
   * base's fields; the converse and a structurally identical but unrelated
   * class are rejected.
   */
  lemma BaseSchemaOnDerived(num: real -> string)
    ensures Convertible(Record(DerivedClass), BaseSchema)
    ensures !Convertible(Record(BaseClass), Object(Record(DerivedClass), BaseSchema.fields))
    ensures !Convertible(Record(TwinClass), ResourceSchema)
    ensures Render(num, BaseSchema, DerivedValue) == Ok("{" + Join(",", [Member("id", Quote("d"))]) + "}")
  {
    assert IsBaseOf(BaseClass, DerivedClass.bases[0]);
    LeafOutputs(num, true, 0, 0.0, "d");
    FieldsJoin(num, Record(BaseClass), BaseSchema.fields, DerivedValue, 1, [Quote("d")], [Member("id", Quote("d"))]);
  }
}
