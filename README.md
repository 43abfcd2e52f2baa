# A verified model of jpark's schema-directed JSON writer

`include/json.hpp` writes C++ values as JSON text. The shape of the output is
given by a *schema*: `boolean`, `number`, `string`, `array(s)`, or
`object<T>(field(name, member, s), ...)`. Every schema has a native C++ type
(`typeof`). A compile-time predicate (`is_convertible`) decides which C++ types
a schema accepts. Applying a schema to a value gives a `Format` proxy, and
inserting that proxy into an `std::ostream` writes the text in one pass.

The model has six modules:

- `HostTypes` (`host_types.dfy`): the C++ side. It has the types a schema can
  meet (`bool`, `int`, `size_t`, `double`, `std::string`, `const char *`,
  `std::vector<T>`, and classes with base classes), their values, a typing
  relation, `std::is_convertible` for pointers and for values, and the
  conversions done when a value binds to `const bool &`, `const double &` or
  `const std::string &`.
- `Schemas` (`schemas.dfy`): the closed schema set, `typeof`, the recursive
  `is_convertible`, and the constructors `array`, `field` and `object`. The
  check in `field` returns a `Result`, so a rejected field is an `Err`.
  `WellFormed` and `AccessorsTyped` state what compiling a schema guarantees.
- `Rendering` (`rendering.dfy`): the pure meaning. `Invoke` is the schema's
  call operator and gives a `Format`. `Emit` is `operator<<` on that `Format`.
  `Render` is the two together. The build-time rejections that C++ reports at
  compile time become `Err` values.
- `RenderProperties` (`render_properties.dfy`): the output grammar of each
  writer, the error cases, and the theorem that a schema that compiles never
  fails on a value whose type converts to it.
- `Streams` and `Streamers` (`streams.dfy`, `streamers.dfy`): the imperative
  writers. `Stream` is a class holding the text written so far and the format
  flags. Each `operator<<` overload and `FieldWriter` is a method on it. The
  array and field writers are loops. Each method is proved to append exactly
  `Render`'s text and to leave the format flags as they were.
- `Examples` (`examples.dfy`): the outputs the tests in `test/intro.test.cpp`
  expect, stated and proved for the model.

Host `double` formatting (`strm << double`) is the parameter
`num: real -> string`, threaded through every function and method. A value of
type `double` is modelled by a real number. A decimal literal such as
`DoubleV(1.1)` stands for the double nearest to it. Nothing depends on the
difference, because `num` is abstract.

A field's accessor is a total function `Value -> Value`, with the field's
owner type and result type next to it. The accessor stands for a data-member
pointer, a method or a callable. The ghost predicate `AccessorTyped` holds
when the accessor maps values of the owner type to values of the result type.
That is what the C++ type checker guarantees.

## Model

| member | source | states |
|---|---|---|
| HostTypes.BaseOfTransitive | include/json.hpp:61-62 | If a is a base of b and b is a base of c, then a is a base of c. So pointer convertibility to a base works through the whole base chain. |
| HostTypes.UpcastKeepsType | include/json.hpp:185-186 | A value of type t is also a value of type u whenever `t*` converts to `u*`. This is the binding of a derived object to `const Base &`. |
| HostTypes.ConversionDefined | include/json.hpp:49-56 | When a value's type is implicitly convertible to `bool`, `double` or `std::string`, the conversion done on binding to that parameter is defined. |
| HostTypes.ConversionIdentity | include/json.hpp:130-148 | Binding a `bool`, a `double` or a string to its own leaf type keeps the value unchanged. |
| Schemas.NativeTypeConvertible | include/json.hpp:20-62 | Every schema accepts its own `typeof`. |
| Schemas.NestedConvertible | include/json.hpp:58-59 | k nested vectors of t convert to k nested arrays of s iff t converts to s. Both directions are proved: array convertibility composes through nesting. |
| Schemas.ArrayConvertibleIff | include/json.hpp:58-59 | A type converts to `Array<S>` iff it is a `std::vector<T>` and T converts to S. Anything that is not a vector is rejected. |
| Schemas.ObjectConvertibleIgnoresFields | include/json.hpp:61-62 | Convertibility to `Object<U, Fs...>` is identity or derived-to-base, and it is the same for every field list. It is never a field-by-field check. |
| Schemas.ArrayOf | include/json.hpp:163-164 | `array(s)` has native type `vector<typeof<s>>`, and adds one level of vector to every convertible nesting. |
| Schemas.MakeField | include/json.hpp:177-181 | `field` succeeds iff the member's type converts to the schema. On success the field keeps the name, the accessor and the schema. On failure it reports the rejected name and type. |
| Schemas.MakeObject | include/json.hpp:192-193 | `object<T>` keeps the fields in declaration order, has native type T, and accepts exactly the types whose pointers convert to `T*`. |
| Rendering.Invoke | include/json.hpp:129-187 | Applying a schema gives a proxy of that same schema. Whether a value is accepted is separate: see `InvokeAcceptsConvertible`. |
| RenderProperties.InvokeAcceptsConvertible | include/json.hpp:42-62 | A value whose type converts to the schema is always accepted by the schema's call operator. |
| RenderProperties.InvokeRejectsNonConvertible | include/json.hpp:49-56 | A leaf schema rejects every value whose type does not convert to the leaf's native type. |
| RenderProperties.ElemsFail | include/json.hpp:219-226 | Once one element cannot be written, no longer run of the array loop can be written either. |
| RenderProperties.RenderRejectsNonConvertible | include/json.hpp:58-59 | For arrays nested around a leaf, a value whose type does not convert is rejected. Together with `InvokeAcceptsConvertible` this gives both directions of the gate, with the exception of empty vectors (see Left out). |
| RenderProperties.LeafOutputs | include/json.hpp:197-213 | Boolean writes `true` or `false`, including for an `int` converted to `bool`. Number writes the host text of the value as a `double`. String writes the string between quotes, for `std::string` and for `const char *`. |
| RenderProperties.StringUnescaped | include/json.hpp:210-213 | The string writer's output is two characters longer than the input, starts and ends with `"`, and has the input unchanged in between: nothing is escaped. |
| RenderProperties.ElemsOk | include/json.hpp:219-226 | The loop over the first n elements succeeds iff each of those elements can be written. |
| RenderProperties.ElemsJoin | include/json.hpp:219-226 | The loop over the first n elements writes their texts in order, separated by commas. |
| RenderProperties.ElemsStep | include/json.hpp:220-225 | One more loop pass adds `,` (except before the first element) and then that element's text. |
| RenderProperties.ArrayOutput | include/json.hpp:215-228 | An array writes `[`, then the element texts in iteration order separated by `,`, then `]`. |
| RenderProperties.EmptyArrayOutput | include/json.hpp:218-227 | An empty vector writes `[]`. |
| RenderProperties.ArrayRendersIff | include/json.hpp:153-158 | An array schema applied to a non-vector is rejected. A vector is written iff every element is. |
| RenderProperties.FieldsOk | include/json.hpp:232-236 | Writing the first n fields succeeds iff each accessor's result can be written through that field's schema. |
| RenderProperties.FieldsJoin | include/json.hpp:232-236 | The first n fields give their `"name":value` members in declaration order, separated by commas. |
| RenderProperties.FieldsStep | include/json.hpp:235 | Each field after the first adds `,` and then its member. |
| RenderProperties.MemberLayout | include/json.hpp:169 | A member is the name written by the string writer, then `:`, then the value's text. |
| RenderProperties.ObjectOutput | include/json.hpp:243-250 | An object writes `{`, then for each field in declaration order `"name":` and the accessor's result through the field's schema, separated by `,`, then `}`. |
| RenderProperties.EmptyObjectRejected | include/json.hpp:232-235 | An object schema with no fields cannot be written: `FieldWriter` needs a first field. |
| RenderProperties.ObjectDependsOnlyOnFieldResults | include/json.hpp:185-187 | An object's text depends only on the schema's field names, field schemas and accessor results. It does not depend on the declared type or on the rest of the value. So a base schema applied to a derived object writes only the base schema's fields. |
| RenderProperties.NoRuntimeTypeFailure | include/json.hpp:177-181 | If every field passed `field`'s check, every object has a field and every accessor is typed, then any value whose type converts to the schema is written. There is no run-time type failure. |
| RenderProperties.NativeValuesRender | include/json.hpp:20-40 | In particular every value of a compiled schema's own `typeof` is written. |
| Streams.Stream.Put | include/json.hpp:212 | Inserting a string appends it and changes no flag. |
| Streams.Stream.PutBool | include/json.hpp:200 | Inserting a bool appends `true`/`false` under `boolalpha` and `1`/`0` otherwise. |
| Streams.Stream.PutDouble | include/json.hpp:207 | Inserting a double appends the host's text for it. |
| Streams.Stream.SetF | include/json.hpp:199 | `setf` adds one flag and returns the flags as they were. |
| Streams.Stream.SetFlags | include/json.hpp:201 | `flags(f)` replaces the flags and writes nothing. |
| Streams.Stream.constructor | test/intro.test.cpp:10 | A fresh `std::ostringstream` has no text and the default flags `skipws` and `dec`. In particular `boolalpha` is not set. |
| Streamers.WriteBoolean | include/json.hpp:197-203 | Appends exactly `true` or `false`, whatever the flags were before, and restores the previous flags. |
| Streamers.WriteNumber | include/json.hpp:205-208 | Appends the host text of the double and leaves the flags alone. |
| Streamers.WriteString | include/json.hpp:210-213 | Appends `"`, the string and `"`. |
| Streamers.WriteValue | include/json.hpp:224 | `strm << schema(value)` appends exactly `Render`'s text and keeps the flags. |
| Streamers.Write | include/json.hpp:197-250 | Inserting a proxy appends exactly `Emit`'s text for it and keeps the flags. |
| Streamers.WriteElement | include/json.hpp:221-224 | One pass of the array loop appends `,` (except at index 0) and then the element's text. |
| Streamers.WriteArray | include/json.hpp:215-228 | The array loop appends `[`, the rendered elements with separators, and `]`. This is exactly the pure array text. |
| Streamers.WriteField | include/json.hpp:168-170 | `Field::write` appends the quoted name, `:` and the accessor's result. |
| Streamers.WriteSeparatedField | include/json.hpp:235 | The step for every later field appends `,` and then the field. |
| Streamers.WriteFields | include/json.hpp:230-241 | `FieldWriter` writes the first field, then `,` and each further field in order. This is exactly the pure field list. |
| Streamers.WriteObject | include/json.hpp:243-250 | Appends `{`, the fields and `}`. |
| Streamers.Stringify | test/intro.test.cpp:8-13 | Writing `schema(value)` into a fresh stream gives exactly `Render`'s text. |
| Examples.BooleanExamples | test/intro.test.cpp:15-18 | `boolean(true)` gives `true` and `boolean(false)` gives `false`. |
| Examples.NumberExamples | test/intro.test.cpp:20-23 | `number(42)` and `number(4.2)` give the host text of 42.0 and 4.2. |
| Examples.StringExamples | test/intro.test.cpp:25-28 | `string("hello")` and `string(std::string("world"))` give the quoted texts. |
| Examples.ArrayOfBooleanExample | test/intro.test.cpp:30-34 | Gives `[true,true,false]`. |
| Examples.ArrayOfNumbersExample | test/intro.test.cpp:36-40 | Vectors of `double` and of `int` both convert to `array(number)`. Both give `[`, the two host texts with a comma between them, and `]`. |
| Examples.ArrayOfStringExample | test/intro.test.cpp:42-49 | Vectors of `std::string` and of `const char *` both give `["hello","world"]`. |
| Examples.ArrayOfArrayOfBooleansExample | test/intro.test.cpp:51-56 | Gives `[[true,true],[false,true,false],[false]]`. |
| Examples.ArrayOfArrayOfNumbersExample | test/intro.test.cpp:58-66 | The nested vectors of `double` and of `size_t` give nested brackets around the host texts. |
| Examples.ArrayOfArrayOfStringsExample | test/intro.test.cpp:68-77 | Both element types give `[["x","y"],["a","b","c"]]`. |
| Examples.NestedSizeTConvertible | test/intro.test.cpp:58-66 | `vector<vector<size_t>>` converts to `array(array(number))`. A nested vector of strings does not, and neither does a vector with too few levels. |
| Examples.NestedStringsRejected | test/intro.test.cpp:58-66 | A nested vector of strings given to `array(array(number))` is rejected. |
| Examples.ResourceExample | test/intro.test.cpp:107-110 | `object<Resource>` writes `{"name":...,"role":...}`. |
| Examples.SummaryObjectExample | test/intro.test.cpp:95-104 | Only the two declared fields are written, in declared order: `{"ID":"framework","Name":"summary"}`. |
| Examples.ElaborateObjectExample | test/intro.test.cpp:106-127 | The full Framework object gives the test's expected text, written as its members' texts concatenated. This includes the computed `id-name` member and the nested array of resource objects. |
| Examples.ResourceSchemaWellFormed | test/intro.test.cpp:107-110 | The resource schema passes every check `field` makes, and its accessors are typed. |
| Examples.FrameworkSchemaWellFormed | test/intro.test.cpp:111-119 | The framework schema passes every check `field` makes, and its accessors are typed. |
| Examples.FrameworkAlwaysRenders | test/intro.test.cpp:111-126 | Every `Framework` value is written through the framework schema without failure. |
| Examples.MisTypedFieldRejected | include/json.hpp:177-181 | A `bool` member with the `string` schema is rejected. The same member with `boolean` is accepted. |
| Examples.BaseSchemaOnDerived | include/json.hpp:61-62 | A base-class schema accepts a derived object and writes only the base's field. A base is rejected by a derived schema. A structurally identical but unrelated class is rejected. |

## Left out

- Floating-point formatting: `strm << double` is the parameter `num`. No
  property of the host's rounding or of its digits is stated.
- Stream failure states, exceptions and any side effect of `std::ostream`
  beyond the text and the format flags are not modelled. Format flags other
  than `boolalpha` are only names (`SkipWs`, `Dec`, `OtherFlag`); the model
  does not say how they change number output.
- `Stream` holds only the text and the flags. The field width is not
  modelled: a non-zero `width()` set before `strm << schema(value)` pads the
  first insertion (`[`, `{`, `"` or the bool). The locale is not modelled
  either: the words written under `boolalpha` come from the locale's
  `numpunct`, and the model always writes `true` and `false`.
- A one-field object makes the `FieldWriter` pack expansion at
  include/json.hpp:235 an empty array, `int dummy[] = {}`. That is ill-formed
  in ISO C++ and compiles only as a GCC/Clang extension. The model treats
  one-field objects (such as `BaseSchema`) like any other object.
- The `meta` library, `function_traits.hpp`, `invoke.hpp` and `apply.hpp`
  are not part of this model. Their effect is modelled directly: applying the
  accessor, and walking the field list in order.
- The private copy and move constructors and the friend declarations of the
  `Format` proxies are C++ access control. They are not behaviour.
- The array writer's "not the first element" test compares addresses. It is
  modelled as index > 0, which is the same thing for contiguous storage.
  The bit-packed `std::vector<bool>` is treated like any other vector.
- `Rendering.Invoke`: `Array::operator()` accepts any range type `V`, but the
  model accepts only vectors. An object schema's call operator accepts every
  value, because values of other types are excluded by typing (`HasType`) and
  not by `Invoke`.
- RenderProperties.RenderRejectsNonConvertible: rejection at invocation is
  stated only for leaves and for arrays of leaves whose vectors are not empty.
  C++ rejects a non-convertible type at compile time whatever the value. In the
  model, a value is checked only where it is converted: an empty vector of a
  wrong element type still gives `[]`. An object schema accepts every value,
  because the model cannot see a static type at run time. For fields, the
  compile-time rejection is stated by `Schemas.MakeField`, and for whole
  schemas by `WellFormed`.
- C++ conversion rules are narrowed to the types listed in `HostTypes`. Not
  modelled: ambiguous or non-public bases, user-defined conversion operators,
  converting constructors, a null `const char *`, and the width and range of
  `int` and `size_t`. An integer converted to `double` is exact in the model,
  even past 2^53.
- The accessor is more general than the code: `field` in `include/json.hpp`
  takes only a data-member pointer (`R T::*`). The tests also pass a member
  function and a lambda, and the model admits all three.
- Whether `include/json.hpp` compiles for a given combination is modelled by
  `Err` results and by `WellFormed`. The compiler's own diagnostics (the
  deleted `convertible_check`) are not modelled.
