/**
 * The closed set of JSON schemas, the native type each one accepts, the
 * recursive convertibility predicate that gates composition, and the
 * constructors `array`, `field` and `object`.
 */
module Schemas {
  import opened Wrappers
  import opened HostTypes

  /** `Boolean`, `Number`, `String`, `Array<S>` and `Object<T, Fs...>`. */
  datatype Schema =
    | Boolean
    | Number
    | String
    | Array(elem: Schema)
    | Object(owner: HostType, fields: seq<Field>)

  /**
   * `Field<R, T, S>`: a name, an accessor from the aggregate type `owner` (T)
   * to a value of type `result` (R), and the schema the value is written with.
   * The accessor stands for a data-member pointer, a method or a callable.
   */
  datatype Field = Field(name: string, owner: HostType, result: HostType, get: Value -> Value, schema: Schema)

  /** `typeof<S>`: the C++ type the schema is declared over. */
  function TypeOf(s: Schema): HostType {
    match s
    case Boolean => Bool
    case Number => Double
    case String => StdString
    case Array(e) => Vector(TypeOf(e))
    case Object(u, _) => u
  }

  /** `is_convertible<T, S>`: a value of type `t` can be written through `s`. */
  predicate Convertible(t: HostType, s: Schema)
    decreases s
  {
    match s
    case Boolean => ImplicitlyConvertible(t, TypeOf(s))
    case Number => ImplicitlyConvertible(t, TypeOf(s))
    case String => ImplicitlyConvertible(t, TypeOf(s))
    case Array(e) => t.Vector? && Convertible(t.elem, e)
    case Object(u, _) => PtrConvertible(t, u)
  }

  /** Every schema accepts the type it is declared over. */
  lemma {:induction false} NativeTypeConvertible(s: Schema)
    ensures Convertible(TypeOf(s), s)
  {
    if s.Array? {
      NativeTypeConvertible(s.elem);
    }
  }

  /** `k` nested arrays around `s`, as in `array(array(number))`. */
  function Nest(k: nat, s: Schema): Schema {
    if k == 0 then s else Array(Nest(k - 1, s))
  }

  /** `k` nested vectors around `t`, as in `std::vector<std::vector<size_t>>`. */
  function VectorOf(k: nat, t: HostType): HostType {
    if k == 0 then t else Vector(VectorOf(k - 1, t))
  }

  /** Array convertibility composes: nesting both sides equally changes nothing. */
  lemma {:induction false} NestedConvertible(k: nat, t: HostType, s: Schema)
    ensures Convertible(VectorOf(k, t), Nest(k, s)) <==> Convertible(t, s)
  {
    if k > 0 {
      NestedConvertible(k - 1, t, s);
    }
  }

  /** Only a vector converts to an array schema, and only through its element type. */
  lemma ArrayConvertibleIff(t: HostType, e: Schema)
    ensures Convertible(t, Array(e)) <==> t.Vector? && Convertible(t.elem, e)
    ensures !t.Vector? ==> !Convertible(t, Array(e))
  {
  }

  /**
   * Object convertibility is pointer convertibility to the declared type and
   * never looks at the fields.
   */
  lemma ObjectConvertibleIgnoresFields(t: HostType, u: HostType, fs: seq<Field>, gs: seq<Field>)
    ensures Convertible(t, Object(u, fs)) <==> Convertible(t, Object(u, gs))
    ensures Convertible(t, Object(u, fs)) <==> t == u || (t.Record? && u.Record? && IsBaseOf(u.cls, t.cls))
  {
  }

  /** `array(s)`. */
  function ArrayOf(s: Schema): (r: Schema)
    ensures TypeOf(r) == Vector(TypeOf(s))
    ensures forall k: nat, t :: Convertible(VectorOf(k + 1, t), r) <==> Convertible(VectorOf(k, t), s)
  {
    Array(s)
  }

  datatype BuildError = FieldNotConvertible(name: string, result: HostType)

  /** `field(name, member, schema)`: rejected unless the member's type converts to the schema. */
  function MakeField(name: string, owner: HostType, result: HostType, get: Value -> Value, schema: Schema)
    : (r: Result<Field, BuildError>)
    ensures r.Ok? <==> Convertible(result, schema)
    ensures r.Ok? ==> r.value.name == name && r.value.owner == owner && r.value.result == result
                      && r.value.get == get && r.value.schema == schema
    ensures r.Err? ==> r.error == FieldNotConvertible(name, result)
  {
    if Convertible(result, schema) then Ok(Field(name, owner, result, get, schema))
    else Err(FieldNotConvertible(name, result))
  }

  /** `object<T>(fields...)`: the fields are kept in declaration order. */
  function MakeObject(owner: HostType, fields: seq<Field>): (r: Schema)
    ensures TypeOf(r) == owner
    ensures r.Object? && r.fields == fields
    ensures forall t :: Convertible(t, r) <==> PtrConvertible(t, owner)
  {
    Object(owner, fields)
  }

  /**
   * What compiling the writer for `s` demands: every field passed the check of
   * `field`, every object has at least one field (the field writer takes a
   * first field before the rest), and each field's accessor applies to the
   * object's type.
   */
  predicate WellFormed(s: Schema)
    decreases s
  {
    match s
    case Array(e) => WellFormed(e)
    case Object(u, fs) =>
      && |fs| > 0
      && forall k :: 0 <= k < |fs| ==>
           && PtrConvertible(u, fs[k].owner)
           && Convertible(fs[k].result, fs[k].schema)
           && WellFormed(fs[k].schema)
    case _ => true
  }

  /** The accessor of `f` maps values of its owner type to values of its result type. */
  ghost predicate AccessorTyped(f: Field) {
    forall v :: HasType(v, f.owner) ==> HasType(f.get(v), f.result)
  }

  /** Every accessor anywhere in `s` is typed; C++ guarantees this statically. */
  ghost predicate AccessorsTyped(s: Schema)
    decreases s
  {
    match s
    case Array(e) => AccessorsTyped(e)
    case Object(_, fs) => forall k :: 0 <= k < |fs| ==> AccessorTyped(fs[k]) && AccessorsTyped(fs[k].schema)
    case _ => true
  }
}
