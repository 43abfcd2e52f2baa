/**
 * The part of the C++ host that the JSON writer relies on: the types a
 * schema can be asked to accept, the values of those types, and the
 * standard implicit conversions (`std::is_convertible`) between them.
 */
module HostTypes {
  import opened Wrappers

  /** A user-defined struct or class: its name and its direct public bases. */
  datatype Class = Class(name: string, bases: seq<Class>)

  /** The C++ types the model distinguishes. */
  datatype HostType =
    | Bool
    | Int
    | SizeT
    | Double
    | StdString          // std::string
    | CString            // const char *, assumed non-null
    | Vector(elem: HostType)
    | Record(cls: Class)

  /** `b` is `d` itself or one of its (direct or indirect) base classes. */
  predicate IsBaseOf(b: Class, d: Class)
    decreases d
  {
    b == d || exists i :: 0 <= i < |d.bases| && IsBaseOf(b, d.bases[i])
  }

  lemma {:induction false} BaseOfTransitive(a: Class, b: Class, c: Class)
    requires IsBaseOf(a, b) && IsBaseOf(b, c)
    ensures IsBaseOf(a, c)
    decreases c
  {
    if b != c {
      var i :| 0 <= i < |c.bases| && IsBaseOf(b, c.bases[i]);
      BaseOfTransitive(a, b, c.bases[i]);
    }
  }

  /** `std::is_convertible<From *, To *>`: the same type, or a derived class to a base. */
  predicate PtrConvertible(from: HostType, to: HostType) {
    from == to || (from.Record? && to.Record? && IsBaseOf(to.cls, from.cls))
  }

  predicate Arithmetic(t: HostType) {
    t.Bool? || t.Int? || t.SizeT? || t.Double?
  }

  /**
   * `std::is_convertible<From, To>`: identity, the arithmetic conversions
   * between bool, int, size_t and double, pointer-to-bool, `const char *` to
   * `std::string`, and derived-to-base copies. `std::vector<T>` converts to
   * `std::vector<U>` only when `T` and `U` are the same type.
   */
  predicate ImplicitlyConvertible(from: HostType, to: HostType) {
    || from == to
    || (Arithmetic(from) && Arithmetic(to))
    || (from.CString? && (to.Bool? || to.StdString?))
    || (from.Record? && to.Record? && IsBaseOf(to.cls, from.cls))
  }

  /** A run-time value; a `double` is modelled by the real number it denotes. */
  datatype Value =
    | BoolV(b: bool)
    | IntV(i: int)
    | DoubleV(x: real)
    | StrV(s: string)
    | CStrV(s: string)
    | VecV(elems: seq<Value>)
    | RecV(cls: Class, data: seq<Value>)

  /** `v` is a value of static type `t` (an object of a derived class is one of each base). */
  predicate HasType(v: Value, t: HostType)
    decreases t
  {
    match t
    case Bool => v.BoolV?
    case Int => v.IntV?
    case SizeT => v.IntV? && v.i >= 0
    case Double => v.DoubleV?
    case StdString => v.StrV?
    case CString => v.CStrV?
    case Vector(e) => v.VecV? && forall k :: 0 <= k < |v.elems| ==> HasType(v.elems[k], e)
    case Record(c) => v.RecV? && IsBaseOf(c, v.cls)
  }

  /** Binding a value of type `t` to `const U &` where `U*` is reachable from `t*`. */
  lemma UpcastKeepsType(v: Value, t: HostType, u: HostType)
    requires HasType(v, t) && PtrConvertible(t, u)
    ensures HasType(v, u)
  {
    if t != u {
      BaseOfTransitive(u.cls, t.cls, v.cls);
    }
  }

  /** The conversion performed when a value is bound to `const bool &`. */
  function ToBool(v: Value): Option<bool> {
    match v
    case BoolV(b) => Some(b)
    case IntV(i) => Some(i != 0)
    case DoubleV(x) => Some(x != 0.0)
    case CStrV(_) => Some(true)
    case _ => None
  }

  /** The conversion performed when a value is bound to `const double &`. */
  function ToDouble(v: Value): Option<real> {
    match v
    case BoolV(b) => Some(if b then 1.0 else 0.0)
    case IntV(i) => Some(i as real)
    case DoubleV(x) => Some(x)
    case _ => None
  }

  /** The conversion performed when a value is bound to `const std::string &`. */
  function ToStdString(v: Value): Option<string> {
    match v
    case StrV(s) => Some(s)
    case CStrV(s) => Some(s)
    case _ => None
  }

  /** Every value of a type that is implicitly convertible to a leaf type is converted. */
  lemma ConversionDefined(v: Value, t: HostType)
    requires HasType(v, t)
    ensures ImplicitlyConvertible(t, Bool) ==> ToBool(v).Some?
    ensures ImplicitlyConvertible(t, Double) ==> ToDouble(v).Some?
    ensures ImplicitlyConvertible(t, StdString) ==> ToStdString(v).Some?
  {
  }

  /** Identity conversions keep the value. */
  lemma ConversionIdentity(b: bool, x: real, s: string)
    ensures ToBool(BoolV(b)) == Some(b)
    ensures ToDouble(DoubleV(x)) == Some(x)
    ensures ToStdString(StrV(s)) == Some(s) && ToStdString(CStrV(s)) == Some(s)
  {
  }
}
