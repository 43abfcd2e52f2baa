/**
 * What the writer promises about its output: the text of each schema, the
 * comma-separated lists in iteration and declaration order, the rejection of
 * an object without fields, and the absence of any run-time type failure once
 * the compile-time gates hold.
 */
module RenderProperties {
  import opened Wrappers
  import opened HostTypes
  import opened Schemas
  import opened Rendering

  /** Applying a schema never rejects a value whose type converts to it. */
  lemma InvokeAcceptsConvertible(s: Schema, t: HostType, v: Value)
    requires HasType(v, t) && Convertible(t, s)
    ensures Invoke(s, v).Ok?
  {
    ConversionDefined(v, t);
  }

  /** A leaf schema rejects a value whose type does not convert to the leaf's type. */
  lemma InvokeRejectsNonConvertible(s: Schema, t: HostType, v: Value)
    requires (s.Boolean? || s.Number? || s.String?) && HasType(v, t) && !Convertible(t, s)
    ensures Invoke(s, v) == Err(NotConvertible)
  {
  }

  /** Arrays nested around a leaf schema, as in `array(array(boolean))`. */
  predicate LeafArray(s: Schema) {
    s.Boolean? || s.Number? || s.String? || (s.Array? && LeafArray(s.elem))
  }

  /** Every vector in `v`, down the chain of first elements, is non-empty. */
  predicate FirstElementsExist(v: Value) {
    v.VecV? ==> |v.elems| > 0 && FirstElementsExist(v.elems[0])
  }

  /** Once one element fails, every longer prefix of the element loop fails the same way. */
  lemma {:induction false} ElemsFail(num: real -> string, e: Schema, es: seq<Value>, k: nat, n: nat, x: RenderError)
    requires k < n <= |es| && Render(num, e, es[k]) == Err(x) && RenderElems(num, e, es, k).Ok?
    ensures RenderElems(num, e, es, n) == Err(x)
  {
    if n > k + 1 {
      ElemsFail(num, e, es, k, n - 1, x);
    }
  }

  /**
   * The converse of `InvokeAcceptsConvertible` for arrays of leaves: a value
   * whose type does not convert is rejected, as long as the vectors reaching
   * the mismatched element are not empty.
   */
  lemma {:induction false} RenderRejectsNonConvertible(num: real -> string, s: Schema, t: HostType, v: Value)
    requires LeafArray(s) && HasType(v, t) && !Convertible(t, s) && FirstElementsExist(v)
    ensures Render(num, s, v) == Err(NotConvertible)
    decreases s
  {
    if s.Array? && v.VecV? {
      RenderRejectsNonConvertible(num, s.elem, t.elem, v.elems[0]);
      assert RenderElems(num, s.elem, v.elems, 0) == Ok("");
      ElemsFail(num, s.elem, v.elems, 0, |v.elems|, NotConvertible);
    } else if !s.Array? {
      InvokeRejectsNonConvertible(s, t, v);
    }
  }

  /** The leaf writers: `true`/`false`, the host's number text, a quoted string. */
  lemma LeafOutputs(num: real -> string, b: bool, i: int, x: real, s: string)
    ensures Render(num, Boolean, BoolV(b)) == Ok(if b then "true" else "false")
    ensures Render(num, Boolean, IntV(i)) == Ok(if i != 0 then "true" else "false")
    ensures Render(num, Number, IntV(i)) == Ok(num(i as real))
    ensures Render(num, Number, DoubleV(x)) == Ok(num(x))
    ensures Render(num, String, StrV(s)) == Ok(Quote(s)) && Render(num, String, CStrV(s)) == Ok(Quote(s))
  {
  }

  /** The string writer adds a quote at each end and changes nothing in between. */
  lemma StringUnescaped(num: real -> string, s: string)
    ensures Render(num, String, StrV(s)).Ok?
    ensures var out := Render(num, String, StrV(s)).value;
            |out| == |s| + 2 && out[0] == '"' && out[|out| - 1] == '"' && out[1..|out| - 1] == s
  {
  }

  lemma {:induction false} JoinSnoc(sep: string, ps: seq<string>, p: string)
    requires |ps| > 0
    ensures Join(sep, ps + [p]) == Join(sep, ps) + sep + p
    decreases |ps|
  {
    if |ps| == 1 {
      assert (ps + [p])[1..] == [p];
    } else {
      assert (ps + [p])[1..] == ps[1..] + [p];
      JoinSnoc(sep, ps[1..], p);
    }
  }

  /** A prefix of the element list renders exactly when each of its elements does. */
  lemma {:induction false} ElemsOk(num: real -> string, e: Schema, es: seq<Value>, n: nat)
    requires n <= |es|
    ensures RenderElems(num, e, es, n).Ok? <==> forall k :: 0 <= k < n ==> Render(num, e, es[k]).Ok?
  {
    if n > 0 {
      ElemsOk(num, e, es, n - 1);
    }
  }

  lemma {:induction false} ElemsJoin(num: real -> string, e: Schema, es: seq<Value>, n: nat, parts: seq<string>)
    requires n <= |es| && |parts| == n
    requires forall k :: 0 <= k < n ==> Render(num, e, es[k]) == Ok(parts[k])
    ensures RenderElems(num, e, es, n) == Ok(Join(",", parts))
  {
    if n > 0 {
      ElemsJoin(num, e, es, n - 1, parts[..n - 1]);
      assert Render(num, e, es[n - 1]) == Ok(parts[n - 1]);
      assert parts == parts[..n - 1] + [parts[n - 1]];
      if n > 1 {
        assert RenderElems(num, e, es, n) == Ok(Join(",", parts[..n - 1]) + "," + parts[n - 1]);
        JoinSnoc(",", parts[..n - 1], parts[n - 1]);
      } else {
        assert RenderElems(num, e, es, n) == Ok("" + "" + parts[0]);
        assert "" + "" + parts[0] == parts[0];
      }
    }
  }

  /** If all elements render, so does every prefix of them. */
  lemma ElemsPrefixOk(num: real -> string, e: Schema, es: seq<Value>, n: nat, m: nat)
    requires m <= n <= |es| && RenderElems(num, e, es, n).Ok?
    ensures RenderElems(num, e, es, m).Ok?
  {
    ElemsOk(num, e, es, n);
    ElemsOk(num, e, es, m);
  }

  /** One more element extends the rendered prefix by a separator and that element's text. */
  lemma ElemsStep(num: real -> string, e: Schema, es: seq<Value>, i: nat)
    requires i < |es| && RenderElems(num, e, es, i + 1).Ok?
    ensures RenderElems(num, e, es, i).Ok? && Render(num, e, es[i]).Ok?
    ensures RenderElems(num, e, es, i + 1).value
            == RenderElems(num, e, es, i).value + (if i == 0 then "" else ",") + Render(num, e, es[i]).value
  {
  }

  /** The array writer: `[`, the elements in order, comma-separated, then `]`. */
  lemma ArrayOutput(num: real -> string, e: Schema, es: seq<Value>, parts: seq<string>)
    requires |parts| == |es|
    requires forall k :: 0 <= k < |es| ==> Render(num, e, es[k]) == Ok(parts[k])
    ensures Render(num, Array(e), VecV(es)) == Ok("[" + Join(",", parts) + "]")
  {
    ElemsJoin(num, e, es, |es|, parts);
  }

  lemma EmptyArrayOutput(num: real -> string, e: Schema)
    ensures Render(num, Array(e), VecV([])) == Ok("[]")
  {
    assert Invoke(Array(e), VecV([])) == Ok(ArrayFormat(e, []));
    assert RenderElems(num, e, [], 0) == Ok("");
    assert "[" + "" + "]" == "[]";
  }

  /** An array renders exactly when all its elements do; a non-sequence never does. */
  lemma ArrayRendersIff(num: real -> string, e: Schema, v: Value)
    ensures !v.VecV? ==> Render(num, Array(e), v) == Err(NotConvertible)
    ensures v.VecV? ==>
              (Render(num, Array(e), v).Ok? <==> forall k :: 0 <= k < |v.elems| ==> Render(num, e, v.elems[k]).Ok?)
  {
    if v.VecV? {
      ElemsOk(num, e, v.elems, |v.elems|);
    }
  }

  /** A prefix of the field list renders exactly when each of its field values does. */
  lemma {:induction false} FieldsOk(num: real -> string, u: HostType, fs: seq<Field>, v: Value, n: nat)
    requires n <= |fs|
    ensures RenderFields(num, u, fs, v, n).Ok? <==>
              forall k :: 0 <= k < n ==> Render(num, fs[k].schema, fs[k].get(v)).Ok?
  {
    if n > 0 {
      FieldsOk(num, u, fs, v, n - 1);
    }
  }

  lemma {:induction false} FieldsJoin(num: real -> string, u: HostType, fs: seq<Field>, v: Value, n: nat,
                                      texts: seq<string>, members: seq<string>)
    requires n <= |fs| && |texts| == n && |members| == n
    requires forall k :: 0 <= k < n ==> Render(num, fs[k].schema, fs[k].get(v)) == Ok(texts[k])
    requires forall k :: 0 <= k < n ==> members[k] == Member(fs[k].name, texts[k])
    ensures RenderFields(num, u, fs, v, n) == Ok(Join(",", members))
  {
    if n > 0 {
      FieldsJoin(num, u, fs, v, n - 1, texts[..n - 1], members[..n - 1]);
      assert Render(num, fs[n - 1].schema, fs[n - 1].get(v)) == Ok(texts[n - 1]);
      assert members == members[..n - 1] + [members[n - 1]];
      if n > 1 {
        assert RenderFields(num, u, fs, v, n) == Ok(Join(",", members[..n - 1]) + "," + members[n - 1]);
        JoinSnoc(",", members[..n - 1], members[n - 1]);
      } else {
        assert RenderFields(num, u, fs, v, n) == Ok("" + "" + members[0]);
        assert "" + "" + members[0] == members[0];
      }
    }
  }

  /** If all fields render, so does every prefix of them. */
  lemma FieldsPrefixOk(num: real -> string, u: HostType, fs: seq<Field>, v: Value, n: nat, m: nat)
    requires m <= n <= |fs| && RenderFields(num, u, fs, v, n).Ok?
    ensures RenderFields(num, u, fs, v, m).Ok?
  {
    FieldsOk(num, u, fs, v, n);
    FieldsOk(num, u, fs, v, m);
  }

  /** One more field extends the rendered prefix by a separator and that field's member. */
  lemma FieldsStep(num: real -> string, u: HostType, fs: seq<Field>, v: Value, k: nat)
    requires k < |fs| && RenderFields(num, u, fs, v, k + 1).Ok?
    ensures RenderFields(num, u, fs, v, k).Ok? && Render(num, fs[k].schema, fs[k].get(v)).Ok?
    ensures RenderFields(num, u, fs, v, k + 1).value
            == RenderFields(num, u, fs, v, k).value + (if k == 0 then "" else ",")
               + Member(fs[k].name, Render(num, fs[k].schema, fs[k].get(v)).value)
  {
  }

  /** A member is the quoted name, a colon and the value's text. */
  lemma MemberLayout(name: string, text: string)
    ensures Member(name, text) == "\"" + name + "\":" + text
  {
    assert Quote(name) + ":" == "\"" + name + "\":";
  }

  /**
   * The object writer: `{`, then for each field in declaration order its quoted
   * name, `:` and the accessor's result through the field's schema,
   * comma-separated, then `}`.
   */
  lemma ObjectOutput(num: real -> string, u: HostType, fs: seq<Field>, v: Value, texts: seq<string>)
    requires |fs| > 0 && |texts| == |fs|
    requires forall k :: 0 <= k < |fs| ==> Render(num, fs[k].schema, fs[k].get(v)) == Ok(texts[k])
    ensures Render(num, Object(u, fs), v)
            == Ok("{" + Join(",", seq(|fs|, k requires 0 <= k < |fs| => "\"" + fs[k].name + "\":" + texts[k])) + "}")
  {
    var members := seq(|fs|, k requires 0 <= k < |fs| => "\"" + fs[k].name + "\":" + texts[k]);
    forall k | 0 <= k < |fs|
      ensures members[k] == Member(fs[k].name, texts[k])
    {
      MemberLayout(fs[k].name, texts[k]);
    }
    FieldsJoin(num, u, fs, v, |fs|, texts, members);
  }

  /** An object schema without fields cannot be written. */
  lemma EmptyObjectRejected(num: real -> string, u: HostType, v: Value)
    ensures Render(num, Object(u, []), v) == Err(NoFields)
  {
  }

  lemma {:induction false} FieldsAgree(num: real -> string, u: HostType, fs: seq<Field>, v: Value,
                                       u': HostType, gs: seq<Field>, w: Value, n: nat)
    requires n <= |fs| == |gs|
    requires forall k :: 0 <= k < |fs| ==>
               fs[k].name == gs[k].name && fs[k].schema == gs[k].schema && fs[k].get(v) == gs[k].get(w)
    ensures RenderFields(num, u, fs, v, n) == RenderFields(num, u', gs, w, n)
  {
    if n > 0 {
      FieldsAgree(num, u, fs, v, u', gs, w, n - 1);
    }
  }

  /**
   * An object's text depends only on its fields' names, schemas and results on
   * the value: not on the declared type, the value's own class or the form of
   * the accessor (data member, method or callable).
   */
  lemma ObjectDependsOnlyOnFieldResults(num: real -> string, u: HostType, fs: seq<Field>, v: Value,
                                        u': HostType, gs: seq<Field>, w: Value)
    requires |fs| == |gs|
    requires forall k :: 0 <= k < |fs| ==>
               fs[k].name == gs[k].name && fs[k].schema == gs[k].schema && fs[k].get(v) == gs[k].get(w)
    ensures Render(num, Object(u, fs), v) == Render(num, Object(u', gs), w)
  {
    FieldsAgree(num, u, fs, v, u', gs, w, |fs|);
  }

  /**
   * Once the compile-time gates hold (every field checked, every object with a
   * field, every accessor typed) a value whose type converts to the schema is
   * always written: there is no run-time type failure.
   */
  lemma {:induction false} NoRuntimeTypeFailure(num: real -> string, s: Schema, t: HostType, v: Value)
    requires WellFormed(s) && AccessorsTyped(s)
    requires HasType(v, t) && Convertible(t, s)
    ensures Render(num, s, v).Ok?
    decreases s
  {
    InvokeAcceptsConvertible(s, t, v);
    match s
    case Array(e) =>
      forall k | 0 <= k < |v.elems|
        ensures Render(num, e, v.elems[k]).Ok?
      {
        NoRuntimeTypeFailure(num, e, t.elem, v.elems[k]);
      }
      ElemsOk(num, e, v.elems, |v.elems|);
    case Object(u, fs) =>
      UpcastKeepsType(v, t, u);
      forall k | 0 <= k < |fs|
        ensures Render(num, fs[k].schema, fs[k].get(v)).Ok?
      {
        UpcastKeepsType(v, u, fs[k].owner);
        assert AccessorTyped(fs[k]);
        NoRuntimeTypeFailure(num, fs[k].schema, fs[k].result, fs[k].get(v));
      }
      FieldsOk(num, u, fs, v, |fs|);
    case _ =>
  }

  /** In particular every value of a well-formed schema's own type is written. */
  lemma NativeValuesRender(num: real -> string, s: Schema, v: Value)
    requires WellFormed(s) && AccessorsTyped(s) && HasType(v, TypeOf(s))
    ensures Render(num, s, v).Ok?
  {
    NativeTypeConvertible(s);
    NoRuntimeTypeFailure(num, s, TypeOf(s), v);
  }
}
