/** Processing of an annotated struct by the current pipeline: collecting each field's
    directives, one initialiser per field, stripping the `brick_field` attributes in place,
    and assembling the output (src/item/struct_item.rs). */
module StructItem {
  import opened Results
  import opened Syntax
  import opened Generated
  import opened Fields
  import opened Attributes

  const FieldName: Ident := "brick_field"
  const NoNameMessage := "Expect to found a name"

  predicate IsBrickField(a: Attribute) {
    IsIdent(a.path, FieldName)
  }

  /** `attrs.retain(|attr| !attr.path().is_ident(FIELD_NAME))`. */
  function Retain(attrs: seq<Attribute>): (r: seq<Attribute>)
    ensures forall a :: a in r <==> a in attrs && !IsBrickField(a)
    ensures |r| <= |attrs|
  {
    if attrs == [] then []
    else (if IsBrickField(attrs[0]) then [] else [attrs[0]]) + Retain(attrs[1..])
  }

  /** Retaining distributes over concatenation, so the attributes kept stay in their order. */
  lemma {:induction false} RetainConcat(xs: seq<Attribute>, ys: seq<Attribute>)
    ensures Retain(xs + ys) == Retain(xs) + Retain(ys)
  {
    if xs == [] {
      assert xs + ys == ys;
    } else {
      assert (xs + ys)[1..] == xs[1..] + ys;
      RetainConcat(xs[1..], ys);
    }
  }

  /** Stripping twice is stripping once. */
  lemma {:induction false} RetainIdempotent(attrs: seq<Attribute>)
    ensures Retain(Retain(attrs)) == Retain(attrs)
  {
    if attrs != [] {
      var head := if IsBrickField(attrs[0]) then [] else [attrs[0]];
      RetainConcat(head, Retain(attrs[1..]));
      RetainIdempotent(attrs[1..]);
    }
  }

  function StripField(f: Field): Field {
    f.(attrs := Retain(f.attrs))
  }

  function StripAll(fs: seq<Field>): seq<Field> {
    seq(|fs|, i requires 0 <= i < |fs| => StripField(fs[i]))
  }

  /** After stripping, every field keeps its name, type and position and all its other
      attributes in their order, and no `brick_field` attribute is left anywhere. */
  lemma StripAllCases(fs: seq<Field>)
    ensures |StripAll(fs)| == |fs|
    ensures forall i :: 0 <= i < |fs| ==>
              && StripAll(fs)[i].ident == fs[i].ident
              && StripAll(fs)[i].ty == fs[i].ty
              && StripAll(fs)[i].attrs == Retain(fs[i].attrs)
    ensures forall i, a :: 0 <= i < |fs| && a in StripAll(fs)[i].attrs ==> !IsBrickField(a)
  {
  }

  /** What one attribute contributes to its field's directives: nothing unless it is a
      `brick_field` attribute, whose arguments must parse (`unwrap`) or the expansion aborts. */
  function AttrDirectives(a: Attribute): Result<seq<FieldArg>> {
    if !IsBrickField(a) then Ok([])
    else match ParseFieldArgs(a.args)
      case Err(e) => Err(Panic(e.message))
      case Ok(args) => Ok(args)
  }

  /** `Vec::extend` of collected directives, keeping the first failure. */
  function Join(a: Result<seq<FieldArg>>, b: Result<seq<FieldArg>>): Result<seq<FieldArg>> {
    if a.Err? then a else if b.Err? then b else Ok(a.value + b.value)
  }

  lemma JoinAssociative(a: Result<seq<FieldArg>>, b: Result<seq<FieldArg>>, c: Result<seq<FieldArg>>)
    ensures Join(Join(a, b), c) == Join(a, Join(b, c))
  {
    if a.Ok? && b.Ok? && c.Ok? {
      assert a.value + b.value + c.value == a.value + (b.value + c.value);
    }
  }

  /** The directives of one field: the arguments of every `brick_field` attribute, in
      attribute order. */
  function FieldDirectives(attrs: seq<Attribute>): Result<seq<FieldArg>>
    decreases |attrs|
  {
    if attrs == [] then Ok([])
    else Join(FieldDirectives(attrs[..|attrs| - 1]), AttrDirectives(attrs[|attrs| - 1]))
  }

  /** Directives of consecutive attribute lists concatenate; the first failure wins. */
  lemma {:induction false} FieldDirectivesConcat(xs: seq<Attribute>, ys: seq<Attribute>)
    ensures FieldDirectives(xs + ys) == Join(FieldDirectives(xs), FieldDirectives(ys))
    decreases |ys|
  {
    if ys == [] {
      assert xs + ys == xs;
      if FieldDirectives(xs).Ok? {
        assert FieldDirectives(xs).value + [] == FieldDirectives(xs).value;
      }
    } else {
      var zs := xs + ys;
      var ys' := ys[..|ys| - 1];
      assert zs[..|zs| - 1] == xs + ys';
      assert zs[|zs| - 1] == ys[|ys| - 1];
      FieldDirectivesConcat(xs, ys');
      JoinAssociative(FieldDirectives(xs), FieldDirectives(ys'), AttrDirectives(ys[|ys| - 1]));
    }
  }

  /** Attributes other than `brick_field` contribute nothing to a field's directives. */
  lemma OtherAttributesContributeNothing(xs: seq<Attribute>, a: Attribute, ys: seq<Attribute>)
    requires !IsBrickField(a)
    ensures FieldDirectives(xs + [a] + ys) == FieldDirectives(xs + ys)
  {
    FieldDirectivesConcat(xs + [a], ys);
    FieldDirectivesConcat(xs, [a]);
    FieldDirectivesConcat(xs, ys);
    assert [a][..0] == [];
    if FieldDirectives(xs).Ok? {
      assert FieldDirectives(xs).value + [] == FieldDirectives(xs).value;
    }
  }

  /** The initialiser of one field; a field without a name aborts the expansion. */
  function FieldTemplate(f: Field): Result<FieldInit> {
    match f.ident
    case None => Err(Panic(NoNameMessage))
    case Some(name) =>
      var args :- FieldDirectives(f.attrs);
      Ok(StructTemplate(name, args))
  }

  /** Exactly one initialiser per field, in field order; the expansion succeeds only when
      every field does. */
  function FieldTemplates(fs: seq<Field>): (r: Result<seq<Member>>)
    ensures r.Ok? <==> forall i :: 0 <= i < |fs| ==> FieldTemplate(fs[i]).Ok?
    ensures r.Ok? ==> |r.value| == |fs|
                      && forall i :: 0 <= i < |fs| ==> r.value[i] == Init(FieldTemplate(fs[i]).value)
    decreases |fs|
  {
    if fs == [] then Ok([])
    else
      var before :- FieldTemplates(fs[..|fs| - 1]);
      var t :- FieldTemplate(fs[|fs| - 1]);
      Ok(before + [Init(t)])
  }

  /** Once a prefix of the fields fails, the whole list fails with the same error. */
  lemma {:induction false} FieldTemplatesPrefixErr(fs: seq<Field>, i: nat)
    requires i <= |fs| && FieldTemplates(fs[..i]).Err?
    ensures FieldTemplates(fs) == FieldTemplates(fs[..i])
    decreases |fs| - i
  {
    if i < |fs| {
      assert fs[..i + 1][..i] == fs[..i];
      FieldTemplatesPrefixErr(fs, i + 1);
    } else {
      assert fs[..i] == fs;
    }
  }

  /** Once a prefix of the attributes fails, the field's directives fail with the same error. */
  lemma FieldDirectivesPrefixErr(attrs: seq<Attribute>, j: nat)
    requires j <= |attrs| && FieldDirectives(attrs[..j]).Err?
    ensures FieldDirectives(attrs) == FieldDirectives(attrs[..j])
  {
    FieldDirectivesConcat(attrs[..j], attrs[j..]);
    assert attrs[..j] + attrs[j..] == attrs;
  }

  /** The nested loop of `process` that extends a field's directive list attribute by
      attribute. */
  method CollectFieldDirectives(attrs: seq<Attribute>) returns (r: Result<seq<FieldArg>>)
    ensures r == FieldDirectives(attrs)
  {
    var fieldAttrs: seq<FieldArg> := [];
    for j := 0 to |attrs|
      invariant FieldDirectives(attrs[..j]) == Ok(fieldAttrs)
    {
      var attr := attrs[j];
      assert attrs[..j + 1][..j] == attrs[..j];
      if IsBrickField(attr) {
        var meta := ParseFieldArgs(attr.args);
        if meta.Err? {
          FieldDirectivesPrefixErr(attrs, j + 1);
          return Err(Panic(meta.error.message));
        }
        fieldAttrs := fieldAttrs + meta.value;
      } else {
        assert fieldAttrs + [] == fieldAttrs;
      }
    }
    assert attrs[..|attrs|] == attrs;
    r := Ok(fieldAttrs);
  }

  lemma FieldTemplatesSnocErr(pre: seq<Field>, f: Field)
    requires FieldTemplates(pre).Ok? && FieldTemplate(f).Err?
    ensures FieldTemplates(pre + [f]) == Err(FieldTemplate(f).error)
  {
    var zs := pre + [f];
    assert zs[..|zs| - 1] == pre && zs[|zs| - 1] == f;
  }

  lemma SliceSnoc<T>(s: seq<T>, i: nat)
    requires i < |s|
    ensures s[..i + 1] == s[..i] + [s[i]]
  {
  }

  lemma FieldTemplatesPrefixOk(fs: seq<Field>, i: nat)
    requires i <= |fs|
    requires forall j :: 0 <= j < i ==> FieldTemplate(fs[j]).Ok?
    ensures FieldTemplates(fs[..i]).Ok?
  {
    var pre := fs[..i];
    forall j | 0 <= j < |pre|
      ensures FieldTemplate(pre[j]).Ok?
    {
      assert pre[j] == fs[j];
    }
  }

  /** The first field that fails decides the error of the whole expansion. */
  lemma {:induction false} FieldTemplatesFirstError(fs: seq<Field>, i: nat)
    requires i < |fs| && FieldTemplate(fs[i]).Err?
    requires forall j :: 0 <= j < i ==> FieldTemplate(fs[j]).Ok?
    ensures FieldTemplates(fs) == Err(FieldTemplate(fs[i]).error)
  {
    var pre := fs[..i];
    FieldTemplatesPrefixOk(fs, i);
    SliceSnoc(fs, i);
    FieldTemplatesSnocErr(pre, fs[i]);
    FieldTemplatesPrefixErr(fs, i + 1);
  }

  /** A successful expansion means every field has a name; a field without one aborts it
      unless an earlier field already failed. */
  lemma EveryFieldNamed(fs: seq<Field>)
    ensures FieldTemplates(fs).Ok? ==> forall i :: 0 <= i < |fs| ==> fs[i].ident.Some?
  {
  }

  /** What `process` returns: the struct with its `brick_field` attributes removed, followed
      by the generated impl. */
  datatype Output = Output(item: StructDecl, impl: Impl)

  /** A struct item being expanded; `process` edits its fields in place. */
  class ItemStruct {
    var ident: Ident
    var fields: seq<Field>

    constructor (decl: StructDecl)
      ensures ident == decl.ident && fields == decl.fields
    {
      ident := decl.ident;
      fields := decl.fields;
    }

    /** `self.fields.iter_mut().for_each(|field| field.attrs.retain(...))`. */
    method StripBrickFields()
      modifies this
      ensures ident == old(ident)
      ensures fields == StripAll(old(fields))
    {
      var i := 0;
      while i < |fields|
        invariant 0 <= i <= |fields| == |old(fields)|
        invariant ident == old(ident)
        invariant forall k :: 0 <= k < i ==> fields[k] == StripField(old(fields)[k])
        invariant forall k :: i <= k < |fields| ==> fields[k] == old(fields)[k]
      {
        fields := fields[i := StripField(fields[i])];
        i := i + 1;
      }
    }

    /** `ProcessItem::process` for structs. The initialisers are built from a copy of the
        fields before any of them is touched, so a failing field leaves the struct as it was;
        the stripping happens before the impl is generated. */
    method Process(attrs: BrickAttributes, supportedType: SupportedType) returns (r: Result<Output>)
      modifies this
      ensures ident == old(ident)
      ensures FieldTemplates(old(fields)).Err? ==>
                r == Err(FieldTemplates(old(fields)).error) && fields == old(fields)
      ensures FieldTemplates(old(fields)).Ok? ==>
                var impl := attrs.GenerateConversionTemplate(ident, FieldTemplates(old(fields)).value, supportedType);
                && fields == StripAll(old(fields))
                && (impl.Ok? ==> r == Ok(Output(StructDecl(ident, fields), impl.value)))
                && (impl.Err? ==> r == Err(impl.error))
    {
      var processedFields: seq<Member> := [];
      var fs := fields;
      for i := 0 to |fs|
        invariant fields == old(fields) && fs == fields && ident == old(ident)
        invariant FieldTemplates(fs[..i]) == Ok(processedFields)
      {
        var field := fs[i];
        assert fs[..i + 1][..i] == fs[..i];
        if field.ident.None? {
          FieldTemplatesPrefixErr(fs, i + 1);
          return Err(Panic(NoNameMessage));
        }
        var fieldAttrs := CollectFieldDirectives(field.attrs);
        if fieldAttrs.Err? {
          FieldTemplatesPrefixErr(fs, i + 1);
          return Err(fieldAttrs.error);
        }
        var t := CreateStructTemplate(field.ident.value, fieldAttrs.value);
        processedFields := processedFields + [Init(t)];
      }
      assert fs[..|fs|] == fs;
      StripBrickFields();
      var expanded := attrs.GenerateConversionTemplate(ident, processedFields, supportedType);
      if expanded.Err? {
        return Err(expanded.error);
      }
      r := Ok(Output(StructDecl(ident, fields), expanded.value));
    }
  }
}
