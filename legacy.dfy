/** The older single-file pipeline, the one registered as the `brick` and `brick_field`
    attribute macros (src/lib.rs): `source_struct` instead of `source`, one directive
    (`convert_field_func`), only the first `brick_field` attribute of a field, structs only. */
module Legacy {
  import opened Results
  import opened Syntax
  import opened Generated
  import Fields
  import opened StructItem

  /** The settings a `BrikStructAttributes` value holds. */
  datatype LegacyConfig = LegacyConfig(converter: ConverterType, sourceStruct: Option<string>)

  /** `#[derive(Default)]`: From and no source struct. */
  const DefaultLegacyConfig: LegacyConfig := LegacyConfig(From, None)

  const UnknownAttribute := "Unknown attribute"
  const ParseExpectMessage := "Expect to parse brick_fields arg"
  const UnwrapNoneMessage := "called `Option::unwrap()` on a `None` value"
  /** The `Error` type the TryFrom impl of this pipeline declares, as written. */
  const LegacyErrorType := "Result<Self, Self::Error>"

  /** One call of `BrikStructAttributes::parse` on settings `c`. */
  function ApplyLegacyMeta(c: LegacyConfig, meta: Meta): (r: Result<LegacyConfig>)
    ensures (!IsIdent(meta.path, "converter") && !IsIdent(meta.path, "source_struct"))
            <==> r == Err(CompileError(UnknownAttribute))
    ensures r.Ok? <==> (IsIdent(meta.path, "converter") || IsIdent(meta.path, "source_struct"))
                       && meta.value.Value? && meta.value.lit.LitStr?
    ensures r.Ok? && IsIdent(meta.path, "converter") ==>
              r.value == c.(converter := ConverterOf(meta.value.lit.text))
    ensures r.Ok? && IsIdent(meta.path, "source_struct") ==>
              r.value == c.(sourceStruct := Some(meta.value.lit.text))
  {
    if IsIdent(meta.path, "converter") then
      var s :- MetaStr(meta.value);
      Ok(c.(converter := ConverterOf(s)))
    else if IsIdent(meta.path, "source_struct") then
      var s :- MetaStr(meta.value);
      Ok(c.(sourceStruct := Some(s)))
    else
      Err(CompileError(UnknownAttribute))
  }

  /** Successive calls of `parse` made by `syn::meta::parser`, stopping at the first error. */
  function ApplyLegacyMetas(c: LegacyConfig, metas: seq<Meta>): Result<LegacyConfig>
    decreases |metas|
  {
    if metas == [] then Ok(c)
    else
      var c' :- ApplyLegacyMetas(c, metas[..|metas| - 1]);
      ApplyLegacyMeta(c', metas[|metas| - 1])
  }

  /** Once a prefix of the items fails, the whole list fails with the same error. */
  lemma {:induction false} ApplyLegacyMetasPrefixErr(c: LegacyConfig, metas: seq<Meta>, i: nat)
    requires i <= |metas| && ApplyLegacyMetas(c, metas[..i]).Err?
    ensures ApplyLegacyMetas(c, metas) == ApplyLegacyMetas(c, metas[..i])
    decreases |metas| - i
  {
    if i < |metas| {
      assert metas[..i + 1][..i] == metas[..i];
      ApplyLegacyMetasPrefixErr(c, metas, i + 1);
    } else {
      assert metas[..i] == metas;
    }
  }

  /** `BrikStructAttributes`, updated in place by each call of `parse`. */
  class BrikStructAttributes {
    var converter: ConverterType
    var sourceStruct: Option<string>

    function Settings(): LegacyConfig
      reads this
    {
      LegacyConfig(converter, sourceStruct)
    }

    constructor ()
      ensures Settings() == DefaultLegacyConfig
    {
      converter := From;
      sourceStruct := None;
    }

    /** `BrikStructAttributes::parse`. On an error nothing has been assigned. */
    method Parse(meta: Meta) returns (r: Result<()>)
      modifies this
      ensures ApplyLegacyMeta(old(Settings()), meta).Ok? ==>
                r == Ok(()) && Settings() == ApplyLegacyMeta(old(Settings()), meta).value
      ensures ApplyLegacyMeta(old(Settings()), meta).Err? ==>
                r == Err(ApplyLegacyMeta(old(Settings()), meta).error) && Settings() == old(Settings())
    {
      if IsIdent(meta.path, "converter") {
        var converterLit := MetaStr(meta.value);
        if converterLit.Err? {
          return Err(converterLit.error);
        }
        converter := ConverterOf(converterLit.value);
        r := Ok(());
      } else if IsIdent(meta.path, "source_struct") {
        var source := MetaStr(meta.value);
        if source.Err? {
          return Err(source.error);
        }
        sourceStruct := Some(source.value);
        r := Ok(());
      } else {
        r := Err(CompileError(UnknownAttribute));
      }
    }
  }

  /** The one directive of this pipeline. */
  datatype LegacyFieldArg = ConvertFieldFn(func: Ident)

  /** `BrickFieldArgs::parse` of this pipeline: only `convert_field_func` is known. */
  function ParseLegacyFieldArg(raw: RawArg): (r: Result<LegacyFieldArg>)
    ensures raw.key != "convert_field_func" <==> r == Err(CompileError(UnknownAttribute))
    ensures r.Ok? <==> raw.key == "convert_field_func" && raw.value.LitStr?
    ensures r.Ok? ==> raw.value == LitStr(r.value.func)
  {
    if raw.key == "convert_field_func" then
      var f :- ParseLitStr(raw.value);
      Ok(ConvertFieldFn(f))
    else
      Err(CompileError(UnknownAttribute))
  }

  /** `attr.parse_args()` and `parse_macro_input!(args as BrickFieldArgs)`: exactly one
      directive, with nothing after it. */
  function ParseLegacyArgs(args: seq<RawArg>): (r: Result<LegacyFieldArg>)
    ensures r.Ok? <==> |args| == 1 && ParseLegacyFieldArg(args[0]).Ok?
    ensures r.Ok? ==> r == ParseLegacyFieldArg(args[0])
  {
    if |args| == 0 then
      Err(CompileError("unexpected end of input, expected identifier"))
    else
      var a :- ParseLegacyFieldArg(args[0]);
      if |args| > 1 then Err(CompileError("unexpected token")) else Ok(a)
  }

  /** The `brick_field` attribute macro: it checks its arguments and gives its input back
      unchanged. */
  function BrickField<T>(args: seq<RawArg>, input: T): (r: Result<T>)
    ensures r.Ok? <==> ParseLegacyArgs(args).Ok?
    ensures r.Ok? ==> r.value == input
    ensures r.Err? ==> r.error == ParseLegacyArgs(args).error
  {
    match ParseLegacyArgs(args)
    case Err(e) => Err(e)
    case Ok(_) => Ok(input)
  }

  /** `attrs.iter().find_map(...)`: the first `brick_field` attribute, if any. */
  function FirstBrickField(attrs: seq<Attribute>): (r: Option<Attribute>)
    ensures r.None? <==> forall i :: 0 <= i < |attrs| ==> !IsBrickField(attrs[i])
    ensures r.Some? ==> exists i :: 0 <= i < |attrs| && attrs[i] == r.value && IsBrickField(attrs[i])
                                    && forall j :: 0 <= j < i ==> !IsBrickField(attrs[j])
  {
    if attrs == [] then None
    else if IsBrickField(attrs[0]) then Some(attrs[0])
    else FirstBrickField(attrs[1..])
  }

  /** The initialiser of one field: `name: f(arg.name)` when its first `brick_field`
      attribute names a function, `name: arg.name` when it has none; a first `brick_field`
      attribute that does not parse aborts the expansion. The field name is used as it is,
      absent for a tuple-struct field. */
  function LegacyFieldTemplate(f: Field): Result<Member> {
    match FirstBrickField(f.attrs)
    case None => Ok(LegacyInit(f.ident, None))
    case Some(attr) =>
      match ParseLegacyArgs(attr.args)
      case Err(e) => Err(Panic(ParseExpectMessage + ": " + e.message))
      case Ok(ConvertFieldFn(func)) => Ok(LegacyInit(f.ident, Some(func)))
  }

  /** `fields.iter().map(...).collect()`: one initialiser per field, in field order. */
  function LegacyFieldTemplates(fs: seq<Field>): (r: Result<seq<Member>>)
    ensures r.Ok? <==> forall i :: 0 <= i < |fs| ==> LegacyFieldTemplate(fs[i]).Ok?
    ensures r.Ok? ==> |r.value| == |fs|
                      && forall i :: 0 <= i < |fs| ==> r.value[i] == LegacyFieldTemplate(fs[i]).value
  {
    if fs == [] then Ok([])
    else
      var t :- LegacyFieldTemplate(fs[0]);
      var rest :- LegacyFieldTemplates(fs[1..]);
      Ok([t] + rest)
  }

  /** Only the first `brick_field` attribute of a field counts: whatever follows it, even
      attributes that would not parse, changes nothing. */
  lemma OnlyFirstBrickFieldUsed(f: Field, pre: seq<Attribute>, a: Attribute, post: seq<Attribute>)
    requires forall i :: 0 <= i < |pre| ==> !IsBrickField(pre[i])
    requires IsBrickField(a)
    ensures LegacyFieldTemplate(f.(attrs := pre + [a] + post)) == LegacyFieldTemplate(f.(attrs := [a]))
  {
    var attrs := pre + [a] + post;
    assert attrs[|pre|] == a;
    var i :| 0 <= i < |attrs| && attrs[i] == FirstBrickField(attrs).value && IsBrickField(attrs[i])
             && forall j :: 0 <= j < i ==> !IsBrickField(attrs[j]);
    assert i == |pre|;
  }

  /** What a legacy initialiser means in the current pipeline's terms. */
  function AsFieldInit(name: Ident, func: Option<Ident>): FieldInit {
    FieldInit(name, if func.Some? then Call(None, func.value, name, false) else Read(name))
  }

  /** For a named field, the legacy initialiser is the one the current pipeline generates
      from the same function given as `transform_func`: a call without namespace and without
      `?` on the same-named source field, or a plain read of it. */
  lemma LegacyMatchesCurrentPipeline(f: Field, name: Ident)
    requires f.ident == Some(name) && LegacyFieldTemplate(f).Ok?
    ensures LegacyFieldTemplate(f).value.LegacyInit?
    ensures var m := LegacyFieldTemplate(f).value;
            AsFieldInit(name, m.func)
            == Fields.StructTemplate(name, if m.func.Some? then [Fields.ConvertFieldFn(m.func.value)] else [])
  {
  }

  /** `create_expanded`: the initialisers, in the given order, in `Self { ... }`, inside a From
      impl or a TryFrom impl whose body is wrapped in `Ok(...)`; a missing `source_struct`
      aborts the expansion. */
  function CreateExpanded(attr: LegacyConfig, targetName: Ident, deFields: seq<Member>): (r: Result<Impl>)
    ensures r.Ok? <==> attr.sourceStruct.Some?
    ensures r.Err? ==> r.error == Panic(UnwrapNoneMessage)
    ensures r.Ok? ==> r.value.source == attr.sourceStruct.value && r.value.target == targetName
                      && r.value.kind == attr.converter
    ensures r.Ok? ==> BodyMembers(r.value.body) == deFields
    ensures r.Ok? ==> r.value.body == if attr.converter == TryFrom then OkWrap(StructLit(deFields)) else StructLit(deFields)
    ensures r.Ok? ==> r.value.errorType == if attr.converter == TryFrom then Some(LegacyErrorType) else None
  {
    match attr.sourceStruct
    case None => Err(Panic(UnwrapNoneMessage))
    case Some(source) =>
      match attr.converter
      case From => Ok(Impl(From, source, targetName, None, StructLit(deFields)))
      case TryFrom => Ok(Impl(TryFrom, source, targetName, Some(LegacyErrorType), OkWrap(StructLit(deFields))))
  }

  /** The whole expansion of `#[brick(...)]` on a struct: parse the arguments, build the
      initialisers, strip the `brick_field` attributes from a copy of the struct and emit
      that copy followed by the impl. */
  function LegacyExpansion(metas: seq<Meta>, target: StructDecl): Result<Output> {
    var config :- ApplyLegacyMetas(DefaultLegacyConfig, metas);
    var fields :- LegacyFieldTemplates(target.fields);
    var expanded :- CreateExpanded(config, target.ident, fields);
    Ok(Output(StructDecl(target.ident, StripAll(target.fields)), expanded))
  }

  /** The `brick` attribute macro. */
  method Brick(metas: seq<Meta>, target: StructDecl) returns (r: Result<Output>)
    ensures r == LegacyExpansion(metas, target)
  {
    var attrs := new BrikStructAttributes();
    for i := 0 to |metas|
      invariant ApplyLegacyMetas(DefaultLegacyConfig, metas[..i]) == Ok(attrs.Settings())
    {
      assert metas[..i + 1][..i] == metas[..i];
      var parsed := attrs.Parse(metas[i]);
      if parsed.Err? {
        ApplyLegacyMetasPrefixErr(DefaultLegacyConfig, metas, i + 1);
        return Err(parsed.error);
      }
    }
    assert metas[..|metas|] == metas;
    var fields := LegacyFieldTemplates(target.fields);
    if fields.Err? {
      return Err(fields.error);
    }
    var inputClone := new ItemStruct(target);
    inputClone.StripBrickFields();
    var expanded := CreateExpanded(attrs.Settings(), target.ident, fields.value);
    if expanded.Err? {
      return Err(expanded.error);
    }
    r := Ok(Output(StructDecl(inputClone.ident, inputClone.fields), expanded.value));
  }

  /** The emitted struct is the input with every `brick_field` attribute removed, and the
      impl lists one initialiser per field in field order. */
  lemma LegacyExpansionShape(metas: seq<Meta>, target: StructDecl)
    requires LegacyExpansion(metas, target).Ok?
    ensures var out := LegacyExpansion(metas, target).value;
            && out.item.ident == target.ident
            && |out.item.fields| == |target.fields|
            && (forall i, a :: 0 <= i < |target.fields| && a in out.item.fields[i].attrs ==> !IsBrickField(a))
            && |BodyMembers(out.impl.body)| == |target.fields|
            && forall i :: 0 <= i < |target.fields| ==>
                 BodyMembers(out.impl.body)[i] == LegacyFieldTemplate(target.fields[i]).value
  {
    StripAllCases(target.fields);
  }

  /** Without `source_struct` the expansion aborts once the arguments and fields are read. */
  lemma LegacyMissingSourceAborts(metas: seq<Meta>, target: StructDecl)
    requires ApplyLegacyMetas(DefaultLegacyConfig, metas).Ok?
    requires ApplyLegacyMetas(DefaultLegacyConfig, metas).value.sourceStruct.None?
    requires LegacyFieldTemplates(target.fields).Ok?
    ensures LegacyExpansion(metas, target) == Err(Panic(UnwrapNoneMessage))
  {
  }
}
