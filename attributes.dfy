/** The top-level `#[brick(...)]` arguments of the current pipeline and the synthesis of the
    conversion impl from the member templates (src/attributes.rs). */
module Attributes {
  import opened Results
  import opened Syntax
  import opened Generated

  /** The settings a `BrickAttributes` value holds. */
  datatype Config = Config(converter: ConverterType, source: Option<Ident>, errorKind: Option<string>)

  /** `#[derive(Default)]`: From, no source, no error kind. */
  const DefaultConfig: Config := Config(From, None, None)

  const AttributeKeys: set<string> := {"converter", "source", "try_error_kind"}

  const NoSourceMessage := "not implemented: Expect supported_type to be a struct or an enum"
  const NoErrorKindMessage := "Expect try_error_kind to be provided"

  /** A `source = "..."` item that carries a string, the only form that sets the source. */
  predicate SetsSource(m: Meta) {
    GetIdent(m.path) == Some("source") && m.value.Value? && m.value.lit.LitStr?
  }

  /** One call of `BrickAttributes::parse` on settings `c`: the new settings, or the error. */
  function ApplyMeta(c: Config, meta: Meta): (r: Result<Config>)
    ensures (GetIdent(meta.path).None? || GetIdent(meta.path).value !in AttributeKeys)
            <==> r == Err(CompileError("Unknown attribute"))
    ensures r.Ok? && GetIdent(meta.path) != Some("converter") ==> r.value.converter == c.converter
    ensures r.Ok? && !SetsSource(meta) ==> r.value.source == c.source
    ensures r.Ok? && GetIdent(meta.path) != Some("try_error_kind") ==> r.value.errorKind == c.errorKind
    ensures GetIdent(meta.path) == Some("converter") ==>
              (r.Ok? <==> meta.value.Value? && meta.value.lit.LitStr?)
              && (r.Ok? ==> r.value.converter == ConverterOf(meta.value.lit.text))
    ensures SetsSource(meta) ==> r == Ok(c.(source := Some(meta.value.lit.text)))
    ensures GetIdent(meta.path) == Some("source") ==> (r.Ok? <==> meta.value.Value?)
    ensures GetIdent(meta.path) == Some("try_error_kind") ==>
              (r.Ok? <==> meta.value.Value? && meta.value.lit.LitStr?)
              && (r.Ok? ==> r.value.errorKind == Some(meta.value.lit.text))
  {
    match GetIdent(meta.path)
    case None => Err(CompileError("Unknown attribute"))
    case Some(ident) =>
      if ident == "converter" then
        var s :- MetaStr(meta.value);
        Ok(c.(converter := ConverterOf(s)))
      else if ident == "source" then
        match meta.value
        case NoValue => Err(CompileError("expected `=`"))
        case Value(l) => if l.LitStr? then Ok(c.(source := Some(l.text))) else Ok(c)
      else if ident == "try_error_kind" then
        var e :- MetaStr(meta.value);
        Ok(c.(errorKind := Some(e)))
      else
        Err(CompileError("Unknown attribute"))
  }

  /** Successive calls of `parse`, one per nested meta item, stopping at the first error. */
  function ApplyMetas(c: Config, metas: seq<Meta>): Result<Config>
    decreases |metas|
  {
    if metas == [] then Ok(c)
    else
      var c' :- ApplyMetas(c, metas[..|metas| - 1]);
      ApplyMeta(c', metas[|metas| - 1])
  }

  /** Repeated `source` keys overwrite each other: the last one carrying a string wins. */
  lemma {:induction false} LastSourceWins(c: Config, pre: seq<Meta>, s: string, post: seq<Meta>)
    requires forall i :: 0 <= i < |post| ==> !SetsSource(post[i])
    requires ApplyMetas(c, pre + [Meta(Path(false, ["source"]), Value(LitStr(s)))] + post).Ok?
    ensures ApplyMetas(c, pre + [Meta(Path(false, ["source"]), Value(LitStr(s)))] + post).value.source == Some(s)
    decreases |post|
  {
    var m := Meta(Path(false, ["source"]), Value(LitStr(s)));
    var all := pre + [m] + post;
    if post == [] {
      assert all[..|all| - 1] == pre;
      assert SetsSource(m);
    } else {
      assert all[..|all| - 1] == pre + [m] + post[..|post| - 1];
      LastSourceWins(c, pre, s, post[..|post| - 1]);
    }
  }

  /** `BrickAttributes`: the settings, updated in place by each call of `parse`. */
  class BrickAttributes {
    var converter: ConverterType
    var source: Option<Ident>
    var errorKind: Option<string>

    function Settings(): Config
      reads this
    {
      Config(converter, source, errorKind)
    }

    /** `BrickAttributes::default()`. */
    constructor ()
      ensures Settings() == DefaultConfig
    {
      converter := From;
      source := None;
      errorKind := None;
    }

    /** `BrickAttributes::parse`. On an error nothing has been assigned yet. */
    method Parse(meta: Meta) returns (r: Result<()>)
      modifies this
      ensures ApplyMeta(old(Settings()), meta).Ok? ==>
                r == Ok(()) && Settings() == ApplyMeta(old(Settings()), meta).value
      ensures ApplyMeta(old(Settings()), meta).Err? ==>
                r == Err(ApplyMeta(old(Settings()), meta).error) && Settings() == old(Settings())
    {
      var ident := GetIdent(meta.path);
      if ident.None? {
        return Err(CompileError("Unknown attribute"));
      }
      if ident.value == "converter" {
        var converterLit := MetaStr(meta.value);
        if converterLit.Err? {
          return Err(converterLit.error);
        }
        converter := ConverterOf(converterLit.value);
        r := Ok(());
      } else if ident.value == "source" {
        if meta.value.NoValue? {
          return Err(CompileError("expected `=`"));
        }
        if meta.value.lit.LitStr? {
          source := Some(meta.value.lit.text);
        }
        r := Ok(());
      } else if ident.value == "try_error_kind" {
        var kind := MetaStr(meta.value);
        if kind.Err? {
          return Err(kind.error);
        }
        errorKind := Some(kind.value);
        r := Ok(());
      } else {
        r := Err(CompileError("Unknown attribute"));
      }
    }

    /** `BrickAttributes::generate_conversion_template`: the member templates, in the given
        order, inside `Self { ... }` (struct) or `match arg { ... }` (enum), inside a From impl,
        or a TryFrom impl with the error kind as `Error` and the body wrapped in `Ok(...)`.
        A missing source, or TryFrom without an error kind, aborts the expansion. */
    function GenerateConversionTemplate(targetIdent: Ident, transformFields: seq<Member>, supportedType: SupportedType)
      : (r: Result<Impl>)
      reads this
      ensures source.None? <==> r == Err(Panic(NoSourceMessage))
      ensures source.Some? && converter == TryFrom && errorKind.None? <==> r == Err(Panic(NoErrorKindMessage))
      ensures r.Ok? <==> source.Some? && (converter == TryFrom ==> errorKind.Some?)
      ensures r.Ok? ==> r.value.source == source.value && r.value.target == targetIdent && r.value.kind == converter
      ensures r.Ok? ==> r.value.errorType == if converter == TryFrom then errorKind else None
      ensures r.Ok? ==> BodyMembers(r.value.body) == transformFields
      ensures r.Ok? ==>
                var b := if supportedType == Struct then StructLit(transformFields) else MatchArg(transformFields);
                r.value.body == if converter == TryFrom then OkWrap(b) else b
    {
      if source.None? then
        Err(Panic(NoSourceMessage))
      else
        var fields := match supportedType
          case Struct => StructLit(transformFields)
          case Enum => MatchArg(transformFields);
        match converter
        case From => Ok(Impl(From, source.value, targetIdent, None, fields))
        case TryFrom =>
          if errorKind.None? then Err(Panic(NoErrorKindMessage))
          else Ok(Impl(TryFrom, source.value, targetIdent, errorKind, OkWrap(fields)))
    }
  }
}
