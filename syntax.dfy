/** The parts of the host language's syntax tree that the macro reads: literals,
    paths, attribute arguments, struct fields and struct declarations.
    Identifiers are plain strings; spans are not modelled. */
module Syntax {
  import opened Results

  type Ident = string

  /** A literal token: a string literal, a boolean literal, or any other literal (numbers, chars, ...). */
  datatype Lit = LitStr(text: string) | LitBool(flag: bool) | LitOther(token: string)

  /** A path such as `converter`, `a::b` or `::x`; generic arguments on segments are not modelled. */
  datatype Path = Path(leadingColon: bool, segments: seq<Ident>)

  /** `Path::get_ident`: the identifier when the path is a single plain segment. */
  function GetIdent(p: Path): Option<Ident> {
    if !p.leadingColon && |p.segments| == 1 then Some(p.segments[0]) else None
  }

  /** `Path::is_ident`. */
  predicate IsIdent(p: Path, name: Ident) {
    GetIdent(p) == Some(name)
  }

  /** One `key = value` argument inside an attribute's parentheses, already split at commas. */
  datatype RawArg = RawArg(key: Ident, value: Lit)

  /** One nested meta item of the top-level attribute: a path, optionally followed by `= literal`. */
  datatype MetaValue = NoValue | Value(lit: Lit)
  datatype Meta = Meta(path: Path, value: MetaValue)

  /** An outer attribute `#[path(args)]` on a field. */
  datatype Attribute = Attribute(path: Path, args: seq<RawArg>)

  /** A struct field; `ident` is None for the fields of a tuple struct. */
  datatype Field = Field(ident: Option<Ident>, attrs: seq<Attribute>, ty: string)

  datatype StructDecl = StructDecl(ident: Ident, fields: seq<Field>)

  /** The kinds of item the conversion generator handles (src/item/mod.rs). */
  datatype SupportedType = Struct | Enum

  /** Parsing a `LitStr` token out of a literal. */
  function ParseLitStr(l: Lit): (r: Result<string>)
    ensures r.Ok? <==> l.LitStr?
  {
    if l.LitStr? then Ok(l.text) else Err(CompileError("expected string literal"))
  }

  /** Parsing a `LitBool` token out of a literal. */
  function ParseLitBool(l: Lit): (r: Result<bool>)
    ensures r.Ok? <==> l.LitBool?
  {
    if l.LitBool? then Ok(l.flag) else Err(CompileError("expected boolean literal"))
  }

  /** `meta.value()?.parse::<LitStr>()?`: the `=` must be there and be followed by a string literal. */
  function MetaStr(v: MetaValue): (r: Result<string>)
    ensures r.Ok? <==> v.Value? && v.lit.LitStr?
  {
    match v
    case NoValue => Err(CompileError("expected `=`"))
    case Value(l) => ParseLitStr(l)
  }
}
