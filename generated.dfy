/** The code the macro emits, as data instead of token streams. */
module Generated {
  import opened Results
  import opened Syntax

  /** Which conversion trait is implemented. */
  datatype ConverterType = From | TryFrom

  /** The value a struct field initialiser gives its field:
      DefaultValue: `Default::default()`;
      Read(src): `arg.src`;
      Call(ns, func, src, fallible): `ns::func(arg.src)`, or `func(arg.src)` when ns is None,
      with a trailing `?` when fallible. */
  datatype FieldRhs =
    | DefaultValue
    | Read(src: Ident)
    | Call(ns: Option<Ident>, func: Ident, src: Ident, fallible: bool)

  /** `name: rhs` inside a struct literal. */
  datatype FieldInit = FieldInit(name: Ident, rhs: FieldRhs)

  /** The payload part of a variant pattern or constructor:
      nothing, `(a, b, ...)` or `{k1, k2, ...}`. */
  datatype Binding = NoBinding | TupleBinding(names: seq<Ident>) | BraceBinding(names: seq<Ident>)

  /** The argument list of a transform call in a match arm: the bound names as positional
      arguments in pattern order, `f(a, b, ...)`, or the whole source value `f(source::variant)`. */
  datatype CallArgs = ArgList(names: seq<Ident>) | WholeValue(source: Option<Ident>, variant: Ident)

  /** The right-hand side of a match arm: `Self::variant binding`, or a call of a transform function. */
  datatype ArmRhs =
    | Construct(variant: Ident, binding: Binding)
    | CallFn(ns: Option<Ident>, func: Ident, args: CallArgs)

  /** `source::variant binding => rhs`. The source is optional because an absent source
      identifier is spliced as nothing. */
  datatype Arm = Arm(source: Option<Ident>, variant: Ident, binding: Binding, rhs: ArmRhs)

  /** One element of the comma-separated list inside the generated body.
      Empty is the empty token stream an excluded enum variant produces;
      LegacyInit is `name: func(arg.name)` / `name: arg.name` of the older pipeline. */
  datatype Member =
    | Init(init: FieldInit)
    | MatchArm(arm: Arm)
    | Empty
    | LegacyInit(name: Option<Ident>, func: Option<Ident>)

  /** `Self { members }`, `match arg { members }`, or `Ok(expr)`. */
  datatype Expr = StructLit(members: seq<Member>) | MatchArg(arms: seq<Member>) | OkWrap(inner: Expr)

  /** `impl kind<source> for target { [type Error = errorType;] fn ...(arg: source) ... { body } }`. */
  datatype Impl = Impl(kind: ConverterType, source: Ident, target: Ident, errorType: Option<string>, body: Expr)

  /** The members listed in a body, looking through `Ok(...)`. */
  function BodyMembers(e: Expr): seq<Member> {
    match e
    case StructLit(ms) => ms
    case MatchArg(ms) => ms
    case OkWrap(inner) => BodyMembers(inner)
  }

  /** The `converter = "..."` string: "TryFrom" selects TryFrom and every other string,
      "From" included, falls back to From (src/attributes.rs:35-39, src/lib.rs:31-35). */
  function ConverterOf(s: string): (c: ConverterType)
    ensures c == TryFrom <==> s == "TryFrom"
    ensures c == From <==> s != "TryFrom"
  {
    if s == "From" then From
    else if s == "TryFrom" then TryFrom
    else From
  }
}
