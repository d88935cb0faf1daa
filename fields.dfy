/** Per-member directives (`#[brick_field(...)]`) of the current pipeline: parsing one
    `key = value` directive, folding a member's directives, and turning the folded
    directives into a struct field initialiser or an enum match arm (src/fields.rs). */
module Fields {
  import opened Results
  import opened Syntax
  import opened Generated

  /** One parsed directive (`BrickFieldArgs`). */
  datatype FieldArg =
    | ConvertFieldFn(func: Ident)
    | FnFromExtern(ns: Ident)
    | Rename(from: Ident)
    | Exclude(on: bool)
    | IsFallible(on: bool)

  /** The payload shape of a target enum variant (`EnumInnerFields`):
      no payload, positional bindings `(a, b, ...)`, or named keys `{k1, k2, ...}`. */
  datatype EnumInnerFields = Unit | Unnamed(bindings: seq<Ident>) | Named(keys: seq<Ident>)

  const Keywords: set<string> := {"transform_func", "fn_from_extern", "rename", "exclude", "is_fallible"}

  /** The keyword that introduces a directive. */
  function Keyword(a: FieldArg): string {
    match a
    case ConvertFieldFn(_) => "transform_func"
    case FnFromExtern(_) => "fn_from_extern"
    case Rename(_) => "rename"
    case Exclude(_) => "exclude"
    case IsFallible(_) => "is_fallible"
  }

  /** The literal a directive carries. */
  function Literal(a: FieldArg): Lit {
    match a
    case ConvertFieldFn(f) => LitStr(f)
    case FnFromExtern(t) => LitStr(t)
    case Rename(n) => LitStr(n)
    case Exclude(b) => LitBool(b)
    case IsFallible(b) => LitBool(b)
  }

  /** `BrickFieldArgs::parse`: the keyword selects the directive and the kind of literal it
      takes; an unknown keyword is rejected before its value is looked at. */
  function ParseFieldArg(raw: RawArg): (r: Result<FieldArg>)
    ensures raw.key !in Keywords <==> r == Err(CompileError("Attribute not supported"))
    ensures r.Ok? ==> Keyword(r.value) == raw.key && Literal(r.value) == raw.value
    ensures raw.key in Keywords ==>
              (r.Ok? <==> (if raw.key in {"exclude", "is_fallible"} then raw.value.LitBool? else raw.value.LitStr?))
  {
    if raw.key == "transform_func" then
      var f :- ParseLitStr(raw.value); Ok(ConvertFieldFn(f))
    else if raw.key == "fn_from_extern" then
      var t :- ParseLitStr(raw.value); Ok(FnFromExtern(t))
    else if raw.key == "rename" then
      var n :- ParseLitStr(raw.value); Ok(Rename(n))
    else if raw.key == "exclude" then
      var b :- ParseLitBool(raw.value); Ok(Exclude(b))
    else if raw.key == "is_fallible" then
      var b :- ParseLitBool(raw.value); Ok(IsFallible(b))
    else
      Err(CompileError("Attribute not supported"))
  }

  /** Every directive is read back from its own keyword and literal. */
  lemma ParseFieldArgInverse(a: FieldArg)
    ensures ParseFieldArg(RawArg(Keyword(a), Literal(a))) == Ok(a)
  {
  }

  /** `Punctuated::<BrickFieldArgs, Token![,]>::parse_terminated`: every argument is parsed,
      in order, and the first one that fails decides the error. */
  function ParseFieldArgs(raws: seq<RawArg>): (r: Result<seq<FieldArg>>)
    ensures r.Ok? <==> forall i :: 0 <= i < |raws| ==> ParseFieldArg(raws[i]).Ok?
    ensures r.Ok? ==> |r.value| == |raws| && forall i :: 0 <= i < |raws| ==> ParseFieldArg(raws[i]) == Ok(r.value[i])
    ensures r.Err? ==> exists i :: 0 <= i < |raws| && ParseFieldArg(raws[i]) == Err(r.error)
                                   && forall j :: 0 <= j < i ==> ParseFieldArg(raws[j]).Ok?
  {
    if raws == [] then Ok([])
    else
      var a :- ParseFieldArg(raws[0]);
      var rest :- ParseFieldArgs(raws[1..]);
      Ok([a] + rest)
  }

  // Selectors: the value a directive gives to one setting, if it speaks of that setting.

  function RenameOf(a: FieldArg): Option<Ident> {
    if a.Rename? then Some(a.from) else None
  }

  function ExternOf(a: FieldArg): Option<Ident> {
    if a.FnFromExtern? then Some(a.ns) else None
  }

  function FuncOf(a: FieldArg): Option<Ident> {
    if a.ConvertFieldFn? then Some(a.func) else None
  }

  function FallibleOf(a: FieldArg): Option<bool> {
    if a.IsFallible? then Some(a.on) else None
  }

  /** The value set by the LAST directive that speaks of the setting `pick` selects. */
  function LastOf<T>(args: seq<FieldArg>, pick: FieldArg -> Option<T>): (r: Option<T>)
    ensures r.None? <==> forall i :: 0 <= i < |args| ==> pick(args[i]).None?
    ensures r.Some? ==> exists i :: 0 <= i < |args| && pick(args[i]) == r
                                    && forall j :: i < j < |args| ==> pick(args[j]).None?
    decreases |args|
  {
    if |args| == 0 then None
    else if pick(args[|args| - 1]).Some? then pick(args[|args| - 1])
    else LastOf(args[..|args| - 1], pick)
  }

  /** Dropping the last element of a concatenation drops it from the second part. */
  lemma ConcatInit<T>(xs: seq<T>, ys: seq<T>)
    requires ys != []
    ensures (xs + ys)[..|xs + ys| - 1] == xs + ys[..|ys| - 1]
    ensures (xs + ys)[|xs + ys| - 1] == ys[|ys| - 1]
  {
  }

  /** Last-write-wins across a concatenation: the later part decides when it speaks at all. */
  lemma {:induction false} LastOfConcat<T>(xs: seq<FieldArg>, ys: seq<FieldArg>, pick: FieldArg -> Option<T>)
    ensures LastOf(xs + ys, pick) == if LastOf(ys, pick).Some? then LastOf(ys, pick) else LastOf(xs, pick)
    decreases |ys|
  {
    if ys == [] {
      assert xs + ys == xs;
    } else {
      ConcatInit(xs, ys);
      LastOfConcat(xs, ys[..|ys| - 1], pick);
    }
  }

  /** A directive that does not speak of a setting can be removed without changing it. */
  lemma LastOfSkips<T>(pre: seq<FieldArg>, x: FieldArg, post: seq<FieldArg>, pick: FieldArg -> Option<T>)
    requires pick(x).None?
    ensures LastOf(pre + [x] + post, pick) == LastOf(pre + post, pick)
  {
    LastOfConcat(pre + [x], post, pick);
    LastOfConcat(pre, [x], pick);
    LastOfConcat(pre, post, pick);
  }

  /** The settings of one member once all its directives have been read. */
  datatype Directives = Directives(from: Ident, ext: Option<Ident>, func: Option<Ident>, exclude: bool, fallible: bool)

  /** The folded directives of member `name`: the source member is the last `rename`, else
      `name` itself; namespace, function and fallibility are the last ones given (fallibility
      false when never given); `exclude` holds once any `exclude = true` appears. */
  function Resolve(name: Ident, args: seq<FieldArg>): Directives {
    Directives(
      LastOf(args, RenameOf).GetOr(name),
      LastOf(args, ExternOf),
      LastOf(args, FuncOf),
      Exclude(true) in args,
      LastOf(args, FallibleOf).GetOr(false))
  }

  /** Reading one more directive updates only the setting it speaks of; `exclude = true`
      switches exclusion on for good. */
  lemma {:induction false} ResolveSnoc(name: Ident, pre: seq<FieldArg>, x: FieldArg)
    ensures var d, d' := Resolve(name, pre), Resolve(name, pre + [x]);
            && d'.from == (if x.Rename? then x.from else d.from)
            && d'.ext == (if x.FnFromExtern? then Some(x.ns) else d.ext)
            && d'.func == (if x.ConvertFieldFn? then Some(x.func) else d.func)
            && d'.exclude == (d.exclude || x == Exclude(true))
            && d'.fallible == (if x.IsFallible? then x.on else d.fallible)
  {
    LastOfConcat(pre, [x], RenameOf);
    LastOfConcat(pre, [x], ExternOf);
    LastOfConcat(pre, [x], FuncOf);
    LastOfConcat(pre, [x], FallibleOf);
  }

  /** `ResolveSnoc` for the prefixes of one directive list, as the folding loops read it. */
  lemma ResolveStep(name: Ident, args: seq<FieldArg>, i: nat)
    requires i < |args|
    ensures var d, d', x := Resolve(name, args[..i]), Resolve(name, args[..i + 1]), args[i];
            && d'.from == (if x.Rename? then x.from else d.from)
            && d'.ext == (if x.FnFromExtern? then Some(x.ns) else d.ext)
            && d'.func == (if x.ConvertFieldFn? then Some(x.func) else d.func)
            && d'.exclude == (d.exclude || x == Exclude(true))
            && d'.fallible == (if x.IsFallible? then x.on else d.fallible)
  {
    assert args[..i + 1] == args[..i] + [args[i]];
    ResolveSnoc(name, args[..i], args[i]);
  }

  /** The field initialiser chosen from folded directives (src/fields.rs:70-94). */
  function StructInit(name: Ident, d: Directives): FieldInit {
    if d.exclude then FieldInit(name, DefaultValue)
    else match d.func
      case Some(f) => FieldInit(name, Call(d.ext, f, d.from, d.fallible))
      case None => FieldInit(name, Read(d.from))
  }

  /** The initialiser generated for struct field `name` with directives `args`. */
  function StructTemplate(name: Ident, args: seq<FieldArg>): FieldInit {
    StructInit(name, Resolve(name, args))
  }

  /** `BrickFieldArgs::create_struct_template`: one pass over the directives updating the
      settings in place, then the choice of initialiser. */
  method CreateStructTemplate(name: Ident, fields: seq<FieldArg>) returns (t: FieldInit)
    ensures t == StructTemplate(name, fields)
  {
    var fromFieldName: Ident := name;
    var fnFromExtern: Option<Ident> := None;
    var func: Option<Ident> := None;
    var toSkip := false;
    var isFallible := false;
    for i := 0 to |fields|
      invariant fromFieldName == Resolve(name, fields[..i]).from
      invariant fnFromExtern == Resolve(name, fields[..i]).ext
      invariant func == Resolve(name, fields[..i]).func
      invariant toSkip == Resolve(name, fields[..i]).exclude
      invariant isFallible == Resolve(name, fields[..i]).fallible
    {
      var field := fields[i];
      ResolveStep(name, fields, i);
      if field.Rename? {
        fromFieldName := field.from;
      }
      if field.FnFromExtern? {
        fnFromExtern := Some(field.ns);
      }
      if field.ConvertFieldFn? {
        func := Some(field.func);
      }
      if field.IsFallible? {
        isFallible := field.on;
      }
      if field.Exclude? && field.on {
        toSkip := true;
      }
    }
    assert fields[..|fields|] == fields;
    t := StructInit(name, Directives(fromFieldName, fnFromExtern, func, toSkip, isFallible));
  }

  /** What the struct initialiser is, case by case: always keyed by the target name; the
      default value exactly when some `exclude = true` is present; otherwise a call of the
      last function (qualified by the last namespace, `?` after it when the last
      `is_fallible` says so) on the source field, or a plain read of the source field. */
  lemma StructTemplateCases(name: Ident, args: seq<FieldArg>)
    ensures StructTemplate(name, args).name == name
    ensures StructTemplate(name, args).rhs == DefaultValue <==> Exclude(true) in args
    ensures Exclude(true) !in args && LastOf(args, FuncOf).None? ==>
              StructTemplate(name, args).rhs == Read(LastOf(args, RenameOf).GetOr(name))
    ensures Exclude(true) !in args && LastOf(args, FuncOf).Some? ==>
              StructTemplate(name, args).rhs
              == Call(LastOf(args, ExternOf), LastOf(args, FuncOf).value,
                      LastOf(args, RenameOf).GetOr(name), LastOf(args, FallibleOf).GetOr(false))
  {
  }

  /** Without any `rename` the source field is the target field itself. */
  lemma NoRenameReadsOwnName(name: Ident, args: seq<FieldArg>)
    requires forall i :: 0 <= i < |args| ==> !args[i].Rename?
    ensures Resolve(name, args).from == name
  {
  }

  /** The last `rename` decides the source field, whatever came before it. */
  lemma RenameLastWins(name: Ident, pre: seq<FieldArg>, n: Ident, post: seq<FieldArg>)
    requires forall i :: 0 <= i < |post| ==> !post[i].Rename?
    ensures Resolve(name, pre + [Rename(n)] + post).from == n
    ensures var t := StructTemplate(name, pre + [Rename(n)] + post);
            t.name == name && (t.rhs.Read? || t.rhs.Call? ==> t.rhs.src == n)
  {
    LastOfConcat(pre + [Rename(n)], post, RenameOf);
    LastOfConcat(pre, [Rename(n)], RenameOf);
  }

  /** One `exclude = true` anywhere makes the field its default value, whatever else is given,
      a later `exclude = false` included. */
  lemma ExcludeSticky(name: Ident, pre: seq<FieldArg>, post: seq<FieldArg>)
    ensures StructTemplate(name, pre + [Exclude(true)] + post) == FieldInit(name, DefaultValue)
  {
    assert (pre + [Exclude(true)] + post)[|pre|] == Exclude(true);
  }

  /** `exclude = false` has no effect at all. */
  lemma ExcludeFalseIsInert(name: Ident, pre: seq<FieldArg>, post: seq<FieldArg>)
    ensures StructTemplate(name, pre + [Exclude(false)] + post) == StructTemplate(name, pre + post)
  {
    LastOfSkips(pre, Exclude(false), post, RenameOf);
    LastOfSkips(pre, Exclude(false), post, ExternOf);
    LastOfSkips(pre, Exclude(false), post, FuncOf);
    LastOfSkips(pre, Exclude(false), post, FallibleOf);
    assert Exclude(true) in pre + [Exclude(false)] + post <==> Exclude(true) in pre + post;
  }

  /** The last `is_fallible` decides whether the call is followed by `?`; it can reset an
      earlier `true` to `false`. */
  lemma FallibleLastWins(name: Ident, pre: seq<FieldArg>, b: bool, post: seq<FieldArg>)
    requires forall i :: 0 <= i < |post| ==> !post[i].IsFallible?
    ensures Resolve(name, pre + [IsFallible(b)] + post).fallible == b
    ensures var t := StructTemplate(name, pre + [IsFallible(b)] + post);
            t.rhs.Call? ==> t.rhs.fallible == b
  {
    LastOfConcat(pre + [IsFallible(b)], post, FallibleOf);
    LastOfConcat(pre, [IsFallible(b)], FallibleOf);
  }

  /** Without a transform function, `is_fallible` and `fn_from_extern` are ignored: adding one
      anywhere leaves the plain read unchanged. */
  lemma PlainReadIgnoresFallibleAndExtern(name: Ident, pre: seq<FieldArg>, x: FieldArg, post: seq<FieldArg>)
    requires x.IsFallible? || x.FnFromExtern?
    requires forall i :: 0 <= i < |pre + post| ==> !(pre + post)[i].ConvertFieldFn?
    ensures StructTemplate(name, pre + [x] + post) == StructTemplate(name, pre + post)
    ensures StructTemplate(name, pre + post).rhs.DefaultValue? || StructTemplate(name, pre + post).rhs.Read?
  {
    LastOfSkips(pre, x, post, RenameOf);
    LastOfSkips(pre, x, post, FuncOf);
    assert Exclude(true) in pre + [x] + post <==> Exclude(true) in pre + post;
  }

  /** The pattern part of a variant's payload. */
  function ShapeBinding(shape: EnumInnerFields): Binding {
    match shape
    case Unit => NoBinding
    case Unnamed(bs) => TupleBinding(bs)
    case Named(ks) => BraceBinding(ks)
  }

  /** The names a pattern binds. */
  function BoundNames(b: Binding): seq<Ident> {
    match b
    case NoBinding => []
    case TupleBinding(ns) => ns
    case BraceBinding(ns) => ns
  }

  /** The bound names an arm's right-hand side refers to. */
  function UsedNames(rhs: ArmRhs): seq<Ident> {
    match rhs
    case Construct(_, b) => BoundNames(b)
    case CallFn(_, _, ArgList(ns)) => ns
    case CallFn(_, _, WholeValue(_, _)) => []
  }

  /** `enum_builder::generate_enum_fn`: the arm for a variant with a transform function. The
      function receives exactly the names the pattern binds, as its positional arguments in
      pattern order, or, for a unit variant, the whole source value; its result is the whole right-hand side. */
  function GenerateEnumFn(source: Option<Ident>, rename: Ident, externFn: Option<Ident>, fnTmpl: Ident,
                          shape: EnumInnerFields): (arm: Arm)
    ensures arm.source == source && arm.variant == rename && arm.binding == ShapeBinding(shape)
    ensures arm.rhs.CallFn? && arm.rhs.ns == externFn && arm.rhs.func == fnTmpl
    ensures arm.rhs.args == if shape.Unit? then WholeValue(source, rename) else ArgList(BoundNames(arm.binding))
  {
    var (matchIdent, fnArgs) :=
      match shape
      case Unnamed(tk) => (TupleBinding(tk), ArgList(tk))
      case Named(tk) => (BraceBinding(tk), ArgList(tk))
      case Unit => (NoBinding, WholeValue(source, rename));
    Arm(source, rename, matchIdent, CallFn(externFn, fnTmpl, fnArgs))
  }

  /** The arm chosen from folded directives (src/fields.rs:136-160); fallibility is not read. */
  function EnumArm(name: Ident, source: Option<Ident>, d: Directives, shape: EnumInnerFields): Member {
    if d.exclude then Empty
    else match d.func
      case Some(f) => MatchArm(GenerateEnumFn(source, d.from, d.ext, f, shape))
      case None =>
        var b := ShapeBinding(shape);
        MatchArm(Arm(source, d.from, b, Construct(name, b)))
  }

  /** The match arm generated for target variant `name` with directives `args`. */
  function EnumTemplate(name: Ident, source: Option<Ident>, args: seq<FieldArg>, shape: EnumInnerFields): Member {
    EnumArm(name, source, Resolve(name, args), shape)
  }

  /** `BrickFieldArgs::create_enum_template`: the same in-place fold without fallibility,
      then the arm (or nothing, for an excluded variant). */
  method CreateEnumTemplate(name: Ident, source: Option<Ident>, fields: seq<FieldArg>, enumFields: EnumInnerFields)
    returns (m: Member)
    ensures m == EnumTemplate(name, source, fields, enumFields)
  {
    var rename: Ident := name;
    var toSkip := false;
    var func: Option<Ident> := None;
    var fnFromExtern: Option<Ident> := None;
    for i := 0 to |fields|
      invariant rename == Resolve(name, fields[..i]).from
      invariant toSkip == Resolve(name, fields[..i]).exclude
      invariant func == Resolve(name, fields[..i]).func
      invariant fnFromExtern == Resolve(name, fields[..i]).ext
    {
      var field := fields[i];
      ResolveStep(name, fields, i);
      if field.Rename? {
        rename := field.from;
      }
      if field.Exclude? && field.on {
        toSkip := true;
      }
      if field.ConvertFieldFn? {
        func := Some(field.func);
      }
      if field.FnFromExtern? {
        fnFromExtern := Some(field.ns);
      }
    }
    assert fields[..|fields|] == fields;
    m := EnumArm(name, source, Directives(rename, fnFromExtern, func, toSkip, false), enumFields);
  }

  /** What the enum arm is, case by case: no arm exactly when some `exclude = true` is present;
      the source variant is the last `rename`, else the variant's own name; without a function
      the payload is moved over unchanged into `Self::name`, with one the call is the whole
      right-hand side; either way the right-hand side uses exactly the names the pattern binds. */
  lemma EnumTemplateCases(name: Ident, source: Option<Ident>, args: seq<FieldArg>, shape: EnumInnerFields)
    ensures EnumTemplate(name, source, args, shape).Empty? <==> Exclude(true) in args
    ensures EnumTemplate(name, source, args, shape).MatchArm? ==>
              var arm := EnumTemplate(name, source, args, shape).arm;
              && arm.source == source
              && arm.variant == LastOf(args, RenameOf).GetOr(name)
              && arm.binding == ShapeBinding(shape)
              && UsedNames(arm.rhs) == BoundNames(arm.binding)
              && (LastOf(args, FuncOf).None? ==> arm.rhs == Construct(name, arm.binding))
              && (LastOf(args, FuncOf).Some? ==>
                    arm.rhs.CallFn? && arm.rhs.func == LastOf(args, FuncOf).value && arm.rhs.ns == LastOf(args, ExternOf))
  {
  }

  /** `is_fallible` is never consulted for enum variants. */
  lemma EnumIgnoresFallible(name: Ident, source: Option<Ident>, pre: seq<FieldArg>, b: bool, post: seq<FieldArg>,
                            shape: EnumInnerFields)
    ensures EnumTemplate(name, source, pre + [IsFallible(b)] + post, shape) == EnumTemplate(name, source, pre + post, shape)
  {
    LastOfSkips(pre, IsFallible(b), post, RenameOf);
    LastOfSkips(pre, IsFallible(b), post, ExternOf);
    LastOfSkips(pre, IsFallible(b), post, FuncOf);
    assert Exclude(true) in pre + [IsFallible(b)] + post <==> Exclude(true) in pre + post;
  }
}
