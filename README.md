# brick — a Dafny model of the conversion generator

`brick` is a Rust attribute macro. It generates a `From` or `TryFrom` implementation that
converts a source struct or enum into the annotated target type. The macro takes top-level
arguments (`converter`, `source`, `try_error_kind`) and per-member `#[brick_field(...)]`
directives (`rename`, `exclude`, `transform_func`, `fn_from_extern`, `is_fallible`). It folds
each member's directives into one setting per key, turns them into a field initialiser or a
match arm, and wraps those in the impl. It also removes the `brick_field` attributes from the
struct it re-emits.

This model replaces token streams by datatypes for the generated code (module `Generated`):
a field initialiser `FieldInit(name, DefaultValue | Read(src) | Call(ns, func, src, fallible))`,
a match arm `Arm(source, variant, binding, Construct(..) | CallFn(..))`, a list element
`Member` (with `Empty` for the empty output of an excluded enum variant), a body `Expr`, and
an `Impl(kind, source, target, errorType, body)`. Identifiers are strings. A failed expansion is
`Err(CompileError(msg))` when syn reports an error and `Err(Panic(msg))` when an `expect`,
`unwrap` or `unimplemented!` aborts it.

Modules, one per source file:

- `Results`, `Syntax`, `Generated`: the datatypes. `Syntax` holds literals, paths
  (`get_ident`/`is_ident`), attribute arguments, fields and `SupportedType`. `Generated` holds
  the generated code and the `converter` string mapping shared by both pipelines.
- `Fields` (src/fields.rs): directive parsing and the two directive folds. Each fold is a
  method with a `for` loop that updates local settings. It is proved equal to a specification
  that reads each setting off the directive list directly. `LastOf` gives the last directive
  naming that setting, and exclusion holds when some `exclude = true` is present. Lemmas state
  the precedence rules: a sticky exclude, last-write-wins, and `exclude = false` and
  `is_fallible` (for enums) having no effect.
- `Attributes` (src/attributes.rs): the `BrickAttributes` class. Its `Parse` method is tied to
  the pure step `ApplyMeta`. `GenerateConversionTemplate` builds the impl.
- `StructItem` (src/item/struct_item.rs): the `ItemStruct` class. `Process` collects
  directives, builds one initialiser per field and strips `brick_field` attributes in place
  with `StripBrickFields`.
- `Legacy` (src/lib.rs): the older pipeline that is registered as the macro. It uses
  `source_struct` and only `convert_field_func`, and reads only the first `brick_field`
  attribute. It re-uses `ItemStruct.StripBrickFields` on its copy of the struct.

Facts about the code that the model keeps:

- Nothing checks that a source variant and its target variant have the same payload shape.
  The code never sees the source enum, so the arm is generated as is.
- `try_error_kind` given together with `converter = "From"` is accepted and ignored.
- `create_enum_template` never reads `is_fallible`, so no enum arm is fallible.
- `src/item/struct_item.rs:29` calls `create_template`. It is modelled as
  `create_struct_template`, the function `src/fields.rs:38` defines. `EnumInnerFields` is
  imported at `src/fields.rs:1` from `crate::item::enum_item`, and src/item/enum_item.rs does
  not define it. It is modelled as `Unit | Unnamed(bindings) | Named(keys)`.

Behaviour modelled as written:

- An excluded enum variant produces an empty element. It stays in the comma-separated
  `match` list (`Member.Empty`); `GenerateConversionTemplate` keeps every member, in order.
- The legacy `TryFrom` impl declares `type Error = Result<Self, Self::Error>` (`LegacyErrorType`).
- The legacy initialiser splices the field name even when a tuple-struct field has none.

## Model

| member | source | states |
|---|---|---|
| Generated.ConverterOf | src/attributes.rs:33-41 | "TryFrom" selects TryFrom; every other string, "From" included, gives From and never an error |
| Fields.ParseFieldArg | src/fields.rs:16-29 | an unknown keyword is exactly the "Attribute not supported" error; a known keyword parses iff its literal has the right kind (bool for exclude/is_fallible, string otherwise); the result carries the keyword and literal it was read from |
| Fields.ParseFieldArgInverse | src/fields.rs:21-26 | every directive is parsed back from its own keyword and literal |
| Fields.ParseFieldArgs | src/item/struct_item.rs:23-24 | a comma-separated list parses iff every item does, item by item in order; on failure the error is the one of the first failing item |
| Fields.LastOf | src/fields.rs:45-61 | the setting read off a directive list is that of the last directive naming it, and absent iff none names it |
| Fields.LastOfConcat | src/fields.rs:45-61 | last-write-wins across a concatenation: the later part decides whenever it names the setting |
| Fields.CreateStructTemplate | src/fields.rs:38-95 | the in-place fold over the directives followed by the final match yields exactly the initialiser specified by last-occurrence settings and sticky exclusion |
| Fields.StructTemplateCases | src/fields.rs:70-94 | the initialiser is keyed by the target name; it is `Default::default()` iff some `exclude = true` is present; otherwise a call of the last function, qualified by the last namespace and with `?` iff the last `is_fallible` is true, on the source field; or a plain read of the source field |
| Fields.NoRenameReadsOwnName | src/fields.rs:39 | without `rename` the source field is the target field's own name |
| Fields.RenameLastWins | src/fields.rs:46-48 | the last `rename` decides the source field that is read or passed, whatever precedes it |
| Fields.ExcludeSticky | src/fields.rs:63-67 | one `exclude = true` anywhere gives the default value regardless of all other directives, a later `exclude = false` included |
| Fields.ExcludeFalseIsInert | src/fields.rs:63-67 | inserting `exclude = false` anywhere changes nothing |
| Fields.FallibleLastWins | src/fields.rs:58-60 | the last `is_fallible` decides the `?`, so a later false resets an earlier true |
| Fields.PlainReadIgnoresFallibleAndExtern | src/fields.rs:92 | without `transform_func`, adding `is_fallible` or `fn_from_extern` anywhere changes nothing and the field is a read or a default |
| Fields.GenerateEnumFn | src/fields.rs:167-200 | the arm matches `source::rename` with the variant's payload pattern; the transform function, namespaced when given, receives the bound names as its positional arguments, in pattern order, or the whole `source::rename` value for a unit variant, and its result is the whole right-hand side |
| Fields.CreateEnumTemplate | src/fields.rs:105-161 | the in-place fold without fallibility followed by the final match yields exactly the arm specified by last-occurrence settings and sticky exclusion |
| Fields.EnumTemplateCases | src/fields.rs:136-160 | no arm iff some `exclude = true` is present; the source variant is the last rename or the variant's own name; without a function the payload moves unchanged into `Self::name` with the same shape; with one the call is the whole right-hand side; the right-hand side uses exactly the names the pattern binds |
| Fields.EnumIgnoresFallible | src/fields.rs:116-134 | inserting `is_fallible` anywhere never changes an enum arm |
| Attributes.ApplyMeta | src/attributes.rs:26-58 | a path that is not one identifier, or an identifier other than converter/source/try_error_kind, is exactly the "Unknown attribute" error; each key changes only its own setting; converter never fails on a string; source is set only when a string is present |
| Attributes.LastSourceWins | src/attributes.rs:43-50 | over successive calls, the last `source` carrying a string is the source |
| Attributes.BrickAttributes.constructor | src/attributes.rs:18-23 | the default settings are From, no source, no error kind |
| Attributes.BrickAttributes.Parse | src/attributes.rs:26-58 | the settings after one call are those `ApplyMeta` gives; on an error they are unchanged |
| Attributes.BrickAttributes.GenerateConversionTemplate | src/attributes.rs:66-126 | no source aborts as unimplemented; TryFrom without an error kind aborts; otherwise the impl converts source into target and its body is exactly the members in the given order inside `Self { ... }` for structs or `match arg { ... }` for enums, that body wrapped in `Ok(...)` for TryFrom, which also declares the error kind |
| StructItem.Retain | src/item/struct_item.rs:34 | keeps exactly the attributes that are not `brick_field` |
| StructItem.RetainConcat | src/item/struct_item.rs:33-35 | retaining distributes over concatenation, so kept attributes keep their order |
| StructItem.RetainIdempotent | src/item/struct_item.rs:33-35 | stripping twice is stripping once |
| StructItem.StripAllCases | src/item/struct_item.rs:33-35 | after stripping no field has a `brick_field` attribute; names, types, positions and all other attributes in order are kept |
| StructItem.FieldDirectivesConcat | src/item/struct_item.rs:19-27 | a field's directives over consecutive attribute lists are the concatenation in order, the first failure winning |
| StructItem.OtherAttributesContributeNothing | src/item/struct_item.rs:21-27 | an attribute other than `brick_field` contributes no directive |
| StructItem.CollectFieldDirectives | src/item/struct_item.rs:19-27 | the nested loop extending the directive list yields exactly the field's directives, or the abort of the first unparsable `brick_field` |
| StructItem.FieldTemplates | src/item/struct_item.rs:16-30 | succeeds iff every field does, with exactly one initialiser per field, in field order |
| StructItem.FieldTemplatesFirstError | src/item/struct_item.rs:16-17 | the first failing field decides the error |
| StructItem.EveryFieldNamed | src/item/struct_item.rs:17 | a successful expansion implies every field has a name |
| StructItem.ItemStruct.StripBrickFields | src/item/struct_item.rs:33-35 | every field's attribute list is replaced in place by its retained part |
| StructItem.ItemStruct.Process | src/item/struct_item.rs:13-47 | a failing field aborts with its error and leaves the struct untouched; otherwise the fields are stripped and the output is the stripped struct followed by the impl built from one initialiser per field, or the impl's abort |
| Legacy.ApplyLegacyMeta | src/lib.rs:28-45 | only `converter` and `source_struct` are accepted, anything else is "Unknown attribute"; converter maps unknown strings to From; source_struct is stored |
| Legacy.BrikStructAttributes.constructor | src/lib.rs:21-25 | the default settings are From and no source struct |
| Legacy.BrikStructAttributes.Parse | src/lib.rs:28-45 | the settings after one call are those `ApplyLegacyMeta` gives; on an error they are unchanged |
| Legacy.ParseLegacyFieldArg | src/lib.rs:52-61 | only `convert_field_func` with a string is accepted; any other keyword is "Unknown attribute" |
| Legacy.ParseLegacyArgs | src/lib.rs:121 | an attribute's arguments parse iff there is exactly one directive and it parses |
| Legacy.BrickField | src/lib.rs:64-69 | the `brick_field` macro returns its input unchanged iff its arguments parse, else their error |
| Legacy.FirstBrickField | src/lib.rs:118-122 | the result is the first `brick_field` attribute, and absent iff there is none |
| Legacy.LegacyFieldTemplates | src/lib.rs:113-135 | succeeds iff every field does, with one initialiser per field in field order |
| Legacy.OnlyFirstBrickFieldUsed | src/lib.rs:118-122 | attributes after the first `brick_field`, even unparsable ones, do not change a field's initialiser |
| Legacy.LegacyMatchesCurrentPipeline | src/lib.rs:124-133 | a named field's legacy initialiser is the one the current pipeline generates from the same function as `transform_func` (no rename, no namespace, no `?`) |
| Legacy.CreateExpanded | src/lib.rs:71-103 | no source_struct aborts on unwrap; otherwise the impl converts source_struct into the target and its body is exactly `Self { ... }` over the initialisers in the given order, wrapped in `Ok(...)` for TryFrom |
| Legacy.Brick | src/lib.rs:105-153 | the macro parses the arguments with in-place updates, maps the fields, strips a copy in place and emits the copy followed by the impl, exactly as the pure expansion specifies |
| Legacy.LegacyExpansionShape | src/lib.rs:137-150 | the emitted struct keeps the name and field count and has no `brick_field` attribute; the impl has one initialiser per field in field order |
| Legacy.LegacyMissingSourceAborts | src/lib.rs:76 | without `source_struct` the expansion aborts once the arguments and fields are read |

## Left out

- Token-level syntax is not modelled. A directive list arrives already split into `key = literal` pairs, so errors about a missing `=` or a non-identifier key inside `brick_field(...)` are not modelled. Spans and error locations are not modelled either.
- Parsing the error kind with `syn::parse_str` (src/attributes.rs:112-113) is a foreign parser. The error kind is an opaque string here, and the panic when it does not parse is not modelled.
- `source = <non-string literal>` leaves the source unchanged and `parse` returns Ok, as the code does. The error that syn's nested-meta parser then raises about the unconsumed literal is not modelled.
- The panic on an unparsable `brick_field` is modelled as a `Panic` carrying the syn error's message: alone for the `unwrap` at src/item/struct_item.rs:24, after the `expect` text and `: ` at src/lib.rs:121. The `unwrap` prefix and Rust's `Debug` formatting of the syn error are not modelled.
- Creating identifiers (`Ident::new`, `format_ident!`) is string identity. Their panic on a string that is not a valid identifier is not modelled.
- Generic arguments on path segments are not modelled; `get_ident` looks only at the leading `::` and the number of segments.
- Parsing the macro's target as a struct (src/lib.rs:111) is taken as given. A target that is not a struct is not modelled.
- src/item/enum_item.rs is not part of this model: it does not match the trait it implements and has no logic of its own. Enum support is modelled at the level of `create_enum_template` and `generate_conversion_template`.
- The `ProcessItem` trait (src/item/mod.rs:12-18) is not modelled as a trait. Only its struct implementation is modelled, as `ItemStruct.Process`.
- Whether the host compiler accepts the generated code is not modelled: match exhaustiveness after an excluded arm, the empty element an excluded arm leaves in the arm list, and whether referenced functions exist.
- The examples under examples/ are not modelled. Their behaviour depends on user functions, string formatting and date decoding.
