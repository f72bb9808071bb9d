# axum-error-handler in Dafny

A functional model of the `AxumErrorResponse` derive macro and the
`ErrorResponseContext` type it targets. For an error `enum`, the macro
emits `into_response_context`, which maps each variant to a context
(optional status, code and message). It also emits `into_response`, which
renders that context as a default JSON envelope, or passes it to a function
named by a type-level `#[response(custom_fn = "f")]`. The older prototype
derive in `src/` skips the context: each arm renders its response directly.
It is modelled alongside.

Layout, one module per component:

- `wrappers.dfy` (`Wrappers`): `Option`, `Result`.
- `status.dfy` (`Status`): `u16`, Rust's `u16::from_str`, the valid HTTP status range 100..999.
- `http.dfy` (`Http`): the JSON envelope `{result: null, error: {code, message}}`, headers, responses, panics.
- `context.dfy` (`ResponseContext`): `ErrorResponseContext`, `ErrorResponseBuilder`, default render. This one module covers both `axum-err-handler-ctx/src/lib.rs` and `err_ctx/src/lib.rs`, which carries the same code.
- `syntax.dfy` (`Syntax`): the macro input. Variants have fields `Unit | Tuple(arity) | Named`. Attributes carry their argument tokens. It also defines the derivation errors.
- `generated.dfy` (`Generated`): the emitted match arms.
- `general.dfy`, `nested.dfy`, `dispatch.dfy`, `custom_fn.dfy`, `derive.dfy`: the macro crate's files, one each.
- `traverse.dfy` (`Traverse`): the ordered, abort-on-first-failure map over variants.
- `runtime.dfy` (`Runtime`): what the emitted impls do with an error value. A nested value's context is resolved recursively.
- `prototype.dfy` (`Prototype`): `src/lib.rs`, `src/response.rs`, `src/response/general.rs`.
- `scenarios.dfy` (`Scenarios`): the `TestError` type of `tests/proc.rs`, a nested delegation, rejected derivations, and the order in which failures are reported.

How the model treats failure:

- Every panic inside the macro is an `Err` of `Derive`.
- Generated code the compiler would refuse is also an `Err`. This covers `panic!` in pattern position, a `V(inner)` pattern with the wrong arity, and an unresolvable custom function.
- Failures are reported in the order they happen. All variants are expanded before anything is compiled, so a panic in any variant wins over a compile error in an earlier one. The `Ident::new` panic for a custom function name comes after the variants and before any compile error.
- A runtime `unwrap` failure is an `Err(Panic(..))` of the render.

Attribute arguments are token sequences, because syn's `parse_args_with` demands that every token be consumed. So `#[status_code("400")]` is `List([StrLit("400")])`. `#[code = "X"]` and `#[code]` are `NotList`.

Two behaviours of the code worth noting:

- Rendering a context is not total. The response builder's `unwrap` panics on a status outside 100..999. For example, `#[status_code("42")]` parses to 42 and then fails at render time.
- A malformed `code` attribute does not always give the empty string. It does when the outer parse fails: no parentheses, or tokens after the literal. It panics when the first token is not a string literal.

## Model

| member | source | states |
|---|---|---|
| ResponseContext.New | axum-err-handler-ctx/src/lib.rs:118-124 | a new context has no status, no code and no message |
| ResponseContext.SetStatusCode | axum-err-handler-ctx/src/lib.rs:131-133 | set_status_code sets the status and leaves code and message as they were |
| ResponseContext.SetCode | axum-err-handler-ctx/src/lib.rs:143-145 | set_code sets the code and leaves status and message as they were |
| ResponseContext.SetMessage | axum-err-handler-ctx/src/lib.rs:155-157 | set_message sets the message and leaves status and code as they were |
| ResponseContext.NewBuilder | axum-err-handler-ctx/src/lib.rs:210-217 | a new builder holds no field |
| ResponseContext.Builder.WithCode | axum-err-handler-ctx/src/lib.rs:228-231 | the code setter sets the code and leaves message and status as they were |
| ResponseContext.Builder.WithMessage | axum-err-handler-ctx/src/lib.rs:242-245 | the message setter sets the message and leaves code and status as they were |
| ResponseContext.Builder.WithStatusCode | axum-err-handler-ctx/src/lib.rs:256-259 | the status setter sets the status and leaves code and message as they were |
| ResponseContext.SetterOverwrites | axum-err-handler-ctx/src/lib.rs:228-259 | calling a setter twice keeps only the later value |
| ResponseContext.Build | axum-err-handler-ctx/src/lib.rs:266-278 | the built context's getters return exactly the builder's three options: set stays set, absent stays absent |
| ResponseContext.BuildChain | axum-err-handler-ctx/src/lib.rs:78-85 | a fully chained builder yields a context holding exactly the chained status, code and message, in each of the six orders the three setters can be called |
| ResponseContext.BuildIsBijective | err_ctx/src/lib.rs:85-97 | build neither merges two builders nor loses any context: each context comes from exactly one builder |
| ResponseContext.Filled | axum-err-handler-ctx/src/lib.rs:318-322 | absent status, code and message are replaced by 500, "UNKNOWN_ERROR" and "An error occurred"; set values are kept |
| ResponseContext.Render | axum-err-handler-ctx/src/lib.rs:316-337 | the render succeeds exactly when the filled status is in 100..999; it then has that status, the single header content-type: application/json, and a body that reads back as the filled code and message |
| ResponseContext.RenderEmpty | err_ctx/src/lib.rs:103-107 | an empty context renders as 500 with "UNKNOWN_ERROR" and "An error occurred" |
| ResponseContext.RenderSetValues | err_ctx/src/lib.rs:109-121 | a context with all fields set and a valid status renders those values in the JSON envelope |
| ResponseContext.RenderSeesOnlyFilled | axum-err-handler-ctx/src/lib.rs:295-299 | a render depends only on the filled fields, so an absent field and one set to its default render identically |
| Http.ErrorEnvelope | axum-err-handler-ctx/src/lib.rs:324-330 | the body has exactly the keys result and error; result is null and error is an object with exactly the keys code and message, holding the two strings |
| Http.JsonErrorResponse | axum-err-handler-ctx/src/lib.rs:332-336 | the response has the given status, the single header content-type: application/json, and a JSON body that reads back as the given code and message |
| Http.ReadErrorEnvelope | axum-err-handler-ctx/src/lib.rs:324-330 | reading code and message back succeeds exactly on bodies of the form {result: null, error: {code, message}} and returns those two strings |
| Status.ParseU16 | axum-err-handler-macro/src/context/general.rs:61 | a string parses exactly when, after at most one leading "+", it is a non-empty run of digits worth less than 65536, and the result is that value; an empty string and a "-" sign never parse |
| Status.ParseDecimalRoundTrip | axum-err-handler-macro/src/context/general.rs:56-62 | every u16 written in decimal, with or without '+', parses back to itself |
| Status.ParseRejectsOverflow | axum-err-handler-macro/src/context/general.rs:61 | a digit string worth 65536 or more never parses as u16 |
| Status.ParseRejectsNonDigit | axum-err-handler-macro/src/context/general.rs:61 | a non-digit anywhere after the first character makes the parse fail |
| Syntax.FirstAttr | axum-err-handler-macro/src/context.rs:43-46 | the result is the earliest attribute with the given name, and it is absent only when no attribute has that name |
| Syntax.FirstAttrIsFirst | axum-err-handler-macro/src/context.rs:43-46 | find returns an attribute exactly when that attribute occurs in the list with no attribute of the same name before it |
| Syntax.FirstAttrIgnoresLater | src/response.rs:18-21 | attributes after the first match are never examined |
| Generated.EvalStatus | axum-err-handler-macro/src/context/general.rs:61 | an arm's status is 500 with no usable literal, the parsed number when the literal parses as u16, and 500 when it does not |
| Generated.EvalStatusInvalidOnlyFromLiteral | axum-err-handler-macro/src/context/general.rs:56-67 | an arm's status is outside 100..999 exactly when it comes from a literal that parses to such a number |
| Traverse.FirstErrorWhere | axum-err-handler-macro/src/context.rs:23-32 | finds the first element whose step fails with an error of the selected kind; none is found exactly when no element fails that way |
| Traverse.MapResult | axum-err-handler-macro/src/context.rs:23-35 | the map succeeds exactly when every element succeeds, giving one result per element in order; on failure it reports the first failing element's error |
| GeneralStrategy.ParseStatusCode | axum-err-handler-macro/src/context/general.rs:54-73 | every status_code attribute yields a status; it is parsed from the literal exactly when the argument is a lone string literal, and is 500 otherwise |
| GeneralStrategy.FindStatus | axum-err-handler-macro/src/context/general.rs:12-16 | the first status_code attribute decides the status; with none it is 500 |
| GeneralStrategy.ParseCodeString | axum-err-handler-macro/src/context/general.rs:75-91 | a lone literal gives its value; a failed outer parse gives "", whether there are no parentheses or tokens follow the literal; a first token that is not a string literal, or no token at all, panics |
| GeneralStrategy.FindCode | axum-err-handler-macro/src/context/general.rs:17-21 | the first code attribute decides the code; with none it is the variant's name |
| GeneralStrategy.GeneralArm | axum-err-handler-macro/src/context/general.rs:6-52 | a malformed code attribute's panic is passed on; named fields are otherwise refused; unit variants get the pattern V and tuple variants of any arity get V(..); the arm builds from the resolved status and code |
| GeneralStrategy.GeneralArmIgnoresLaterMetadata | axum-err-handler-macro/src/context/general.rs:12-21 | once a status_code and a code attribute are present, further attributes do not change the arm |
| NestedStrategy.NestedArm | axum-err-handler-macro/src/context/nested.rs:3-38 | nested is accepted exactly for one-field tuple variants, whose arm binds inner and delegates; named fields panic and unit variants are refused |
| NestedStrategy.NestedArmIgnoresAttributes | axum-err-handler-macro/src/context/nested.rs:3-37 | a nested arm does not depend on the variant's status_code or code attributes |
| Dispatch.StrategyOf | axum-err-handler-macro/src/context.rs:42-65 | nested is chosen exactly when the first response attribute is response(nested); the derivation panics exactly when the first response attribute is a lone identifier other than nested and general, naming that identifier; every other variant is general |
| Dispatch.StrategyOfIgnoresLater | axum-err-handler-macro/src/context.rs:43-46 | attributes added after the variant's own never change its strategy |
| Dispatch.ParseResponse | axum-err-handler-macro/src/context.rs:53-65 | the arm is the chosen strategy's arm, labelled with the variant's name, and delegates exactly when the strategy is nested |
| Dispatch.NestedUnitRejected | axum-err-handler-macro/src/context/nested.rs:12-14 | nested on a unit variant fails and never falls back to general |
| Dispatch.ContextBlock | axum-err-handler-macro/src/context.rs:13-39 | non-enums are refused; otherwise there is exactly one arm per variant in declaration order; on failure, the first panicking variant's panic if any variant panics, and only otherwise the first compile error |
| CustomFn.ParseCustomFn | axum-err-handler-macro/src/custom_fn.rs:4-34 | an override exists exactly when the type's first response attribute reads custom_fn = "name", and it is that name; anything else gives none |
| MacroDerive.Derive | axum-err-handler-macro/src/lib.rs:11-53 | the derivation succeeds exactly when the context block does and an override's name is a valid identifier in scope; the render is then the default one without an override and the named function otherwise; a variant panic comes first, then an invalid function name, then compile errors |
| Runtime.FindArm | axum-err-handler-macro/src/context.rs:31-33 | match self takes the first arm for the value's variant; no arm is found only when no arm names it |
| Runtime.GeneralContext | axum-err-handler-macro/src/context/general.rs:43-50 | a general arm's context has all three fields set: the evaluated status, the code and the message |
| Runtime.IntoContext | axum-err-handler-macro/src/context/nested.rs:15-30 | every derived context has all three fields set; for a general arm they are the arm's status and code and the whole value's Display text, never the payload's |
| Runtime.Resolve | axum-err-handler-macro/src/context/nested.rs:29 | following nested delegation always ends, at a well-typed value with a general arm |
| Runtime.IntoContextIsResolved | axum-err-handler-macro/src/context/nested.rs:3-37 | a context is exactly the one the innermost general arm builds, so the outer variants' metadata is never consulted |
| Runtime.IntoResponse | axum-err-handler-macro/src/lib.rs:23-49 | the context handed on is the one the innermost general arm builds from its status, its code and the innermost value's text; with an override the named function gets it and its response is returned unmodified, without one it is rendered by default |
| Runtime.CustomOverrideUniform | axum-err-handler-macro/src/lib.rs:29-36 | with an override, every variant of the type, general or nested, gives the function's output; a fixed-output function makes every variant give that output |
| Runtime.DefaultResponse | axum-err-handler-macro/src/lib.rs:40-49 | a default-rendering type succeeds exactly when the innermost general arm's status is valid, and then gives that status, that code and the innermost value's text in the JSON envelope |
| Runtime.DefaultRenderTotal | axum-err-handler-ctx/src/lib.rs:332-336 | when every general arm carries a valid status, the default render never panics, at any nesting depth |
| Runtime.NestedBypassesInnerRender | axum-err-handler-macro/src/lib.rs:44-46 | a nested variant renders the inner value's context with the outer type's renderer, so the inner type's own override is bypassed |
| Prototype.ProtoParseStatusCode | src/response/general.rs:63-82 | every status_code attribute yields a status; it is parse-then-from_u16 exactly when the argument is a lone string literal, and 500 Internal Server Error otherwise |
| Prototype.ProtoFindStatus | src/response/general.rs:12-16 | the first status_code attribute decides; with none the status is 500 Internal Server Error |
| Prototype.ProtoGeneralArm | src/response/general.rs:6-41 | named fields are refused; the code follows the same rule as the context derive; the pattern follows the field shape |
| Prototype.ProtoFindStatusAgrees | src/response/general.rs:12-16 | the prototype and the context derive take the status from the same attribute: both the same literal, or both their 500 fallback |
| Prototype.ProtoParseResponse | src/response.rs:17-41 | a variant whose first response attribute is response(nested) goes to the nested renderer, and fails exactly when that renderer refuses it; every other variant fails exactly when the context derive fails on it, with the same error, and otherwise gets an arm with the same name, pattern, code and status source |
| Prototype.ProtoDerive | src/lib.rs:8-35 | non-enums are refused; otherwise one arm per variant in declaration order, or the first failure and no mapping |
| Prototype.ProtoStatusValue | src/response/general.rs:70 | a literal status runs only when it parses as u16 and lies in 100..999, and is then that number; otherwise the arm panics |
| Prototype.ProtoRespond | src/response/general.rs:43-59 | a prototype arm succeeds exactly when its status runs; the response has that status, the JSON content type, and an envelope of the arm's code and the value's text |
| Prototype.StatusHandlingDiffers | src/response/general.rs:63-78 | the two derives agree on literals that parse to valid statuses; an unparsable literal gives 500 in the context derive but panics in the prototype; for an out-of-range number the prototype panics, while the context derive passes the number unchanged to a custom function and panics only in its default render |
| Scenarios.BadRequestArm | tests/proc.rs:9-12 | BadRequest's arm has status literal "400" and code BAD_REQUEST; its thiserror error attribute is skipped |
| Scenarios.AnotherNoStringErrorArm | tests/proc.rs:13-16 | AnotherNoStringError's arm has status literal "500" and code INTERNAL_SERVER_ERROR |
| Scenarios.TestErrorDerives | tests/proc.rs:7-17 | TestError derives to two general arms, in order, carrying the literals "400" and "500" and the codes BAD_REQUEST and INTERNAL_SERVER_ERROR |
| Scenarios.TestErrorBadRequest | tests/proc.rs:40-48 | TestError::BadRequest answers status 400 with code BAD_REQUEST and its own Display text |
| Scenarios.AppErrorDerives | axum-err-handler-macro/src/context/nested.rs:15-30 | a nested variant's outer status_code and code attributes leave no trace in its delegating arm |
| Scenarios.NestedDelegation | axum-err-handler-macro/src/context/nested.rs:28-30 | an outer nested variant answers with the inner variant's 401 and AUTHENTICATION_ERROR, not its own attributes |
| Scenarios.NestedUnitFailsDerive | axum-err-handler-macro/src/context/nested.rs:12-14 | a unit variant marked nested fails the derivation of the whole type |
| Scenarios.PanicBeforeCompileError | axum-err-handler-macro/src/context.rs:23-32 | a non-literal code attribute in the second variant is reported even though the first variant is a unit variant marked nested |
| Scenarios.IdentPanicBeforeCompileError | axum-err-handler-macro/src/lib.rs:14-27 | the name "1bad" for a custom function is reported even though a variant is a unit variant marked nested |

## Left out

- The `syn`/`quote` token-stream machinery and the `proc_macro` entry points. Inputs are abstract datatypes, and outputs are the arm descriptions in `Generated` and `Prototype`.
- The `println!` diagnostics in both `parse_status_code` functions. They have no effect on the result.
- axum's response and body types, and `serde_json` byte encoding. The body is a JSON value, and a header list stands for the header map.
- The error value's `Display` text. It is written by the user, so it is an opaque string on the value.
- Rust's visibility rules. The context setters are crate-private, but Dafny datatypes are immutable values, so no outside code can change a built context. The getters are the datatype's destructors.
- Render determinism. It holds by construction: every operation is a function, so rendering one context twice gives equal results. There is no separate lemma for it.
- Compile-time checks on generated code, beyond the three the model covers. Covered: a custom function must be among the names in scope (the `fnsInScope` parameter of `Derive`), the inner value of a nested variant must be of a derived type (`Runtime.WellTyped`), and the nested pattern arity must match. Not covered: the custom function's signature.
- Inner types that implement `IntoErrorResponseContext` by hand. Only derived types are in the registry.
- A custom function that panics. User functions are total parameters of `IntoResponse`.
- The exact panic messages. They are reduced to the reasons in `Syntax.DeriveError`.
- Unicode identifiers. `Ident::new` is modelled on ASCII letters, digits and `_`, so names that use other XID characters are treated as invalid.
- Keyword recognition. Whether a token is an identifier or a keyword is part of the input (`Ident` versus `Keyword`).
- Attribute paths with more than one segment. They never match `status_code`, `code` or `response`, and are represented by any other name.
- Status overflow timing. Rust's `u16` parser checks for overflow digit by digit; the model compares the final value. Both reject exactly the same strings.
- The prototype's nested renderer. src/response/nested.rs is not part of this model, so the parameter `nestedAccepts` decides whether it accepts a variant, and its arm's runtime behaviour is not modelled.
- Multiple compile errors. The compiler reports every refused arm; the model reports the first one in declaration order.
- JSON member order. `serde_json::json!` builds a map whose serialized key order is an encoding detail; the model's envelope lists `result` before `error` and `code` before `message`, and its contracts state only the key sets and the values under each key.
