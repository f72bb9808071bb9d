/** Concrete derivations: the error type of the repository's tests, a nested
    delegation, rejected derivations, and the order in which failures are
    reported. */
module Scenarios {
  import opened Wrappers
  import opened Status
  import opened Http
  import opened Syntax
  import opened Generated
  import opened Dispatch
  import opened MacroDerive
  import CustomFn
  import opened Runtime
  import opened ResponseContext

  function Lit(s: string): AttrArgs {
    List([StrLit(s)])
  }

  /** `TestError` with its `BadRequest(String)` and
      `AnotherNoStringError(InnerError)` variants. */
  function TestError(): DeriveInput {
    DeriveInput("TestError", [], Enum([
      Variant("BadRequest", Tuple(1), [Attr("error", Lit("Bad request: {0}")),
                                       Attr("status_code", Lit("400")), Attr("code", Lit("BAD_REQUEST"))]),
      Variant("AnotherNoStringError", Tuple(1), [Attr("error", Lit("Internal server error {0}")),
                                                 Attr("status_code", Lit("500")), Attr("code", Lit("INTERNAL_SERVER_ERROR"))])
    ]))
  }

  lemma Parse400()
    ensures ParseU16("400") == Some(400)
  {
    assert UnsignedDigits("400") == "400";
    assert "400"[..2] == "40" && "40"[..1] == "4" && "4"[..0] == "";
  }

  lemma Parse401()
    ensures ParseU16("401") == Some(401)
  {
    assert UnsignedDigits("401") == "401";
    assert "401"[..2] == "40" && "40"[..1] == "4" && "4"[..0] == "";
  }

  /** `TestError::BadRequest`: status 400, code `BAD_REQUEST`; the `error`
      attribute belongs to `thiserror` and is skipped. */
  lemma BadRequestArm()
    ensures ParseResponse(TestError().data.variants[0])
            == Ok(Arm("BadRequest", TupleRestPattern, BuildContext(ParseOr500("400"), "BAD_REQUEST")))
  {
    var v := TestError().data.variants[0];
    assert StrategyOf(v) == Ok(General);
    assert GeneralStrategy.FindStatus(v.attrs) == ParseOr500("400");
    assert GeneralStrategy.FindCode(v.attrs, v.name) == Ok("BAD_REQUEST");
  }

  /** `TestError::AnotherNoStringError`: status 500, code
      `INTERNAL_SERVER_ERROR`. */
  lemma AnotherNoStringErrorArm()
    ensures ParseResponse(TestError().data.variants[1])
            == Ok(Arm("AnotherNoStringError", TupleRestPattern, BuildContext(ParseOr500("500"), "INTERNAL_SERVER_ERROR")))
  {
    var v := TestError().data.variants[1];
    assert StrategyOf(v) == Ok(General);
    assert GeneralStrategy.FindStatus(v.attrs) == ParseOr500("500");
    assert GeneralStrategy.FindCode(v.attrs, v.name) == Ok("INTERNAL_SERVER_ERROR");
  }

  /** A two-variant enum whose variants both expand gives their two arms. */
  lemma BlockOfTwo(input: DeriveInput, a0: Arm, a1: Arm)
    requires input.data.Enum? && |input.data.variants| == 2
    requires ParseResponse(input.data.variants[0]) == Ok(a0) && ParseResponse(input.data.variants[1]) == Ok(a1)
    ensures ContextBlock(input) == Ok([a0, a1])
  {
    var vs := input.data.variants;
    assert forall i :: 0 <= i < |vs| ==> ParseResponse(vs[i]).Ok?;
    var arms := ContextBlock(input).value;
    assert |arms| == 2 && arms[0] == a0 && arms[1] == a1;
    assert arms == [a0, a1];
  }

  /** A one-variant enum whose variant expands gives its arm. */
  lemma BlockOfOne(input: DeriveInput, a0: Arm)
    requires input.data.Enum? && |input.data.variants| == 1
    requires ParseResponse(input.data.variants[0]) == Ok(a0)
    ensures ContextBlock(input) == Ok([a0])
  {
    var vs := input.data.variants;
    assert forall i :: 0 <= i < |vs| ==> ParseResponse(vs[i]).Ok?;
    var arms := ContextBlock(input).value;
    assert |arms| == 1 && arms[0] == a0;
    assert arms == [a0];
  }

  lemma TestErrorBlock()
    ensures ContextBlock(TestError()) == Ok([
              Arm("BadRequest", TupleRestPattern, BuildContext(ParseOr500("400"), "BAD_REQUEST")),
              Arm("AnotherNoStringError", TupleRestPattern, BuildContext(ParseOr500("500"), "INTERNAL_SERVER_ERROR"))
            ])
  {
    BadRequestArm();
    AnotherNoStringErrorArm();
    BlockOfTwo(TestError(), Arm("BadRequest", TupleRestPattern, BuildContext(ParseOr500("400"), "BAD_REQUEST")),
               Arm("AnotherNoStringError", TupleRestPattern, BuildContext(ParseOr500("500"), "INTERNAL_SERVER_ERROR")));
  }

  /** Both variants of `TestError` become general arms, in order. */
  lemma TestErrorDerives(fns: set<string>)
    ensures Derive(TestError(), fns) == Ok(Derived("TestError", [
              Arm("BadRequest", TupleRestPattern, BuildContext(ParseOr500("400"), "BAD_REQUEST")),
              Arm("AnotherNoStringError", TupleRestPattern, BuildContext(ParseOr500("500"), "INTERNAL_SERVER_ERROR"))
            ], DefaultRender))
  {
    TestErrorBlock();
    assert CustomFn.ParseCustomFn([]) == None;
  }

  /** `TestError::BadRequest("foo")` answers 400 with code `BAD_REQUEST` and
      its own `Display` text as message. */
  lemma TestErrorBadRequest(fns: set<string>, custom: (string, Context) -> Response)
    ensures Derive(TestError(), fns).Ok?
    ensures var reg := map["TestError" := Derive(TestError(), fns).value];
            var v := ErrVal("TestError", "BadRequest", "Bad request: foo", None);
            WellTyped(reg, v)
            && IntoResponse(reg, custom, v) == Ok(JsonErrorResponse(400, "BAD_REQUEST", "Bad request: foo"))
  {
    TestErrorDerives(fns);
    Parse400();
    var d := Derive(TestError(), fns).value;
    var reg := map["TestError" := d];
    var v := ErrVal("TestError", "BadRequest", "Bad request: foo", None);
    assert ArmOf(reg, v) == Some(d.arms[0]);
    assert IntoContext(reg, v) == Context(Some(400), Some("BAD_REQUEST"), Some("Bad request: foo"));
  }

  /** `AuthError::Unauthenticated`, status 401 and code
      `AUTHENTICATION_ERROR`. */
  function AuthError(): DeriveInput {
    DeriveInput("AuthError", [], Enum([
      Variant("Unauthenticated", Unit, [Attr("status_code", Lit("401")), Attr("code", Lit("AUTHENTICATION_ERROR"))])
    ]))
  }

  /** `AppError::Auth(AuthError)` marked `response(nested)`, with outer
      metadata that must be ignored. */
  function AppError(): DeriveInput {
    DeriveInput("AppError", [], Enum([
      Variant("Auth", Tuple(1), [Attr("response", List([Ident("nested")])),
                                 Attr("status_code", Lit("418")), Attr("code", Lit("OUTER"))])
    ]))
  }

  lemma AuthErrorDerives(fns: set<string>)
    ensures Derive(AuthError(), fns) == Ok(Derived("AuthError", [
              Arm("Unauthenticated", UnitPattern, BuildContext(ParseOr500("401"), "AUTHENTICATION_ERROR"))
            ], DefaultRender))
  {
    var a0 := Arm("Unauthenticated", UnitPattern, BuildContext(ParseOr500("401"), "AUTHENTICATION_ERROR"));
    assert ParseResponse(AuthError().data.variants[0]) == Ok(a0);
    BlockOfOne(AuthError(), a0);
    assert CustomFn.ParseCustomFn([]) == None;
  }

  /** The outer metadata of a nested variant leaves no trace in its arm. */
  lemma AppErrorDerives(fns: set<string>)
    ensures Derive(AppError(), fns) == Ok(Derived("AppError", [Arm("Auth", TupleInnerPattern, DelegateToInner)], DefaultRender))
  {
    var a0 := Arm("Auth", TupleInnerPattern, DelegateToInner);
    assert ParseResponse(AppError().data.variants[0]) == Ok(a0);
    BlockOfOne(AppError(), a0);
    assert CustomFn.ParseCustomFn([]) == None;
  }

  /** The outer value answers with the inner variant's status and code. */
  lemma NestedDelegation(fns: set<string>, custom: (string, Context) -> Response)
    ensures Derive(AuthError(), fns).Ok? && Derive(AppError(), fns).Ok?
    ensures var reg := map["AuthError" := Derive(AuthError(), fns).value, "AppError" := Derive(AppError(), fns).value];
            var inner := ErrVal("AuthError", "Unauthenticated", "not signed in", None);
            var v := ErrVal("AppError", "Auth", "auth failed", Some(inner));
            WellTyped(reg, v)
            && IntoResponse(reg, custom, v) == Ok(JsonErrorResponse(401, "AUTHENTICATION_ERROR", "not signed in"))
  {
    Parse401();
    AuthErrorDerives(fns);
    AppErrorDerives(fns);
    var a := Derive(AuthError(), fns).value;
    var b := Derive(AppError(), fns).value;
    var reg := map["AuthError" := a, "AppError" := b];
    var inner := ErrVal("AuthError", "Unauthenticated", "not signed in", None);
    var v := ErrVal("AppError", "Auth", "auth failed", Some(inner));
    assert ArmOf(reg, inner) == Some(a.arms[0]);
    assert ArmOf(reg, v) == Some(b.arms[0]);
    assert IntoContext(reg, v) == Context(Some(401), Some("AUTHENTICATION_ERROR"), Some("not signed in"));
  }

  /** A unit variant marked `response(nested)` fails the whole derivation. */
  lemma NestedUnitFailsDerive(fns: set<string>)
    ensures Derive(DeriveInput("E", [], Enum([Variant("Ok", Unit, []),
                                              Variant("V", Unit, [Attr("response", List([Ident("nested")]))])])), fns)
            == Err(NestedWithoutInner("V"))
  {
    var vs := [Variant("Ok", Unit, []), Variant("V", Unit, [Attr("response", List([Ident("nested")]))])];
    assert ParseResponse(vs[0]).Ok?;
    assert ParseResponse(vs[1]) == Err(NestedWithoutInner("V"));
  }

  /** A panic in a later variant is reported ahead of a compile error in an
      earlier one: the macro stops at the panic before the compiler ever sees
      the emitted code. */
  lemma PanicBeforeCompileError()
    ensures ContextBlock(DeriveInput("E", [], Enum([
              Variant("A", Unit, [Attr("response", List([Ident("nested")]))]),
              Variant("B", Unit, [Attr("code", List([Ident("X")]))])])))
            == Err(CodeNotLiteral("B"))
  {
    var vs := [Variant("A", Unit, [Attr("response", List([Ident("nested")]))]),
               Variant("B", Unit, [Attr("code", List([Ident("X")]))])];
    assert ParseResponse(vs[0]) == Err(NestedWithoutInner("A"));
    assert ParseResponse(vs[1]) == Err(CodeNotLiteral("B"));
  }

  /** A custom function name that is not an identifier panics ahead of a
      compile error in the variants. */
  lemma IdentPanicBeforeCompileError(fns: set<string>)
    ensures Derive(DeriveInput("E", [Attr("response", List([Ident("custom_fn"), EqSign, StrLit("1bad")]))],
                               Enum([Variant("V", Unit, [Attr("response", List([Ident("nested")]))])])), fns)
            == Err(InvalidFnIdent("1bad"))
  {
    var vs := [Variant("V", Unit, [Attr("response", List([Ident("nested")]))])];
    assert ParseResponse(vs[0]) == Err(NestedWithoutInner("V"));
    assert !ValidIdent("1bad");
  }
}
