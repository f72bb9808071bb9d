/** What the emitted impls do with a value of a derived type:
    `into_response_context` (one match arm per variant) and `into_response`
    (default render or the type's custom function). */
module Runtime {
  import opened Wrappers
  import opened Status
  import opened Http
  import opened ResponseContext
  import opened Generated
  import opened MacroDerive

  /** A value of a derived error type: its type, its variant, its `Display`
      text (written by the user, e.g. with thiserror), and, for a variant that
      wraps another derived error, that inner value. */
  datatype ErrVal = ErrVal(ty: string, variant: string, display: string, inner: Option<ErrVal>)

  /** The expansions of the program's derived types, by type name. */
  type Registry = map<string, Derived>

  /** The arm `match self` takes: the first one for the value's variant. */
  function FindArm(arms: seq<Arm>, variant: string): (r: Option<Arm>)
    ensures r.None? <==> forall i :: 0 <= i < |arms| ==> arms[i].variant != variant
    ensures r.Some? ==> r.value.variant == variant
                        && exists i :: 0 <= i < |arms| && arms[i] == r.value
                                       && forall j :: 0 <= j < i ==> arms[j].variant != variant
  {
    if |arms| == 0 then None
    else if arms[0].variant == variant then Some(arms[0])
    else
      var r := FindArm(arms[1..], variant);
      assert forall j :: 0 < j < |arms| ==> arms[j] == arms[1..][j - 1];
      r
  }

  function ArmOf(reg: Registry, v: ErrVal): Option<Arm> {
    if v.ty in reg then FindArm(reg[v.ty].arms, v.variant) else None
  }

  /** What Rust's type checker guarantees of a value reaching the generated
      code: its type was derived, the variant is one of the type's, and a
      variant with a nested arm holds an inner value of a derived type. */
  predicate WellTyped(reg: Registry, v: ErrVal)
    decreases v
  {
    match ArmOf(reg, v)
    case None => false
    case Some(arm) => arm.body.DelegateToInner? ==> v.inner.Some? && WellTyped(reg, v.inner.value)
  }

  /** The body of a general arm: the builder chain with the evaluated status,
      the code, and the message. */
  function GeneralContext(status: StatusExpr, code: string, message: string): (c: Context)
    ensures c == Context(Some(EvalStatus(status)), Some(code), Some(message))
  {
    Build(NewBuilder().WithStatusCode(EvalStatus(status)).WithCode(code).WithMessage(message))
  }

  /** `into_response_context` of a derived type. A general arm builds a
      context with all three fields set and the whole value's `Display` text
      as message (not the payload's); a nested arm returns the inner value's
      context exactly. The inner value is a strict part of the outer one, so
      the recursion ends. */
  function IntoContext(reg: Registry, v: ErrVal): (c: Context)
    requires WellTyped(reg, v)
    decreases v
    ensures c.statusCode.Some? && c.code.Some? && c.message.Some?
    ensures ArmOf(reg, v).value.body.BuildContext? ==>
              c.statusCode == Some(EvalStatus(ArmOf(reg, v).value.body.status))
              && c.code == Some(ArmOf(reg, v).value.body.code)
              && c.message == Some(v.display)
  {
    var arm := ArmOf(reg, v).value;
    match arm.body
    case BuildContext(status, code) => GeneralContext(status, code, v.display)
    case DelegateToInner => IntoContext(reg, v.inner.value)
  }

  /** The value whose general arm ends the chain of delegations from `v`. */
  function Resolve(reg: Registry, v: ErrVal): (w: ErrVal)
    requires WellTyped(reg, v)
    decreases v
    ensures WellTyped(reg, w) && ArmOf(reg, w).value.body.BuildContext?
  {
    if ArmOf(reg, v).value.body.DelegateToInner? then Resolve(reg, v.inner.value) else v
  }

  /** Every context is the one the innermost general arm builds: the status,
      code and message of outer nested variants are never consulted. */
  lemma {:induction false} IntoContextIsResolved(reg: Registry, v: ErrVal)
    requires WellTyped(reg, v)
    ensures var w := Resolve(reg, v);
            var body := ArmOf(reg, w).value.body;
            IntoContext(reg, v) == GeneralContext(body.status, body.code, w.display)
    decreases v
  {
    if ArmOf(reg, v).value.body.DelegateToInner? {
      IntoContextIsResolved(reg, v.inner.value);
    }
  }

  /** `into_response` of a derived type. The context its arm resolves to
      (the innermost general arm's status and code with that value's text) is
      handed unmodified to the type's custom function when there is one, and
      rendered by default otherwise. */
  function IntoResponse(reg: Registry, custom: (string, Context) -> Response, v: ErrVal): (r: Result<Response, Panic>)
    requires WellTyped(reg, v)
    ensures var w := Resolve(reg, v);
            var body := ArmOf(reg, w).value.body;
            var c := GeneralContext(body.status, body.code, w.display);
            && (reg[v.ty].render.CustomRender? ==> r == Ok(custom(reg[v.ty].render.fnName, c)))
            && (reg[v.ty].render.DefaultRender? ==> r == Render(c))
  {
    IntoContextIsResolved(reg, v);
    match reg[v.ty].render
    case CustomRender(f) => Ok(custom(f, IntoContext(reg, v)))
    case DefaultRender => Render(IntoContext(reg, v))
  }

  /** With a custom function, every variant of the type, general or nested,
      yields whatever that function returns; a function with a fixed output
      makes every variant produce that output, never the JSON envelope. */
  lemma CustomOverrideUniform(reg: Registry, custom: (string, Context) -> Response, v: ErrVal, fixed: Response)
    requires WellTyped(reg, v) && reg[v.ty].render.CustomRender?
    requires forall c :: custom(reg[v.ty].render.fnName, c) == fixed
    ensures IntoResponse(reg, custom, v) == Ok(fixed)
  {
  }

  /** A default-rendering type succeeds exactly when the innermost general
      arm's status is valid, and then answers with that arm's status and code
      and the innermost value's `Display` text in the JSON envelope. */
  lemma {:induction false} DefaultResponse(reg: Registry, custom: (string, Context) -> Response, v: ErrVal)
    requires WellTyped(reg, v) && reg[v.ty].render.DefaultRender?
    ensures var w := Resolve(reg, v);
            var body := ArmOf(reg, w).value.body;
            && (IntoResponse(reg, custom, v).Ok? <==> ValidStatus(EvalStatus(body.status)))
            && (IntoResponse(reg, custom, v).Ok? ==>
                  IntoResponse(reg, custom, v).value == JsonErrorResponse(EvalStatus(body.status), body.code, w.display))
  {
    IntoContextIsResolved(reg, v);
  }

  /** Every general arm of every derived type carries a valid status. */
  predicate StatusesValid(reg: Registry) {
    forall t, i :: t in reg && 0 <= i < |reg[t].arms| && reg[t].arms[i].body.BuildContext?
                   ==> ValidStatus(EvalStatus(reg[t].arms[i].body.status))
  }

  /** When every general arm's status is valid, the default rendering never
      panics, however deep the nesting. */
  lemma {:induction false} DefaultRenderTotal(reg: Registry, custom: (string, Context) -> Response, v: ErrVal)
    requires WellTyped(reg, v) && reg[v.ty].render.DefaultRender? && StatusesValid(reg)
    ensures IntoResponse(reg, custom, v).Ok?
  {
    var w := Resolve(reg, v);
    var arms := reg[w.ty].arms;
    var arm := ArmOf(reg, w).value;
    var i :| 0 <= i < |arms| && arms[i] == arm;
    DefaultResponse(reg, custom, v);
  }

  /** The outer type's `into_response` renders the inner value's context
      itself, so an inner type's own custom function is bypassed. */
  lemma NestedBypassesInnerRender(reg: Registry, custom: (string, Context) -> Response, v: ErrVal)
    requires WellTyped(reg, v) && ArmOf(reg, v).value.body.DelegateToInner?
    requires reg[v.ty].render.DefaultRender?
    ensures IntoResponse(reg, custom, v) == Render(IntoContext(reg, v.inner.value))
  {
  }
}
