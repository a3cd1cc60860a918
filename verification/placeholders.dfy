/** The three placeholder scanners: the validator run when a config is parsed, the
    renderer run when the env file is written, and the test for serving placeholders.
    All three are loops over an index; each is proved against one token grammar. */
module Placeholders {
  import opened Text
  import opened Config

  const SERVING_PLACEHOLDERS: set<string> := {"project_url", "tls_ca", "tls_cert", "tls_key"}

  function BareDollarReason(): string { "literal dollar signs must be escaped as `$$`" }

  function UnterminatedReason(): string { "placeholder must end with `}`" }

  function EmptyNameReason(): string { "placeholder name must not be empty" }

  function NameShapeReason(): string { "placeholder names must use lowercase snake_case" }

  datatype Token =
    | Literal(c: char)
    | Dollar
    | Placeholder(name: string)
    | BareDollar
    | Unterminated(text: string)

  // ------------------------------------------------------------------
  // The grammar
  // ------------------------------------------------------------------

  /** Index of the first closing brace at or after `from`. */
  function CloseFrom(s: string, from: nat): (k: Option<nat>)
    requires from <= |s|
    ensures k.Some? ==> from <= k.value < |s| && s[k.value] == '}'
    ensures k.Some? ==> forall i :: from <= i < k.value ==> s[i] != '}'
    ensures k.None? ==> forall i :: from <= i < |s| ==> s[i] != '}'
    decreases |s| - from
  {
    if from == |s| then None
    else if s[from] == '}' then Some(from)
    else CloseFrom(s, from + 1)
  }

  datatype Step = Step(token: Token, next: nat)

  /** The token at an index and the index at which a scanner goes on. */
  function StepAt(s: string, i: nat): (step: Step)
    requires i < |s|
    ensures i < step.next <= |s|
  {
    if s[i] != '$' then Step(Literal(s[i]), i + 1)
    else if i + 1 < |s| && s[i + 1] == '$' then Step(Dollar, i + 2)
    else if !(i + 1 < |s| && s[i + 1] == '{') then Step(BareDollar, i + 1)
    else
      match CloseFrom(s, i + 2)
      case None => Step(Unterminated(s[i..]), i + 2)
      case Some(end) => Step(Placeholder(s[i + 2..end]), end + 1)
  }

  /** The tokens from an index on, up to and including the first malformed one. */
  function TokensFrom(s: string, i: nat): seq<Token>
    requires i <= |s|
    decreases |s| - i
  {
    if i == |s| then []
    else
      var step := StepAt(s, i);
      if Malformed(step.token) then [step.token] else [step.token] + TokensFrom(s, step.next)
  }

  function Tokens(s: string): seq<Token> {
    TokensFrom(s, 0)
  }

  /** The reading of the serving test, which steps over malformed tokens. */
  function LenientTokensFrom(s: string, i: nat): seq<Token>
    requires i <= |s|
    decreases |s| - i
  {
    if i == |s| then [] else [StepAt(s, i).token] + LenientTokensFrom(s, StepAt(s, i).next)
  }

  function LenientTokens(s: string): seq<Token> {
    LenientTokensFrom(s, 0)
  }

  predicate Malformed(t: Token) {
    t.BareDollar? || t.Unterminated?
  }

  predicate WellFormed(s: string) {
    forall t :: t in Tokens(s) ==> !Malformed(t)
  }

  ghost predicate Names(tokens: seq<Token>, name: string) {
    Placeholder(name) in tokens
  }

  // ------------------------------------------------------------------
  // The serving test
  // ------------------------------------------------------------------

  predicate HasPlaceholderIn(tokens: seq<Token>, names: set<string>) {
    tokens != [] && ((tokens[0].Placeholder? && tokens[0].name in names) || HasPlaceholderIn(tokens[1..], names))
  }

  /** What the serving test answers, as a function for the other models. */
  predicate UsesServing(value: string) {
    HasPlaceholderIn(LenientTokens(value), SERVING_PLACEHOLDERS)
  }

  lemma {:induction false} HasPlaceholderExact(tokens: seq<Token>, names: set<string>)
    ensures HasPlaceholderIn(tokens, names) <==> exists name :: name in names && Names(tokens, name)
  {
    if tokens != [] {
      HasPlaceholderExact(tokens[1..], names);
      assert tokens == [tokens[0]] + tokens[1..];
      assert forall name :: Names(tokens, name) <==> tokens[0] == Placeholder(name) || Names(tokens[1..], name);
    }
  }

  method ValueUsesAnyPlaceholder(value: string, names: set<string>) returns (found: bool)
    ensures found <==> HasPlaceholderIn(LenientTokens(value), names)
  {
    hide LenientTokensFrom, CloseFrom, HasPlaceholderIn;
    var index := 0;
    while index < |value|
      invariant 0 <= index <= |value|
      invariant HasPlaceholderIn(LenientTokens(value), names)
           <==> HasPlaceholderIn(LenientTokensFrom(value, index), names)
    {
      LenientStep(value, index, names);
      if value[index] != '$' {
        index := index + 1;
        continue;
      }
      if index + 1 < |value| && value[index + 1] == '$' {
        index := index + 2;
        continue;
      }
      if !(index + 1 < |value| && value[index + 1] == '{') {
        index := index + 1;
        continue;
      }
      var end := CloseFrom(value, index + 2);
      if end.None? {
        index := index + 2;
        continue;
      }
      var placeholder := value[index + 2..end.value];
      if placeholder in names {
        return true;
      }
      index := end.value + 1;
    }
    LenientEnd(value, names);
    return false;
  }

  /** The search moves on from a token that is not one of the names to the next. */
  lemma LenientStep(value: string, index: nat, names: set<string>)
    requires index < |value|
    ensures var step := StepAt(value, index);
      HasPlaceholderIn(LenientTokensFrom(value, index), names) <==>
        || (step.token.Placeholder? && step.token.name in names)
        || HasPlaceholderIn(LenientTokensFrom(value, step.next), names)
  {
    var step := StepAt(value, index);
    assert LenientTokensFrom(value, index)[1..] == LenientTokensFrom(value, step.next);
  }

  lemma LenientEnd(value: string, names: set<string>)
    ensures !HasPlaceholderIn(LenientTokensFrom(value, |value|), names)
  {
  }

  lemma {:induction false} LenientAgreesFrom(s: string, i: nat)
    requires i <= |s|
    requires forall t :: t in TokensFrom(s, i) ==> !Malformed(t)
    ensures LenientTokensFrom(s, i) == TokensFrom(s, i)
    decreases |s| - i
  {
    if i < |s| {
      assert StepAt(s, i).token in TokensFrom(s, i);
      LenientAgreesFrom(s, StepAt(s, i).next);
    }
  }

  // ------------------------------------------------------------------
  // The renderer
  // ------------------------------------------------------------------

  /** What one token renders to: a literal stands for itself, `$$` for `$`, a placeholder
      for its context value. */
  function RenderToken(field: string, t: Token, context: EnvMap): Result<string, ConfigError> {
    match t
    case Literal(c) => Ok([c])
    case Dollar => Ok("$")
    case Placeholder(name) =>
      if name in context then Ok(context[name]) else Err(MissingEnvContext(field, name))
    case BareDollar => Err(InvalidEnvPlaceholder(field, "$", BareDollarReason()))
    case Unterminated(text) => Err(InvalidEnvPlaceholder(field, text, UnterminatedReason()))
  }

  /** The renderings of all tokens in a row; the first offending token decides the error. */
  function RenderTokens(field: string, tokens: seq<Token>, context: EnvMap)
    : Result<string, ConfigError>
  {
    if tokens == [] then Ok("")
    else
      var head := RenderToken(field, tokens[0], context);
      if head.Err? then head else Prepend(head.value, RenderTokens(field, tokens[1..], context))
  }

  function Prepend(text: string, r: Result<string, ConfigError>): Result<string, ConfigError> {
    if r.Ok? then Ok(text + r.value) else r
  }

  function RenderValue(field: string, value: string, context: EnvMap): Result<string, ConfigError> {
    RenderTokens(field, Tokens(value), context)
  }

  lemma TokensEnd(value: string)
    ensures TokensFrom(value, |value|) == []
  {
  }

  lemma RenderEnd(field: string, value: string, context: EnvMap, rendered: string)
    ensures Prepend(rendered, RenderTokens(field, TokensFrom(value, |value|), context)) == Ok(rendered)
  {
    assert rendered + "" == rendered;
  }

  /** The renderer moves on from a token that renders to the next. */
  lemma RenderAt(field: string, value: string, index: nat, context: EnvMap, rendered: string)
    requires index < |value|
    ensures var step := StepAt(value, index);
      var head := RenderToken(field, step.token, context);
      Prepend(rendered, RenderTokens(field, TokensFrom(value, index), context)) ==
        if head.Err? then head
        else Prepend(rendered + head.value, RenderTokens(field, TokensFrom(value, step.next), context))
  {
    var step := StepAt(value, index);
    var head := RenderToken(field, step.token, context);
    if !Malformed(step.token) {
      assert TokensFrom(value, index)[1..] == TokensFrom(value, step.next);
      if head.Ok? {
        PrependTwice(rendered, head.value, RenderTokens(field, TokensFrom(value, step.next), context));
      }
    }
  }

  method RenderEnvValue(field: string, value: string, context: EnvMap)
    returns (r: Result<string, ConfigError>)
    ensures r == RenderValue(field, value, context)
  {
    hide TokensFrom, RenderTokens, Prepend, CloseFrom, BareDollarReason, UnterminatedReason;
    PrependNothing(RenderTokens(field, TokensFrom(value, 0), context));
    var rendered := "";
    var index := 0;
    while index < |value|
      invariant 0 <= index <= |value|
      invariant RenderValue(field, value, context)
             == Prepend(rendered, RenderTokens(field, TokensFrom(value, index), context))
    {
      RenderAt(field, value, index, context, rendered);
      if value[index] != '$' {
        rendered := rendered + [value[index]];
        index := index + 1;
        continue;
      }
      if index + 1 < |value| && value[index + 1] == '$' {
        rendered := rendered + "$";
        index := index + 2;
        continue;
      }
      if !(index + 1 < |value| && value[index + 1] == '{') {
        return Err(InvalidEnvPlaceholder(field, "$", BareDollarReason()));
      }
      var end := CloseFrom(value, index + 2);
      if end.None? {
        return Err(InvalidEnvPlaceholder(field, value[index..], UnterminatedReason()));
      }
      var placeholder := value[index + 2..end.value];
      if placeholder !in context {
        return Err(MissingEnvContext(field, placeholder));
      }
      rendered := rendered + context[placeholder];
      index := end.value + 1;
    }
    RenderEnd(field, value, context, rendered);
    return Ok(rendered);
  }

  lemma PrependNothing(r: Result<string, ConfigError>)
    ensures Prepend("", r) == r
  {
    if r.Ok? {
      assert "" + r.value == r.value;
    }
  }

  lemma PrependTwice(a: string, b: string, r: Result<string, ConfigError>)
    ensures Prepend(a, Prepend(b, r)) == Prepend(a + b, r)
  {
    if r.Ok? {
      assert a + (b + r.value) == (a + b) + r.value;
    }
  }

  // ------------------------------------------------------------------
  // The validator
  // ------------------------------------------------------------------

  datatype Scope = Project | Resource(resource: string) | Allocation(resource: string)

  /** The placeholder names each resource kind offers at its two depths. */
  datatype Registry = Registry(ofResource: map<string, set<string>>, ofAllocation: map<string, set<string>>)

  function AllowsPlaceholder(registry: Registry, scope: Scope, name: string): Result<bool, ConfigError> {
    if name in SERVING_PLACEHOLDERS then Ok(true)
    else
      match scope
      case Project => Ok(false)
      case Resource(resource) =>
        if resource !in registry.ofResource then Err(EnvPlaceholderContract(resource))
        else Ok(name in registry.ofResource[resource])
      case Allocation(resource) =>
        if resource !in registry.ofResource then Err(EnvPlaceholderContract(resource))
        else if name in registry.ofResource[resource] then Ok(true)
        else if resource !in registry.ofAllocation then Err(EnvPlaceholderContract(resource))
        else Ok(name in registry.ofAllocation[resource])
  }

  function ValidatePlaceholderName(field: string, name: string): Result<(), ConfigError> {
    if name == "" then Err(InvalidEnvPlaceholder(field, name, EmptyNameReason()))
    else if IsPlaceholderName(name) then Ok(())
    else Err(InvalidEnvPlaceholder(field, name, NameShapeReason()))
  }

  /** The verdict on one placeholder: its shape first, then whether the scope offers it. */
  function CheckName(field: string, registry: Registry, scope: Scope, name: string): Result<(), ConfigError> {
    var named := ValidatePlaceholderName(field, name);
    if named.Err? then named
    else
      match AllowsPlaceholder(registry, scope, name)
      case Err(e) => Err(e)
      case Ok(allowed) => if allowed then Ok(()) else Err(UnknownEnvPlaceholder(field, name))
  }

  function CheckToken(field: string, registry: Registry, scope: Scope, t: Token): Result<(), ConfigError> {
    match t
    case Literal(_) => Ok(())
    case Dollar => Ok(())
    case Placeholder(name) => CheckName(field, registry, scope, name)
    case BareDollar => Err(InvalidEnvPlaceholder(field, "$", BareDollarReason()))
    case Unterminated(text) => Err(InvalidEnvPlaceholder(field, text, UnterminatedReason()))
  }

  function CheckTokens(field: string, registry: Registry, scope: Scope, tokens: seq<Token>)
    : Result<(), ConfigError>
  {
    if tokens == [] then Ok(())
    else
      var head := CheckToken(field, registry, scope, tokens[0]);
      if head.Err? then head else CheckTokens(field, registry, scope, tokens[1..])
  }

  function Validate(field: string, registry: Registry, scope: Scope, value: string): Result<(), ConfigError> {
    CheckTokens(field, registry, scope, Tokens(value))
  }

  /** The check moves on from an acceptable token to the next. */
  lemma CheckAt(field: string, registry: Registry, scope: Scope, value: string, index: nat)
    requires index < |value|
    ensures var step := StepAt(value, index);
      var head := CheckToken(field, registry, scope, step.token);
      CheckTokens(field, registry, scope, TokensFrom(value, index)) ==
        if head.Err? then head else CheckTokens(field, registry, scope, TokensFrom(value, step.next))
  {
    var step := StepAt(value, index);
    if !Malformed(step.token) {
      assert TokensFrom(value, index)[1..] == TokensFrom(value, step.next);
    }
  }

  lemma NothingToCheck(field: string, registry: Registry, scope: Scope)
    ensures CheckTokens(field, registry, scope, []) == Ok(())
  {
  }

  method ValidateEnvPlaceholders(field: string, registry: Registry, scope: Scope, value: string)
    returns (r: Result<(), ConfigError>)
    ensures r == Validate(field, registry, scope, value)
  {
    hide TokensFrom, CheckTokens, IsPlaceholderName, AllowsPlaceholder, BareDollarReason, UnterminatedReason;
    var index := 0;
    TokensEnd(value);
    NothingToCheck(field, registry, scope);
    while index < |value|
      invariant 0 <= index <= |value|
      invariant Validate(field, registry, scope, value)
             == CheckTokens(field, registry, scope, TokensFrom(value, index))
    {
      CheckAt(field, registry, scope, value, index);
      if value[index] != '$' {
        index := index + 1;
        continue;
      }
      if index + 1 < |value| && value[index + 1] == '$' {
        index := index + 2;
        continue;
      }
      if !(index + 1 < |value| && value[index + 1] == '{') {
        return Err(InvalidEnvPlaceholder(field, "$", BareDollarReason()));
      }
      var end := CloseFrom(value, index + 2);
      if end.None? {
        return Err(InvalidEnvPlaceholder(field, value[index..], UnterminatedReason()));
      }
      var placeholder := value[index + 2..end.value];
      var named := ValidatePlaceholderName(field, placeholder);
      if named.Err? {
        return named;
      }
      var allowed := AllowsPlaceholder(registry, scope, placeholder);
      if allowed.Err? {
        return Err(allowed.error);
      }
      if !allowed.value {
        return Err(UnknownEnvPlaceholder(field, placeholder));
      }
      index := end.value + 1;
    }
    return Ok(());
  }

  // ------------------------------------------------------------------
  // Agreement of the scanners
  // ------------------------------------------------------------------

  lemma {:induction false} CheckTokensAccepts(field: string, registry: Registry, scope: Scope, tokens: seq<Token>)
    ensures CheckTokens(field, registry, scope, tokens).Ok? <==>
      forall t :: t in tokens ==>
        && !Malformed(t)
        && (t.Placeholder? ==> CheckName(field, registry, scope, t.name).Ok?)
  {
    if tokens != [] {
      CheckTokensAccepts(field, registry, scope, tokens[1..]);
      assert tokens == [tokens[0]] + tokens[1..];
    }
  }

  /** The validator accepts exactly the well-formed values whose every placeholder has a
      legal name that the scope offers. */
  lemma ValidatorAcceptsExactly(field: string, registry: Registry, scope: Scope, value: string)
    ensures Validate(field, registry, scope, value).Ok? <==>
      && WellFormed(value)
      && forall name :: Names(Tokens(value), name) ==>
           IsPlaceholderName(name) && AllowsPlaceholder(registry, scope, name) == Ok(true)
  {
    var tokens := Tokens(value);
    CheckTokensAccepts(field, registry, scope, tokens);
    if Validate(field, registry, scope, value).Ok? {
      forall name | Names(tokens, name)
        ensures IsPlaceholderName(name) && AllowsPlaceholder(registry, scope, name) == Ok(true)
      {
        assert Placeholder(name) in tokens;
      }
    } else {
      var t :| t in tokens
        && (Malformed(t) || (t.Placeholder? && CheckName(field, registry, scope, t.name).Err?));
      if t.Placeholder? {
        assert Names(tokens, t.name);
      }
    }
  }

  lemma {:induction false} RenderTokensOutcome(field: string, tokens: seq<Token>, context: EnvMap)
    requires forall t :: t in tokens ==> !Malformed(t)
    ensures RenderTokens(field, tokens, context).Ok? <==> forall name :: Names(tokens, name) ==> name in context
    ensures match RenderTokens(field, tokens, context)
      case Ok(_) => true
      case Err(e) => exists name :: Names(tokens, name) && name !in context && e == MissingEnvContext(field, name)
  {
    if tokens != [] {
      var t := tokens[0];
      RenderTokensOutcome(field, tokens[1..], context);
      assert tokens == [t] + tokens[1..];
      assert forall name :: Names(tokens, name) <==> t == Placeholder(name) || Names(tokens[1..], name);
      assert t in tokens;
      if t.Placeholder? && t.name !in context {
        assert Names(tokens, t.name);
      }
    }
  }

  /** A value the validator accepted never renders as malformed: it renders exactly when
      every placeholder it names is in the context, and otherwise reports a missing one. */
  lemma AcceptedValueRenders(field: string, registry: Registry, scope: Scope, value: string, context: EnvMap)
    requires Validate(field, registry, scope, value).Ok?
    ensures RenderValue(field, value, context).Ok? <==>
      forall name :: Names(Tokens(value), name) ==> name in context
    ensures match RenderValue(field, value, context)
      case Ok(_) => true
      case Err(e) => exists name ::
        Names(Tokens(value), name) && name !in context && e == MissingEnvContext(field, name)
  {
    ValidatorAcceptsExactly(field, registry, scope, value);
    RenderTokensOutcome(field, Tokens(value), context);
  }

  /** On well-formed values the serving test holds exactly when a serving token occurs. */
  lemma ServingTestExact(value: string)
    requires WellFormed(value)
    ensures UsesServing(value) <==>
      exists name :: name in SERVING_PLACEHOLDERS && Names(Tokens(value), name)
  {
    LenientAgreesFrom(value, 0);
    HasPlaceholderExact(Tokens(value), SERVING_PLACEHOLDERS);
  }

  /** A root entry that a non-serving project keeps renders whatever the context is:
      the root scope offers serving placeholders only, and the kept entry uses none. */
  lemma KeptRootEntryRenders(field: string, registry: Registry, value: string, context: EnvMap)
    requires Validate(field, registry, Project, value).Ok?
    requires !UsesServing(value)
    ensures RenderValue(field, value, context).Ok?
  {
    ValidatorAcceptsExactly(field, registry, Project, value);
    ServingTestExact(value);
    AcceptedValueRenders(field, registry, Project, value, context);
  }

  // ------------------------------------------------------------------
  // Escaping
  // ------------------------------------------------------------------

  function DoubleDollars(s: string): string {
    if s == "" then ""
    else (if s[0] == '$' then "$$" else [s[0]]) + DoubleDollars(s[1..])
  }

  lemma {:induction false} DoubledTokens(s: string, doubled: string, i: nat, field: string, context: EnvMap)
    requires i <= |doubled| && doubled[i..] == DoubleDollars(s)
    ensures forall t :: t in TokensFrom(doubled, i) ==> t.Literal? || t.Dollar?
    ensures RenderTokens(field, TokensFrom(doubled, i), context) == Ok(s)
  {
    if s != "" {
      var width := if s[0] == '$' then 2 else 1;
      assert doubled[i] == doubled[i..][0] && (width == 2 ==> doubled[i + 1] == doubled[i..][1]);
      assert doubled[i + width..] == doubled[i..][width..] == DoubleDollars(s[1..]);
      DoubledTokens(s[1..], doubled, i + width, field, context);
      var head := if s[0] == '$' then Dollar else Literal(s[0]);
      assert TokensFrom(doubled, i) == [head] + TokensFrom(doubled, i + width);
      assert TokensFrom(doubled, i)[1..] == TokensFrom(doubled, i + width);
      assert s == [s[0]] + s[1..];
    }
  }

  /** Doubling every `$` is the escape: any text at all, so written, is accepted in every
      scope, is never a serving value, and renders back to that text in every context. */
  lemma EscapeRoundTrip(s: string, field: string, registry: Registry, scope: Scope, context: EnvMap)
    ensures RenderValue(field, DoubleDollars(s), context) == Ok(s)
    ensures Validate(field, registry, scope, DoubleDollars(s)).Ok?
    ensures !UsesServing(DoubleDollars(s))
  {
    DoubledTokens(s, DoubleDollars(s), 0, field, context);
    ValidatorAcceptsExactly(field, registry, scope, DoubleDollars(s));
    ServingTestExact(DoubleDollars(s));
  }
}
