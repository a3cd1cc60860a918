/** What the three scanners answer on every text, told by how the text begins: any text is plain
    characters with their dollars doubled, followed by nothing, by a whole placeholder, by a
    placeholder that is never closed, or by a dollar that stands alone. */
module PlaceholderForms {
  import opened Text
  import opened Config
  import opened Placeholders

  // ------------------------------------------------------------------
  // Scanning goes on as if the text began there
  // ------------------------------------------------------------------

  lemma {:induction false} CloseSuffix(s: string, d: nat, from: nat)
    requires d <= from <= |s|
    ensures CloseFrom(s, from) == match CloseFrom(s[d..], from - d) case None => None case Some(k) => Some(k + d)
    decreases |s| - from
  {
    if from < |s| && s[from] != '}' {
      CloseSuffix(s, d, from + 1);
    }
  }

  lemma StepSuffix(s: string, d: nat, i: nat)
    requires d <= i < |s|
    ensures StepAt(s, i) == StepAt(s[d..], i - d).(next := StepAt(s[d..], i - d).next + d)
  {
    if i + 1 < |s| && s[i] == '$' && s[i + 1] == '{' {
      CloseSuffix(s, d, i + 2);
      assert s[i..] == s[d..][i - d..];
      var end := CloseFrom(s, i + 2);
      assert end.Some? ==> s[i + 2..end.value] == s[d..][i - d + 2..end.value - d];
    }
  }

  lemma {:induction false} TokensSuffix(s: string, d: nat, i: nat)
    requires d <= i <= |s|
    ensures TokensFrom(s, i) == TokensFrom(s[d..], i - d)
    ensures LenientTokensFrom(s, i) == LenientTokensFrom(s[d..], i - d)
    decreases |s| - i
  {
    hide StepAt, CloseFrom;
    if i < |s| {
      StepSuffix(s, d, i);
      TokensSuffix(s, d, StepAt(s, i).next);
    }
  }

  /** The tokens of a text are its first and those of what is left of it. */
  lemma FirstToken(s: string)
    requires s != ""
    ensures Tokens(s) ==
      if Malformed(StepAt(s, 0).token) then [StepAt(s, 0).token]
      else [StepAt(s, 0).token] + Tokens(s[StepAt(s, 0).next..])
    ensures LenientTokens(s) == [StepAt(s, 0).token] + LenientTokens(s[StepAt(s, 0).next..])
  {
    hide StepAt, CloseFrom;
    TokensSuffix(s, StepAt(s, 0).next, StepAt(s, 0).next);
  }

  // ------------------------------------------------------------------
  // Plain characters
  // ------------------------------------------------------------------

  function Plain(s: string): seq<Token> {
    if s == "" then [] else [if s[0] == '$' then Dollar else Literal(s[0])] + Plain(s[1..])
  }

  /** One plain character, its dollar doubled, in front of any text. */
  lemma PlainToken(c: char, rest: string)
    ensures var value := (if c == '$' then "$$" else [c]) + rest;
      && Tokens(value) == Plain([c]) + Tokens(rest)
      && LenientTokens(value) == Plain([c]) + LenientTokens(rest)
  {
    var first := if c == '$' then "$$" else [c];
    assert (first + rest)[|first|..] == rest && (first + rest)[0] == c;
    assert Plain([c]) == [StepAt(first + rest, 0).token] + Plain([c][1..]);
    FirstToken(first + rest);
  }

  lemma {:induction false} EscapedTokens(s: string, rest: string)
    ensures Tokens(DoubleDollars(s) + rest) == Plain(s) + Tokens(rest)
    ensures LenientTokens(DoubleDollars(s) + rest) == Plain(s) + LenientTokens(rest)
  {
    if s == "" {
      assert DoubleDollars(s) + rest == rest;
    } else {
      hide Tokens, LenientTokens, Plain, DoubleDollars;
      var first := if s[0] == '$' then "$$" else [s[0]];
      var more := DoubleDollars(s[1..]) + rest;
      EscapedTokens(s[1..], rest);
      FirstPlain(s);
      assert DoubleDollars(s) + rest == first + more;
      PlainToken(s[0], more);
      assert Plain([s[0]]) + (Plain(s[1..]) + Tokens(rest)) == Plain(s) + Tokens(rest);
      assert Plain([s[0]]) + (Plain(s[1..]) + LenientTokens(rest)) == Plain(s) + LenientTokens(rest);
    }
  }

  lemma FirstPlain(s: string)
    requires s != ""
    ensures DoubleDollars(s) == (if s[0] == '$' then "$$" else [s[0]]) + DoubleDollars(s[1..])
    ensures Plain(s) == Plain([s[0]]) + Plain(s[1..])
  {
    assert [s[0]][1..] == "";
  }

  lemma {:induction false} PlainFirst(field: string, registry: Registry, scope: Scope, s: string, rest: seq<Token>,
                                      context: EnvMap, names: set<string>)
    ensures RenderTokens(field, Plain(s) + rest, context) == Prepend(s, RenderTokens(field, rest, context))
    ensures CheckTokens(field, registry, scope, Plain(s) + rest) == CheckTokens(field, registry, scope, rest)
    ensures HasPlaceholderIn(Plain(s) + rest, names) == HasPlaceholderIn(rest, names)
  {
    if s == "" {
      assert Plain(s) + rest == rest;
      PrependNothing(RenderTokens(field, rest, context));
    } else {
      PlainFirst(field, registry, scope, s[1..], rest, context, names);
      assert (Plain(s) + rest)[1..] == Plain(s[1..]) + rest;
      PrependTwice([s[0]], s[1..], RenderTokens(field, rest, context));
      assert [s[0]] + s[1..] == s;
    }
  }

  /** Plain characters in front are rendered as they are, pass the check, and hold no serving
      placeholder. */
  lemma EscapedFirst(field: string, registry: Registry, scope: Scope, s: string, rest: string, context: EnvMap)
    ensures RenderValue(field, DoubleDollars(s) + rest, context) == Prepend(s, RenderValue(field, rest, context))
    ensures Validate(field, registry, scope, DoubleDollars(s) + rest) == Validate(field, registry, scope, rest)
    ensures UsesServing(DoubleDollars(s) + rest) == UsesServing(rest)
  {
    hide TokensFrom, LenientTokensFrom, RenderTokens, CheckTokens, HasPlaceholderIn;
    EscapedTokens(s, rest);
    PlainFirst(field, registry, scope, s, Tokens(rest), context, SERVING_PLACEHOLDERS);
    PlainFirst(field, registry, scope, s, LenientTokens(rest), context, SERVING_PLACEHOLDERS);
  }

  // ------------------------------------------------------------------
  // A whole placeholder
  // ------------------------------------------------------------------

  lemma {:induction false} ClosesAt(s: string, from: nat, end: nat)
    requires from <= end < |s| && s[end] == '}' && forall i :: from <= i < end ==> s[i] != '}'
    ensures CloseFrom(s, from) == Some(end)
    decreases |s| - from
  {
    if from < end {
      ClosesAt(s, from + 1, end);
    }
  }

  lemma PlaceholderToken(name: string, rest: string)
    requires '}' !in name
    ensures Tokens("${" + name + "}" + rest) == [Placeholder(name)] + Tokens(rest)
    ensures LenientTokens("${" + name + "}" + rest) == [Placeholder(name)] + LenientTokens(rest)
  {
    var value := "${" + name + "}" + rest;
    var end := |name| + 2;
    ClosesAt(value, 2, end);
    assert value[2..end] == name && value[end + 1..] == rest;
    FirstToken(value);
  }

  /** A placeholder between plain characters and any further text renders to its context value
      between what the two render to; if the context lacks it, that is the error. */
  lemma PlaceholderRenders(field: string, s: string, name: string, rest: string, context: EnvMap)
    requires '}' !in name
    ensures RenderValue(field, DoubleDollars(s) + "${" + name + "}" + rest, context) ==
      if name !in context then Err(MissingEnvContext(field, name))
      else if RenderValue(field, rest, context).Err? then RenderValue(field, rest, context)
      else Ok(s + context[name] + RenderValue(field, rest, context).value)
  {
    hide TokensFrom, LenientTokensFrom;
    var value := "${" + name + "}" + rest;
    assert DoubleDollars(s) + "${" + name + "}" + rest == DoubleDollars(s) + value;
    EscapedFirst(field, Registry(map[], map[]), Project, s, value, context);
    PlaceholderToken(name, rest);
    assert Tokens(value)[1..] == Tokens(rest);
    if name in context && RenderValue(field, rest, context).Ok? {
      PrependTwice(s, context[name], RenderValue(field, rest, context));
    }
  }

  /** The validator judges its name, by shape and then by scope, and goes on behind it; the
      serving names are allowed in every scope. */
  lemma PlaceholderChecked(field: string, registry: Registry, scope: Scope, s: string, name: string, rest: string)
    requires '}' !in name
    ensures Validate(field, registry, scope, DoubleDollars(s) + "${" + name + "}" + rest) ==
      if name == "" then Err(InvalidEnvPlaceholder(field, "", "placeholder name must not be empty"))
      else if !IsPlaceholderName(name) then
        Err(InvalidEnvPlaceholder(field, name, "placeholder names must use lowercase snake_case"))
      else if name in {"project_url", "tls_ca", "tls_cert", "tls_key"} then Validate(field, registry, scope, rest)
      else if AllowsPlaceholder(registry, scope, name).Err? then Err(AllowsPlaceholder(registry, scope, name).error)
      else if !AllowsPlaceholder(registry, scope, name).value then Err(UnknownEnvPlaceholder(field, name))
      else Validate(field, registry, scope, rest)
  {
    hide TokensFrom, LenientTokensFrom, IsPlaceholderName;
    var value := "${" + name + "}" + rest;
    assert DoubleDollars(s) + "${" + name + "}" + rest == DoubleDollars(s) + value;
    EscapedFirst(field, registry, scope, s, value, map[]);
    PlaceholderToken(name, rest);
    assert Tokens(value)[1..] == Tokens(rest);
  }

  /** It makes the text a serving value exactly if it is one of the four serving names or what
      comes behind it is a serving value. */
  lemma PlaceholderServes(s: string, name: string, rest: string)
    requires '}' !in name
    ensures UsesServing(DoubleDollars(s) + "${" + name + "}" + rest) <==>
      name in {"project_url", "tls_ca", "tls_cert", "tls_key"} || UsesServing(rest)
  {
    hide TokensFrom, LenientTokensFrom;
    var value := "${" + name + "}" + rest;
    assert DoubleDollars(s) + "${" + name + "}" + rest == DoubleDollars(s) + value;
    EscapedFirst("", Registry(map[], map[]), Project, s, value, map[]);
    PlaceholderToken(name, rest);
    assert LenientTokens(value)[1..] == LenientTokens(rest);
  }

  // ------------------------------------------------------------------
  // What is malformed
  // ------------------------------------------------------------------

  /** A placeholder that is never closed is the error of renderer and validator, with all the
      text from its dollar on; the serving test goes on behind its brace. */
  lemma UnterminatedForm(field: string, registry: Registry, scope: Scope, s: string, rest: string, context: EnvMap)
    requires '}' !in rest
    ensures var error := InvalidEnvPlaceholder(field, "${" + rest, "placeholder must end with `}`");
      && RenderValue(field, DoubleDollars(s) + "${" + rest, context) == Err(error)
      && Validate(field, registry, scope, DoubleDollars(s) + "${" + rest) == Err(error)
    ensures UsesServing(DoubleDollars(s) + "${" + rest) == UsesServing(rest)
  {
    hide TokensFrom, LenientTokensFrom;
    var value := "${" + rest;
    assert DoubleDollars(s) + "${" + rest == DoubleDollars(s) + value;
    EscapedFirst(field, registry, scope, s, value, context);
    assert CloseFrom(value, 2).None?;
    assert value[0..] == value && value[2..] == rest;
    FirstToken(value);
    assert LenientTokens(value)[1..] == LenientTokens(rest);
  }

  /** So is a dollar that neither another one nor a brace follows; the serving test passes
      over it. */
  lemma BareDollarForm(field: string, registry: Registry, scope: Scope, s: string, rest: string, context: EnvMap)
    requires rest != "" ==> rest[0] != '$' && rest[0] != '{'
    ensures var error := InvalidEnvPlaceholder(field, "$", "literal dollar signs must be escaped as `$$`");
      && RenderValue(field, DoubleDollars(s) + "$" + rest, context) == Err(error)
      && Validate(field, registry, scope, DoubleDollars(s) + "$" + rest) == Err(error)
    ensures UsesServing(DoubleDollars(s) + "$" + rest) == UsesServing(rest)
  {
    hide TokensFrom, LenientTokensFrom;
    var value := "$" + rest;
    assert DoubleDollars(s) + "$" + rest == DoubleDollars(s) + value;
    EscapedFirst(field, registry, scope, s, value, context);
    assert value[1..] == rest;
    FirstToken(value);
    assert LenientTokens(value)[1..] == LenientTokens(rest);
  }

  /** The four ways a text goes on after its plain characters `s`. */
  ghost predicate HasForm(value: string, s: string, name: string, rest: string) {
    || value == DoubleDollars(s)
    || ('}' !in name && value == DoubleDollars(s) + "${" + name + "}" + rest)
    || ('}' !in rest && value == DoubleDollars(s) + "${" + rest)
    || ((rest != "" ==> rest[0] != '$' && rest[0] != '{') && value == DoubleDollars(s) + "$" + rest)
  }

  lemma FormMore(c: char, value: string, s: string, name: string, rest: string)
    requires HasForm(value, s, name, rest)
    ensures HasForm((if c == '$' then "$$" else [c]) + value, [c] + s, name, rest)
  {
    var first := if c == '$' then "$$" else [c];
    assert ([c] + s)[1..] == s;
    assert DoubleDollars([c] + s) == first + DoubleDollars(s);
    assert first + (DoubleDollars(s) + "$" + rest) == DoubleDollars([c] + s) + "$" + rest;
    assert first + (DoubleDollars(s) + "${" + rest) == DoubleDollars([c] + s) + "${" + rest;
    assert first + (DoubleDollars(s) + "${" + name + "}" + rest) == DoubleDollars([c] + s) + "${" + name + "}" + rest;
  }

  /** Every text has one of these forms, so the laws above say what every text comes to. */
  lemma {:induction false} EveryForm(value: string) returns (s: string, name: string, rest: string)
    ensures HasForm(value, s, name, rest)
    decreases |value|
  {
    s, name, rest := "", "", "";
    if value != "" && (value[0] != '$' || (|value| > 1 && value[1] == '$')) {
      var width := if value[0] == '$' then 2 else 1;
      s, name, rest := EveryForm(value[width..]);
      FormMore(value[0], value[width..], s, name, rest);
      assert value == value[..width] + value[width..];
      s := [value[0]] + s;
    } else if value != "" && !(|value| > 1 && value[1] == '{') {
      rest := value[1..];
      assert value == "" + "$" + rest;
    } else if value != "" {
      var end := CloseFrom(value, 2);
      if end.None? {
        rest := value[2..];
        assert value == "" + "${" + rest;
      } else {
        name, rest := value[2..end.value], value[end.value + 1..];
        assert value == "" + "${" + name + "}" + rest;
      }
    }
  }
}
