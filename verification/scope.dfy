/** Reconciliation scopes: their printed form, its parser, and the checked constructors. */
module Scope {
  import opened Text

  datatype Scope = System | Project(id: string) | Resource(name: string, track: string)

  datatype ScopeError =
    | UnknownScope(scope: string)
    | InvalidComponentCount(scope: string, expected: nat, actual: nat)
    | EmptyComponent(scope: string, component: string)

  function Print(scope: Scope): string {
    match scope
    case System => "system"
    case Project(id) => "project:" + id
    case Resource(name, track) => "resource:" + name + ":" + track
  }

  function Parse(text: string): Result<Scope, ScopeError> {
    var parts := Split(text, ':');
    if parts == ["system"] then Ok(System)
    else if parts[0] == "project" then
      if |parts| != 2 then Err(InvalidComponentCount(text, 2, |parts|))
      else if parts[1] == "" then Err(EmptyComponent(text, "id"))
      else Ok(Project(parts[1]))
    else if parts[0] == "resource" then
      if |parts| != 3 then Err(InvalidComponentCount(text, 3, |parts|))
      else if parts[1] == "" then Err(EmptyComponent(text, "name"))
      else if parts[2] == "" then Err(EmptyComponent(text, "track"))
      else Ok(Resource(parts[1], parts[2]))
    else Err(UnknownScope(text))
  }

  function NewComponent(value: string, component: string, scope: string, expected: nat): Result<string, ScopeError> {
    if value == "" then Err(EmptyComponent(scope, component))
    else if |Split(scope, ':')| != expected then
      Err(InvalidComponentCount(scope, expected, |Split(scope, ':')|))
    else Ok(value)
  }

  function NewProject(id: string): Result<Scope, ScopeError> {
    var made := NewComponent(id, "id", "project:" + id, 2);
    if made.Err? then Err(made.error) else Ok(Project(made.value))
  }

  function NewResource(name: string, track: string): Result<Scope, ScopeError> {
    var scope := "resource:" + name + ":" + track;
    var madeName := NewComponent(name, "name", scope, 3);
    if madeName.Err? then Err(madeName.error)
    else
      var madeTrack := NewComponent(track, "track", scope, 3);
      if madeTrack.Err? then Err(madeTrack.error) else Ok(Resource(madeName.value, madeTrack.value))
  }

  predicate IsComponent(value: string) {
    value != "" && ':' !in value
  }

  /** The scopes the constructors can make. */
  predicate Legal(scope: Scope) {
    match scope
    case System => true
    case Project(id) => IsComponent(id)
    case Resource(name, track) => IsComponent(name) && IsComponent(track)
  }

  lemma SplitWord(word: string, rest: string)
    requires ':' !in word
    ensures Split(word + ":" + rest, ':') == [word] + Split(rest, ':')
  {
    SplitConcat(word, ':', rest);
    SplitFree(word, ':');
    assert word + ":" + rest == word + [':'] + rest;
  }

  lemma {:induction false} SplitSingle(text: string)
    ensures |Split(text, ':')| == 1 <==> ':' !in text
  {
    if ':' !in text {
      SplitFree(text, ':');
    } else {
      SplitPartsFree(text, ':');
      JoinSplit(text, ':');
    }
  }

  /** The constructors accept exactly the nonempty components without a colon. */
  lemma NewProjectExact(id: string)
    ensures NewProject(id).Ok? <==> IsComponent(id)
    ensures NewProject(id).Ok? ==> NewProject(id).value == Project(id)
  {
    assert "project:" + id == "project" + ":" + id;
    SplitWord("project", id);
    SplitSingle(id);
  }

  lemma ResourceParts(name: string, track: string)
    ensures Split("resource:" + name + ":" + track, ':') == ["resource"] + Split(name, ':') + Split(track, ':')
  {
    var rest := name + ":" + track;
    assert "resource:" + name + ":" + track == "resource" + ":" + rest;
    SplitWord("resource", rest);
    assert rest == name + [':'] + track;
    SplitConcat(name, ':', track);
  }

  lemma NewResourceExact(name: string, track: string)
    ensures NewResource(name, track).Ok? <==> IsComponent(name) && IsComponent(track)
    ensures NewResource(name, track).Ok? ==> NewResource(name, track).value == Resource(name, track)
  {
    ResourceParts(name, track);
    SplitSingle(name);
    SplitSingle(track);
  }

  /** Parsing what was printed gives the scope back. */
  lemma ParsePrint(scope: Scope)
    requires Legal(scope)
    ensures Parse(Print(scope)) == Ok(scope)
  {
    match scope
    case System =>
      SplitFree("system", ':');
    case Project(id) =>
      assert "project:" + id == "project" + ":" + id;
      SplitWord("project", id);
      SplitFree(id, ':');
    case Resource(name, track) =>
      ResourceParts(name, track);
      SplitFree(name, ':');
      SplitFree(track, ':');
      assert ["resource"] + [name] + [track] == ["resource", name, track];
  }

  /** Only printed forms of legal scopes parse. */
  lemma PrintParse(text: string)
    requires Parse(text).Ok?
    ensures Legal(Parse(text).value) && Print(Parse(text).value) == text
  {
    hide Split, Join;
    var parts := Split(text, ':');
    SplitPartsFree(text, ':');
    JoinSplit(text, ':');
    JoinFew(parts);
    if |parts| == 1 {
      assert parts == ["system"];
    }
  }

  lemma JoinFew(parts: seq<string>)
    ensures |parts| == 1 ==> Join(parts, ':') == parts[0]
    ensures |parts| == 2 ==> Join(parts, ':') == parts[0] + ":" + parts[1]
    ensures |parts| == 3 ==> Join(parts, ':') == parts[0] + ":" + parts[1] + ":" + parts[2]
  {
    if |parts| == 3 {
      JoinFew(parts[1..]);
      assert parts[0] + ":" + (parts[1] + ":" + parts[2]) == parts[0] + ":" + parts[1] + ":" + parts[2];
    }
  }

  /** Distinct legal scopes print differently. */
  lemma PrintInjective(a: Scope, b: Scope)
    requires Legal(a) && Legal(b) && Print(a) == Print(b)
    ensures a == b
  {
    ParsePrint(a);
    ParsePrint(b);
  }

  /** What becomes of a text that is no scope: by its first word, and by what follows it. */
  lemma WordForms(word: string, rest: string)
    requires ':' !in word
    ensures Parse(word) ==
      if word == "system" then Ok(System)
      else if word == "project" then Err(InvalidComponentCount(word, 2, 1))
      else if word == "resource" then Err(InvalidComponentCount(word, 3, 1))
      else Err(UnknownScope(word))
    ensures word != "project" && word != "resource" ==> Parse(word + ":" + rest) == Err(UnknownScope(word + ":" + rest))
  {
    hide Split;
    SplitFree(word, ':');
    WordThen(word, rest);
  }

  lemma ProjectForms(a: string, rest: string)
    requires ':' !in a
    ensures Parse("project:") == Err(EmptyComponent("project:", "id"))
    ensures Parse("project:" + a + ":" + rest)
      == Err(InvalidComponentCount("project:" + a + ":" + rest, 2, 2 + |Split(rest, ':')|))
  {
    hide Split;
    WordThen("project", "");
    SplitFree("", ':');
    assert "project" + ":" + "" == "project:";
    WordsThen("project", a, rest);
  }

  lemma ResourceForms(a: string, b: string, rest: string)
    requires ':' !in a && ':' !in b
    ensures Parse("resource:" + a) == Err(InvalidComponentCount("resource:" + a, 3, 2))
    ensures a == "" || b == "" ==>
      Parse("resource:" + a + ":" + b)
        == Err(EmptyComponent("resource:" + a + ":" + b, if a == "" then "name" else "track"))
    ensures Parse("resource:" + a + ":" + (b + ":" + rest))
      == Err(InvalidComponentCount("resource:" + a + ":" + (b + ":" + rest), 3, 3 + |Split(rest, ':')|))
  {
    hide Split;
    WordThen("resource", a);
    SplitFree(a, ':');
    SplitFree(b, ':');
    WordsThen("resource", a, b);
    SplitWord(b, rest);
    WordsThen("resource", a, b + ":" + rest);
  }

  lemma WordThen(word: string, rest: string)
    requires ':' !in word
    ensures Split(word + ":" + rest, ':') == [word] + Split(rest, ':')
    ensures "project:" + rest == "project" + ":" + rest && "resource:" + rest == "resource" + ":" + rest
  {
    hide Split;
    SplitWord(word, rest);
  }

  lemma WordsThen(word: string, a: string, rest: string)
    requires ':' !in word && ':' !in a
    ensures Split(word + ":" + a + ":" + rest, ':') == [word, a] + Split(rest, ':')
    ensures "project:" + a + ":" + rest == "project" + ":" + a + ":" + rest
    ensures "resource:" + a + ":" + rest == "resource" + ":" + a + ":" + rest
  {
    hide Split;
    SplitWord(word, a + ":" + rest);
    SplitWord(a, rest);
    assert word + ":" + (a + ":" + rest) == word + ":" + a + ":" + rest;
    assert [word] + ([a] + Split(rest, ':')) == [word, a] + Split(rest, ':');
  }
}
