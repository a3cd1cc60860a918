/** Writing an environment as `KEY=value` lines, and a reader that loses nothing. */
module EnvFormat {
  import opened Text
  import opened Config
  import opened Ordered

  predicate IsSafeUnquoted(value: string) {
    && value != ""
    && forall i :: 0 <= i < |value| ==>
         !IsWhitespace(value[i]) && value[i] !in {'#', '"', '\'', '\\', '$'}
  }

  function EscapeChar(c: char): string {
    match c
    case '"' => "\\\""
    case '\\' => "\\\\"
    case '$' => "\\$"
    case '\n' => "\\n"
    case '\r' => "\\r"
    case '\t' => "\\t"
    case _ => [c]
  }

  function Escape(value: string): string {
    if value == "" then "" else EscapeChar(value[0]) + Escape(value[1..])
  }

  function Formatted(value: string): string {
    if IsSafeUnquoted(value) then value else "\"" + Escape(value) + "\""
  }

  lemma EscapeAt(value: string, i: nat, escaped: string)
    requires i <= |value|
    ensures escaped + Escape(value[i..]) ==
      if i == |value| then escaped else escaped + EscapeChar(value[i]) + Escape(value[i + 1..])
  {
    if i == |value| {
      assert escaped + "" == escaped;
    } else {
      assert value[i..][1..] == value[i + 1..];
      assert escaped + (EscapeChar(value[i]) + Escape(value[i + 1..]))
          == escaped + EscapeChar(value[i]) + Escape(value[i + 1..]);
    }
  }

  method FormatEnvValue(value: string) returns (text: string)
    ensures text == Formatted(value)
  {
    hide Escape, EscapeChar, IsSafeUnquoted;
    if IsSafeUnquoted(value) {
      return value;
    }
    var escaped := "";
    var i := 0;
    assert value[0..] == value;
    assert "" + Escape(value) == Escape(value);
    while i < |value|
      invariant 0 <= i <= |value|
      invariant Escape(value) == escaped + Escape(value[i..])
    {
      EscapeAt(value, i, escaped);
      escaped := escaped + EscapeChar(value[i]);
      i := i + 1;
    }
    EscapeAt(value, i, escaped);
    return "\"" + escaped + "\"";
  }

  // ------------------------------------------------------------------
  // The reader
  // ------------------------------------------------------------------

  function Unescape(s: string): Option<string> {
    if s == "" then Some("")
    else if s[0] == '\\' then
      if |s| == 1 then None
      else
        var c := match s[1] case 'n' => '\n' case 'r' => '\r' case 't' => '\t' case other => other;
        match Unescape(s[2..])
        case None => None
        case Some(rest) => Some([c] + rest)
    else
      match Unescape(s[1..])
      case None => None
      case Some(rest) => Some([s[0]] + rest)
  }

  /** Text in double quotes is unescaped, any other text stands for itself. */
  function Decode(text: string): Option<string> {
    if StartsWith(text, "\"") then
      if |text| >= 2 && EndsWith(text, '"') then Unescape(text[1..|text| - 1]) else None
    else Some(text)
  }

  lemma {:induction false} UnescapeEscape(value: string)
    ensures Unescape(Escape(value)) == Some(value)
  {
    if value != "" {
      UnescapeEscape(value[1..]);
      var head, rest := EscapeChar(value[0]), Escape(value[1..]);
      assert (head + rest)[|head|..] == rest;
      assert value == [value[0]] + value[1..];
    }
  }

  /** Every value is recovered from its written form: the two forms are never confused. */
  lemma DecodeFormatted(value: string)
    ensures Decode(Formatted(value)) == Some(value)
  {
    UnescapeEscape(value);
    if !IsSafeUnquoted(value) {
      var text := "\"" + Escape(value) + "\"";
      assert text[1..|text| - 1] == Escape(value);
    }
  }

  lemma {:induction false} EscapeLength(value: string)
    ensures |Escape(value)| >= |value|
  {
    if value != "" {
      EscapeLength(value[1..]);
    }
  }

  /** A value is written as it is exactly if it is not empty and has no white space, comment sign,
      quote, backslash or dollar; any other is written in double quotes. */
  lemma BareExact(value: string)
    ensures Formatted(value) == value <==>
      && value != ""
      && forall c :: c in value ==>
           !IsWhitespace(c) && c != '#' && c != '"' && c != '\'' && c != '\\' && c != '$'
    ensures Formatted(value) != value ==> Formatted(value) == "\"" + Escape(value) + "\""
  {
    EscapeLength(value);
    hide IsWhitespace, Escape;
    assert !IsSafeUnquoted(value) ==> |Formatted(value)| >= |value| + 2;
    assert forall i :: 0 <= i < |value| ==> value[i] in value;
  }

  /** Within the quotes, what each character comes to. */
  lemma EscapeForms(c: char, rest: string)
    ensures Escape("") == ""
    ensures Escape("\"" + rest) == "\\\"" + Escape(rest) && Escape("\\" + rest) == "\\\\" + Escape(rest)
    ensures Escape("$" + rest) == "\\$" + Escape(rest) && Escape("\n" + rest) == "\\n" + Escape(rest)
    ensures Escape("\r" + rest) == "\\r" + Escape(rest) && Escape("\t" + rest) == "\\t" + Escape(rest)
    ensures c !in {'"', '\\', '$', '\n', '\r', '\t'} ==> Escape([c] + rest) == [c] + Escape(rest)
  {
    forall d: char ensures Escape([d] + rest) == EscapeChar(d) + Escape(rest) {
      assert ([d] + rest)[1..] == rest;
    }
  }

  lemma {:induction false} EscapeOneLine(value: string)
    ensures '\n' !in Escape(value) && '\r' !in Escape(value)
  {
    if value != "" {
      EscapeOneLine(value[1..]);
      assert '\n' !in EscapeChar(value[0]) && '\r' !in EscapeChar(value[0]);
    }
  }

  /** A written value is never empty and stays on one physical line. */
  lemma FormattedOneLine(value: string)
    ensures Formatted(value) != ""
    ensures '\n' !in Formatted(value) && '\r' !in Formatted(value)
  {
    EscapeOneLine(value);
    assert IsWhitespace('\n') && IsWhitespace('\r');
  }

  // ------------------------------------------------------------------
  // Whole environments
  // ------------------------------------------------------------------

  function EntryLine(key: string, value: string): string {
    key + "=" + Formatted(value)
  }

  function EntryLines(rendered: EnvMap, keys: seq<string>): seq<string>
    requires forall k :: k in keys ==> k in rendered
  {
    if keys == [] then []
    else [EntryLine(keys[0], rendered[keys[0]])] + EntryLines(rendered, keys[1..])
  }

  /** One line an entry, by ascending key. */
  function FormatProjectEnv(rendered: EnvMap): string {
    if rendered == map[] then ""
    else Join(EntryLines(rendered, Sorted(rendered.Keys)), '\n') + "\n"
  }

  /** Keys with which an entry line can be read back; every legal key is one. */
  ghost predicate PlainKeys(rendered: EnvMap) {
    forall k :: k in rendered ==> '\n' !in k && '=' !in k
  }

  lemma LegalKeysArePlain(rendered: EnvMap)
    requires forall k :: k in rendered ==> IsEnvKey(k)
    ensures PlainKeys(rendered)
  {
    forall k | k in rendered ensures '\n' !in k && '=' !in k {
      assert forall i :: 0 <= i < |k| ==> IsUpper(k[i]) || IsDigit(k[i]) || k[i] == '_';
    }
  }

  function ParseLine(line: string): Option<(string, string)> {
    if '=' !in line then None
    else
      var key := Split(line, '=')[0];
      if |key| >= |line| then None
      else
        match Decode(line[|key| + 1..])
        case None => None
        case Some(value) => Some((key, value))
  }

  function ParseLines(lines: seq<string>): Option<EnvMap> {
    if lines == [] then Some(map[])
    else
      match (ParseLine(lines[0]), ParseLines(lines[1..]))
      case (Some(entry), Some(rest)) => Some(rest[entry.0 := entry.1])
      case _ => None
  }

  function ParseProjectEnv(text: string): Option<EnvMap> {
    if text == "" then Some(map[])
    else
      var lines := Split(text, '\n');
      if lines[|lines| - 1] != "" then None else ParseLines(lines[..|lines| - 1])
  }

  lemma ParseEntryLine(key: string, value: string)
    requires '=' !in key
    ensures ParseLine(EntryLine(key, value)) == Some((key, value))
  {
    var line := EntryLine(key, value);
    SplitConcat(key, '=', Formatted(value));
    SplitFree(key, '=');
    assert line == key + ['='] + Formatted(value);
    assert line[|key|] == '=';
    assert line[|key| + 1..] == Formatted(value);
    DecodeFormatted(value);
  }

  lemma {:induction false} ParseEntryLines(rendered: EnvMap, keys: seq<string>)
    requires PlainKeys(rendered) && forall k :: k in keys ==> k in rendered
    ensures ParseLines(EntryLines(rendered, keys)) == Some(map k | k in keys :: rendered[k])
  {
    if keys == [] {
      assert forall k :: k !in keys;
    } else {
      var key := keys[0];
      hide EntryLine, ParseLine;
      ParseEntryLine(key, rendered[key]);
      ParseEntryLines(rendered, keys[1..]);
      assert EntryLines(rendered, keys)[1..] == EntryLines(rendered, keys[1..]);
      RestrictedMap(rendered, keys);
    }
  }

  lemma RestrictedMap(rendered: EnvMap, keys: seq<string>)
    requires keys != [] && forall k :: k in keys ==> k in rendered
    ensures (map k | k in keys[1..] :: rendered[k])[keys[0] := rendered[keys[0]]] == (map k | k in keys :: rendered[k])
  {
    assert keys == [keys[0]] + keys[1..];
  }

  lemma {:induction false} EntryLinesPhysical(rendered: EnvMap, keys: seq<string>)
    requires forall k :: k in keys ==> k in rendered && '\n' !in k
    ensures |EntryLines(rendered, keys)| == |keys|
    ensures FreeOf(EntryLines(rendered, keys), '\n')
    ensures forall i :: 0 <= i < |keys| ==>
      var line := EntryLines(rendered, keys)[i];
      line != "" && !EndsWith(line, '\r') && '=' in line
  {
    if keys != [] {
      EntryLinesPhysical(rendered, keys[1..]);
      var key, text := keys[0], Formatted(rendered[keys[0]]);
      FormattedOneLine(rendered[key]);
      assert EntryLine(key, rendered[key])[|key|] == '=';
      assert EntryLine(key, rendered[key])[|key + "=" + text| - 1] == text[|text| - 1];
      assert text[|text| - 1] in text;
    }
  }

  /** The whole environment is recovered from its written form. */
  lemma ParseFormatted(rendered: EnvMap)
    requires PlainKeys(rendered)
    ensures ParseProjectEnv(FormatProjectEnv(rendered)) == Some(rendered)
  {
    hide EntryLines, ParseLines, Sorted, Split, Join, EndsWith;
    if rendered != map[] {
      var keys := Sorted(rendered.Keys);
      var lines := EntryLines(rendered, keys);
      EntryLinesPhysical(rendered, keys);
      JoinAppend(lines, '\n', "");
      assert FormatProjectEnv(rendered) == Join(lines + [""], '\n');
      SplitJoin(lines + [""], '\n');
      assert (lines + [""])[..|lines|] == lines;
      ParseEntryLines(rendered, keys);
      assert (map k | k in keys :: rendered[k]) == rendered;
    }
  }

  lemma {:induction false} EntryLinesAt(rendered: EnvMap, keys: seq<string>)
    requires forall k :: k in keys ==> k in rendered
    ensures |EntryLines(rendered, keys)| == |keys|
    ensures forall i :: 0 <= i < |keys| ==>
      EntryLines(rendered, keys)[i] == keys[i] + "=" + Formatted(rendered[keys[i]])
  {
    hide Formatted;
    if keys != [] {
      EntryLinesAt(rendered, keys[1..]);
    }
  }

  /** The text, line by line: a line for each entry, by ascending key, and each line ended. */
  lemma FormattedLines(rendered: EnvMap) returns (keys: seq<string>)
    requires PlainKeys(rendered) && rendered != map[]
    ensures |keys| == |rendered| && forall k :: k in keys <==> k in rendered
    ensures forall i, j :: 0 <= i < j < |keys| ==> Below(keys[i], keys[j])
    ensures |Split(FormatProjectEnv(rendered), '\n')| == |keys| + 1
    ensures Split(FormatProjectEnv(rendered), '\n')[|keys|] == ""
    ensures forall i :: 0 <= i < |keys| ==>
      Split(FormatProjectEnv(rendered), '\n')[i] == keys[i] + "=" + Formatted(rendered[keys[i]])
  {
    hide EntryLines, Sorted, Split, Join, EndsWith, Formatted, Below;
    keys := Sorted(rendered.Keys);
    var lines := EntryLines(rendered, keys);
    EntryLinesPhysical(rendered, keys);
    EntryLinesAt(rendered, keys);
    JoinAppend(lines, '\n', "");
    assert FormatProjectEnv(rendered) == Join(lines + [""], '\n');
    SplitJoin(lines + [""], '\n');
  }
}
