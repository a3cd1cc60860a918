/** The managed block by its texts: the markers, the lines that draw a warning, and what is
    reported of a malformed file. */
module ManagedBlockTexts {
  import opened Text
  import opened Config
  import opened Ordered
  import opened EnvFormat
  import opened ManagedBlock

  // ------------------------------------------------------------------
  // The block
  // ------------------------------------------------------------------

  lemma MarkerLines()
    ensures "# >>> PV MANAGED" + "\n" == "# >>> PV MANAGED\n"
    ensures "# <<< PV MANAGED" + "\n" == "# <<< PV MANAGED\n"
  {
  }

  lemma FramedText(first: string, entries: seq<string>, last: string)
    ensures Lined([first] + (entries + [last])) == (first + "\n") + (Lined(entries) + (last + "\n"))
  {
    hide Lined;
    LinedConcat([first], entries + [last]);
    LinedConcat(entries, [last]);
    LinedOne(first);
    LinedOne(last);
  }

  lemma BlockFramed(rendered: EnvMap)
    ensures BlockLines(rendered) ==
      ["# >>> PV MANAGED"] + (EntryLines(rendered, Sorted(rendered.Keys)) + ["# <<< PV MANAGED"])
  {
    hide EntryLines, Sorted;
  }

  /** The block is the formatted environment between its two markers. */
  lemma BlockText(rendered: EnvMap)
    ensures Lined(BlockLines(rendered)) == "# >>> PV MANAGED\n" + FormatProjectEnv(rendered) + "# <<< PV MANAGED\n"
  {
    hide EntryLines, Sorted, Lined, BlockLines, FormatProjectEnv, Join;
    var entries := EntryLines(rendered, Sorted(rendered.Keys));
    BlockFramed(rendered);
    FramedText("# >>> PV MANAGED", entries, "# <<< PV MANAGED");
    LinedJoin(entries);
    EntriesText(rendered);
    MarkerLines();
  }

  lemma EntriesText(rendered: EnvMap)
    ensures JoinEnvLines(EntryLines(rendered, Sorted(rendered.Keys))) == FormatProjectEnv(rendered)
  {
    hide EntryLines, Join;
    EntryLinesAt(rendered, Sorted(rendered.Keys));
  }

  /** A rewritten file, from its first character to its last: the user's lines before the block,
      the block, and the user's lines after it. */
  lemma RewrittenText(existing: string, rendered: EnvMap) returns (before: seq<string>, after: seq<string>)
    requires OneLineKeys(rendered) && Transform(existing, rendered).Ok?
    requires !(rendered == map[] && Blocks(SplitEnvLines(existing)) == Ok([]))
    ensures before + after == Outside(SplitEnvLines(existing), Blocks(SplitEnvLines(existing)).value)
    ensures Transform(existing, rendered).value.content ==
      Lined(before) + "# >>> PV MANAGED\n" + FormatProjectEnv(rendered) + "# <<< PV MANAGED\n" + Lined(after)
  {
    hide BlockLines, Blocks, OutsideFrom, SplitEnvLines, JoinEnvLines, Lined, PlaceBlock, DuplicateKeys,
      FormatProjectEnv;
    var result, b := WrittenBlock(existing, rendered);
    before, after := result[..b.start], result[b.end + 1..];
    OutsideOne(result, b);
    LinedJoin(result);
    LinedConcat(before + BlockLines(rendered), after);
    LinedConcat(before, BlockLines(rendered));
    BlockText(rendered);
  }

  /** The warnings are the keys of the block that a line of the user's assigns as well, once each
      and in order; and the file counts as changed exactly if its text differs. */
  lemma WarningsExact(existing: string, rendered: EnvMap, key: string)
    requires Transform(existing, rendered).Ok?
    ensures var user := Outside(SplitEnvLines(existing), Blocks(SplitEnvLines(existing)).value);
      key in Transform(existing, rendered).value.warnings <==>
        key in rendered && exists line :: line in user && AssignmentKey(line) == Some(key)
    ensures var warnings := Transform(existing, rendered).value.warnings;
      forall i, j :: 0 <= i < j < |warnings| ==> Below(warnings[i], warnings[j])
    ensures Transform(existing, rendered).value.changed <==> Transform(existing, rendered).value.content != existing
  {
    hide BlocksFrom, OutsideFrom, SplitEnvLines, JoinEnvLines, PlaceBlock, AssignmentKey, Sorted, BlockLines, Below;
  }

  // ------------------------------------------------------------------
  // Which lines assign a key
  // ------------------------------------------------------------------

  lemma {:induction false} TrimStartSkips(w: string, t: string)
    requires AllWhitespace(w) && (t != "" ==> !IsWhitespace(t[0]))
    ensures TrimStart(w + t) == t
  {
    hide IsWhitespace;
    if w == "" {
      assert w + t == t;
    } else {
      assert (w + t)[1..] == w[1..] + t && IsWhitespace(w[0]);
      TrimStartSkips(w[1..], t);
    }
  }

  lemma {:induction false} TrimEndSkips(t: string, w: string)
    requires AllWhitespace(w) && (t != "" ==> !IsWhitespace(t[|t| - 1]))
    ensures TrimEnd(t + w) == t
    decreases |w|
  {
    hide IsWhitespace;
    if w == "" {
      assert t + w == t;
    } else {
      assert (t + w)[..|t + w| - 1] == t + w[..|w| - 1] && IsWhitespace(w[|w| - 1]);
      TrimEndSkips(t, w[..|w| - 1]);
    }
  }

  lemma KeyVisible(key: string, c: char)
    requires IsEnvKey(key)
    ensures key != ""
    ensures c in key ==> !IsWhitespace(c) && c != '=' && c != 'e' && c != '#'
    ensures !IsWhitespace(key[0]) && !IsWhitespace(key[|key| - 1]) && key[0] != 'e' && key[0] != '#'
  {
    NamesExact(key);
    WhitespaceExact(c);
    WhitespaceExact(key[0]);
    WhitespaceExact(key[|key| - 1]);
    assert key[0] in key && key[|key| - 1] in key;
  }

  lemma NoEquals(w: string)
    requires AllWhitespace(w)
    ensures '=' !in w
  {
  }

  /** The key before the first equals sign, white space around it left out. */
  lemma KeyBeforeEquals(a: string, key: string, b: string, rest: string)
    requires AllWhitespace(a) && AllWhitespace(b) && IsEnvKey(key)
    ensures Trim(Split(a + key + b + "=" + rest, '=')[0]) == key
    ensures '=' in a + key + b + "=" + rest
  {
    hide IsEnvKey, IsWhitespace, Split;
    KeyVisible(key, '=');
    NoEquals(a);
    NoEquals(b);
    var first := a + key + b;
    SplitConcat(first, '=', rest);
    assert first + "=" + rest == first + ['='] + rest;
    SplitFree(first, '=');
    assert (first + "=" + rest)[|first|] == '=';
    assert a + key + b == a + (key + b);
    assert (key + b)[0] == key[0];
    TrimStartSkips(a, key + b);
    TrimEndSkips(key, b);
  }

  /** What an assignment is, once the white space in front is gone. */
  lemma AssignsCut(line: string, trimmed: string, assignment: string, key: string)
    requires TrimStart(line) == trimmed && trimmed != "" && trimmed[0] != '#'
    requires assignment == if StartsWith(trimmed, "export ") then trimmed[7..] else trimmed
    requires '=' in assignment && Trim(Split(assignment, '=')[0]) == key && IsEnvKey(key)
    ensures AssignmentKey(line) == Some(key)
  {
    hide IsEnvKey, IsWhitespace, Split, Trim, TrimStart;
  }

  lemma AssignsExported(w: string, a: string, key: string, b: string, rest: string)
    requires AllWhitespace(w) && AllWhitespace(a) && AllWhitespace(b) && IsEnvKey(key)
    ensures AssignmentKey(w + ("export " + (a + key + b + "=" + rest))) == Some(key)
  {
    hide IsEnvKey, Split, Trim, TrimStart, AssignmentKey;
    var assignment := a + key + b + "=" + rest;
    var trimmed := "export " + assignment;
    KeyBeforeEquals(a, key, b, rest);
    TrimStartSkips(w, trimmed);
    assert trimmed[0] == 'e' && trimmed[7..] == assignment;
    AssignsCut(w + trimmed, trimmed, assignment, key);
  }

  lemma AssignsPlainly(w: string, key: string, b: string, rest: string)
    requires AllWhitespace(w) && AllWhitespace(b) && IsEnvKey(key)
    ensures AssignmentKey(w + ("" + key + b + "=" + rest)) == Some(key)
  {
    KeyVisible(key, '=');
    KeyBeforeEquals("", key, b, rest);
    hide IsEnvKey, IsWhitespace, Split, Trim, TrimStart, AssignmentKey;
    var trimmed := "" + key + b + "=" + rest;
    assert trimmed[0] == key[0] && "export "[0] == 'e';
    TrimStartSkips(w, trimmed);
    AssignsCut(w + trimmed, trimmed, trimmed, key);
  }

  /** A line assigns a key if it is, after white space, `export ` or nothing, the key with white
      space around it, and an equals sign. */
  lemma Assigns(w: string, exported: bool, a: string, key: string, b: string, rest: string)
    requires AllWhitespace(w) && AllWhitespace(a) && AllWhitespace(b) && IsEnvKey(key)
    ensures AssignmentKey(w + (if exported then "export " else "") + a + key + b + "=" + rest) == Some(key)
  {
    hide AssignmentKey, IsEnvKey;
    if exported {
      AssignsExported(w, a, key, b, rest);
      assert w + "export " + a + key + b + "=" + rest == w + ("export " + (a + key + b + "=" + rest));
    } else {
      AssignsPlainly(w + a, key, b, rest);
      assert w + "" + a + key + b + "=" + rest == (w + a) + ("" + key + b + "=" + rest);
    }
  }

  /** And only then. */
  lemma AssignsOnly(line: string)
    returns (w: string, exported: bool, a: string, b: string, rest: string)
    requires AssignmentKey(line).Some?
    ensures IsEnvKey(AssignmentKey(line).value)
    ensures AllWhitespace(w) && AllWhitespace(a) && AllWhitespace(b)
    ensures line ==
      w + (if exported then "export " else "") + a + AssignmentKey(line).value + b + "=" + rest
  {
    var assignment;
    w, exported, assignment := ExportCut(line);
    hide AssignmentKey, IsEnvKey, IsWhitespace, Trim, TrimStart, Split, Join;
    var first;
    first, rest := FirstEquals(assignment);
    var j, k := TrimExact(first);
    a, b := first[..j], first[k..];
    var key := AssignmentKey(line).value;
    assert key == first[j..k] && first == a + key + b;
    Rejoin(w, if exported then "export " else "", a, key, b, rest);
  }

  /** What stands behind leading white space and an `export `. */
  lemma ExportCut(line: string) returns (w: string, exported: bool, assignment: string)
    requires AssignmentKey(line).Some?
    ensures AllWhitespace(w) && line == w + ((if exported then "export " else "") + assignment)
    ensures '=' in assignment && Trim(Split(assignment, '=')[0]) == AssignmentKey(line).value
    ensures IsEnvKey(AssignmentKey(line).value)
  {
    hide IsEnvKey, IsWhitespace, Trim, TrimStart, Split, Join;
    var i := TrimStartCuts(line);
    w := line[..i];
    var trimmed := line[i..];
    exported := StartsWith(trimmed, "export ");
    assignment := if exported then trimmed[7..] else trimmed;
    assert trimmed == (if exported then "export " else "") + assignment;
    assert line == w + trimmed;
  }

  lemma Rejoin(w: string, lead: string, a: string, key: string, b: string, rest: string)
    ensures w + (lead + (a + key + b + "=" + rest)) == w + lead + a + key + b + "=" + rest
  {
  }

  lemma FirstEquals(text: string) returns (first: string, rest: string)
    requires '=' in text
    ensures first == Split(text, '=')[0] && text == first + "=" + rest
  {
    hide Split, Join;
    var parts := Split(text, '=');
    JoinSplit(text, '=');
    SplitPartsFree(text, '=');
    first, rest := parts[0], Join(parts[1..], '=');
    JoinMore(parts);
  }

  lemma JoinMore(parts: seq<string>)
    requires parts != []
    ensures Join(parts, '=') == if |parts| == 1 then parts[0] else parts[0] + "=" + Join(parts[1..], '=')
  {
  }

  // ------------------------------------------------------------------
  // What is reported of a malformed file
  // ------------------------------------------------------------------

  /** The marker before line k, if any, and nothing but other lines after it. */
  ghost predicate LastMarker(lines: seq<string>, k: nat, marker: Option<string>) {
    && k <= |lines|
    && match marker
       case None => forall m :: 0 <= m < k ==> !IsMarker(lines[m])
       case Some(text) =>
         exists s :: 0 <= s < k && lines[s] == text && forall m :: s < m < k ==> !IsMarker(lines[m])
  }

  /** The place where a file first goes wrong, and what is wrong there: a start after a start, an
      end without a start, or a start that the file leaves open. */
  ghost predicate GoesWrong(lines: seq<string>, k: nat, reason: string) {
    || (&& k < |lines| && lines[k] == "# >>> PV MANAGED" && LastMarker(lines, k, Some("# >>> PV MANAGED"))
        && reason == "nested start marker")
    || (&& k < |lines| && lines[k] == "# <<< PV MANAGED"
        && (LastMarker(lines, k, None) || LastMarker(lines, k, Some("# <<< PV MANAGED")))
        && reason == "end marker without start marker")
    || (&& k == |lines| && LastMarker(lines, k, Some("# >>> PV MANAGED"))
        && reason == "start marker without end marker")
  }

  /** The scan's state tells the last marker. */
  ghost predicate StateTells(lines: seq<string>, i: nat, open: Option<nat>) {
    if open.Some? then LastMarker(lines, i, Some("# >>> PV MANAGED"))
    else LastMarker(lines, i, None) || LastMarker(lines, i, Some("# <<< PV MANAGED"))
  }

  lemma StateMoves(lines: seq<string>, i: nat, open: Option<nat>)
    requires i < |lines| && StateTells(lines, i, open)
    ensures lines[i] == StartMarker() ==> StateTells(lines, i + 1, Some(i))
    ensures lines[i] == EndMarker() ==> StateTells(lines, i + 1, None)
    ensures !IsMarker(lines[i]) ==> StateTells(lines, i + 1, open)
  {
    assert StartMarker() == "# >>> PV MANAGED" && EndMarker() == "# <<< PV MANAGED";
    hide StartMarker, EndMarker;
  }

  lemma {:induction false} ErrorFrom(lines: seq<string>, i: nat, open: Option<nat>) returns (k: nat, reason: string)
    requires i <= |lines| && StateTells(lines, i, open)
    requires BlocksFrom(lines, i, open).Err?
    ensures GoesWrong(lines, k, reason) && BlocksFrom(lines, i, open) == Err(MalformedManagedEnvBlock(reason))
    decreases |lines| - i
  {
    hide LastMarker;
    if i == |lines| {
      k, reason := i, "start marker without end marker";
    } else {
      StateMoves(lines, i, open);
      if lines[i] == StartMarker() {
        if open.None? {
          k, reason := ErrorFrom(lines, i + 1, Some(i));
        } else {
          k, reason := i, "nested start marker";
        }
      } else if lines[i] == EndMarker() {
        if open.Some? {
          k, reason := ErrorFrom(lines, i + 1, None);
        } else {
          k, reason := i, "end marker without start marker";
        }
      } else {
        k, reason := ErrorFrom(lines, i + 1, open);
      }
    }
  }

  /** A file that is refused goes wrong somewhere, and that is what is reported. */
  lemma ErrorTold(existing: string, rendered: EnvMap) returns (k: nat, reason: string)
    requires Transform(existing, rendered).Err?
    ensures GoesWrong(SplitEnvLines(existing), k, reason)
    ensures Transform(existing, rendered) == Err(MalformedManagedEnvBlock(reason))
  {
    hide SplitEnvLines, BlocksFrom, GoesWrong, PlaceBlock, DuplicateKeys, BlockLines;
    k, reason := ErrorFrom(SplitEnvLines(existing), 0, None);
  }
}
