/** The PV reference in pf.conf: inspecting it, inserting it, and removing it. */
module PfConf {
  import opened Text

  function PvMarker(): string { "# Managed by PV" }

  function SourceMarker(): string { "# Source: PV prepared " + "pf.conf reference " + "for /etc/pf.conf" }

  function LegacyAnchor(): string { "anchor \"com.prvious.pv\"" }

  function RdrAnchor(): string { "rdr-" + LegacyAnchor() }

  function LoadAnchor(): string { "load " + LegacyAnchor() + " from \"/etc/pf.anchors/" + "com.prvious.pv\"" }

  datatype FileState = Missing | Current | Stale | Conflict | Unreadable(message: string)

  // ------------------------------------------------------------------
  // Lines
  // ------------------------------------------------------------------

  function StripReturn(line: string): string {
    if EndsWith(line, '\r') then line[..|line| - 1] else line
  }

  function StripAll(lines: seq<string>): seq<string> {
    seq(|lines|, i requires 0 <= i < |lines| => StripReturn(lines[i]))
  }

  /** The text after the last newline. */
  function LastPart(text: string): string {
    var parts := Split(text, '\n');
    parts[|parts| - 1]
  }

  /** The lines of a text, as if it ended with a newline. */
  function Terminated(text: string): seq<string> {
    var parts := Split(text, '\n');
    if parts[|parts| - 1] == "" then parts[..|parts| - 1] else parts
  }

  /** `str::lines`: a carriage return belongs to the line ending only before a newline. */
  function Lines(text: string): seq<string> {
    var parts := Split(text, '\n');
    StripAll(parts[..|parts| - 1]) + if parts[|parts| - 1] == "" then [] else [parts[|parts| - 1]]
  }

  function Unlines(lines: seq<string>): string {
    if lines == [] then "" else lines[0] + "\n" + Unlines(lines[1..])
  }

  function Trims(lines: seq<string>): seq<string> {
    seq(|lines|, i requires 0 <= i < |lines| => Trim(lines[i]))
  }

  lemma {:induction false} UnlinesConcat(a: seq<string>, b: seq<string>)
    ensures Unlines(a + b) == Unlines(a) + Unlines(b)
  {
    if a == [] {
      assert a + b == b;
    } else {
      assert (a + b)[1..] == a[1..] + b;
      UnlinesConcat(a[1..], b);
    }
  }

  lemma {:induction false} SplitUnlines(lines: seq<string>)
    requires FreeOf(lines, '\n')
    ensures Split(Unlines(lines), '\n') == lines + [""]
  {
    if lines != [] {
      SplitUnlines(lines[1..]);
      SplitFree(lines[0], '\n');
      SplitConcat(lines[0], '\n', Unlines(lines[1..]));
    }
  }

  lemma {:induction false} JoinUnlines(parts: seq<string>)
    requires parts != []
    ensures Join(parts, '\n') == Unlines(parts[..|parts| - 1]) + parts[|parts| - 1]
  {
    if |parts| > 1 {
      JoinUnlines(parts[1..]);
      assert parts[..|parts| - 1][1..] == parts[1..][..|parts| - 2];
    }
  }

  /** A text is its lines with the newlines put back, but for a missing last one. */
  lemma UnlinesParts(text: string)
    ensures text == Unlines(Split(text, '\n')[..|Split(text, '\n')| - 1]) + LastPart(text)
    ensures LastPart(text) == "" <==> text == "" || EndsWith(text, '\n')
    ensures FreeOf(Split(text, '\n'), '\n')
  {
    hide Split, Unlines;
    var parts := Split(text, '\n');
    SplitPartsFree(text, '\n');
    JoinSplit(text, '\n');
    JoinUnlines(parts);
    JoinEnds(parts, '\n');
    if text == "" {
      SplitFree("", '\n');
    } else if |parts| == 1 {
      assert Unlines([]) == "" by {
        UnlinesEmpty();
      }
      assert parts[..0] == [];
    }
  }

  lemma UnlinesEmpty()
    ensures Unlines([]) == ""
  {
  }

  lemma UnlinesOne(line: string)
    ensures Unlines([line]) == line + "\n"
  {
    assert [line][1..] == [];
  }

  lemma UnlinesTerminated(text: string)
    ensures FreeOf(Terminated(text), '\n')
    ensures Unlines(Terminated(text)) == if text == "" || EndsWith(text, '\n') then text else text + "\n"
  {
    hide Split, Unlines;
    var parts := Split(text, '\n');
    UnlinesParts(text);
    if LastPart(text) != "" {
      UnlinesConcat(parts[..|parts| - 1], [LastPart(text)]);
      UnlinesOne(LastPart(text));
      assert parts == parts[..|parts| - 1] + [LastPart(text)];
    }
  }

  lemma LinesUnlines(lines: seq<string>)
    requires FreeOf(lines, '\n')
    ensures Lines(Unlines(lines)) == StripAll(lines)
  {
    SplitUnlines(lines);
  }

  /** Lines without trailing carriage returns are read back as they are. */
  lemma LinesUnlinesSame(lines: seq<string>)
    requires FreeOf(lines, '\n') && forall i :: 0 <= i < |lines| ==> StripReturn(lines[i]) == lines[i]
    ensures Lines(Unlines(lines)) == lines
  {
    hide StripReturn, Unlines, Lines;
    LinesUnlines(lines);
  }

  lemma TrimReturn(line: string)
    ensures Trim(StripReturn(line)) == Trim(line)
  {
    if EndsWith(line, '\r') {
      assert line == StripReturn(line) + ['\r'];
      TrimAppendWhitespace(StripReturn(line), '\r');
    }
  }

  lemma TrimsStrip(lines: seq<string>)
    ensures Trims(StripAll(lines)) == Trims(lines)
  {
    forall i | 0 <= i < |lines| ensures Trim(StripAll(lines)[i]) == Trim(lines[i]) {
      TrimReturn(lines[i]);
    }
  }

  lemma TrimsConcat(a: seq<string>, b: seq<string>)
    ensures Trims(a + b) == Trims(a) + Trims(b)
  {
  }

  /** Trimmed, it makes no difference how lines end. */
  lemma TrimsLines(text: string)
    ensures Trims(Lines(text)) == Trims(Terminated(text))
  {
    hide Split, Trim;
    var parts := Split(text, '\n');
    var n := |parts| - 1;
    TrimsStrip(parts[..n]);
    TrimsConcat(StripAll(parts[..n]), [parts[n]]);
    TrimsConcat(parts[..n], [parts[n]]);
    assert parts[..n] + [parts[n]] == parts;
    assert StripAll(parts[..n]) + [] == StripAll(parts[..n]);
  }

  // ------------------------------------------------------------------
  // Directives
  // ------------------------------------------------------------------

  function ActiveLine(line: string): Option<string> {
    var trimmed := Trim(line);
    if trimmed == "" || StartsWith(trimmed, "#") then None else Some(trimmed)
  }

  predicate IsPvDirective(line: string) {
    || StartsWith(line, "rdr-" + LegacyAnchor())
    || StartsWith(line, LegacyAnchor())
    || StartsWith(line, "load " + LegacyAnchor())
  }

  predicate IsFilterRule(line: string) {
    || line == "block" || StartsWith(line, "block ")
    || line == "pass" || StartsWith(line, "pass ")
    || line == "dummynet-anchor" || StartsWith(line, "dummynet-anchor ")
    || StartsWith(line, "anchor ") || StartsWith(line, "antispoof ")
  }

  predicate IsReferenceLine(trimmed: string) {
    || trimmed == PvMarker() || trimmed == SourceMarker() || trimmed == RdrAnchor()
    || trimmed == LegacyAnchor() || trimmed == LoadAnchor()
  }

  /** The texts of the reference, in full. */
  lemma ReferenceWords()
    ensures PvMarker() == "# Managed by PV"
    ensures SourceMarker() == "# Source: PV prepared pf.conf reference for /etc/pf.conf"
    ensures RdrAnchor() == "rdr-anchor \"com.prvious.pv\""
    ensures LegacyAnchor() == "anchor \"com.prvious.pv\""
    ensures LoadAnchor() == "load anchor \"com.prvious.pv\" from \"/etc/pf.anchors/com.prvious.pv\""
  {
    hide PvMarker, SourceMarker, RdrAnchor, LegacyAnchor, LoadAnchor;
    MarkerWords();
    AnchorWords();
    LoadWords();
  }

  lemma MarkerWords()
    ensures PvMarker() == "# Managed by PV"
    ensures SourceMarker() == "# Source: PV prepared pf.conf reference for /etc/pf.conf"
  {
    SourceStart();
    SourceEnd();
  }

  lemma SourceStart()
    ensures "# Source: PV prepared " + "pf.conf reference " == "# Source: PV prepared pf.conf reference "
  {
  }

  lemma SourceEnd()
    ensures "# Source: PV prepared pf.conf reference " + "for /etc/pf.conf"
      == "# Source: PV prepared pf.conf reference for /etc/pf.conf"
  {
  }

  lemma AnchorWords()
    ensures RdrAnchor() == "rdr-anchor \"com.prvious.pv\"" && LegacyAnchor() == "anchor \"com.prvious.pv\""
  {
  }

  lemma LoadWords()
    ensures LoadAnchor() == "load anchor \"com.prvious.pv\" from \"/etc/pf.anchors/com.prvious.pv\""
  {
    hide RdrAnchor;
    AnchorWords();
    hide LegacyAnchor;
    assert "load " + "anchor \"com.prvious.pv\"" == "load anchor \"com.prvious.pv\"";
    LoadPath();
  }

  lemma LoadPath()
    ensures "load anchor \"com.prvious.pv\"" + " from \"/etc/pf.anchors/" + "com.prvious.pv\""
      == "load anchor \"com.prvious.pv\" from \"/etc/pf.anchors/com.prvious.pv\""
  {
  }

  /** The directives that are PV's, known or not. */
  lemma DirectiveWords(line: string)
    ensures IsPvDirective(line) <==>
      || StartsWith(line, "rdr-anchor \"com.prvious.pv\"") || StartsWith(line, "anchor \"com.prvious.pv\"")
      || StartsWith(line, "load anchor \"com.prvious.pv\"")
  {
    hide LegacyAnchor, StartsWith;
    AnchorWords();
    assert "rdr-" + "anchor \"com.prvious.pv\"" == "rdr-anchor \"com.prvious.pv\"";
    assert "load " + "anchor \"com.prvious.pv\"" == "load anchor \"com.prvious.pv\"";
  }

  /** The lines that removal knows. */
  lemma KnownLines(line: string)
    ensures IsReferenceLine(line) <==>
      || line == "# Managed by PV" || line == "# Source: PV prepared pf.conf reference for /etc/pf.conf"
      || line == "rdr-anchor \"com.prvious.pv\"" || line == "anchor \"com.prvious.pv\""
      || line == "load anchor \"com.prvious.pv\" from \"/etc/pf.anchors/com.prvious.pv\""
  {
    hide PvMarker, SourceMarker, RdrAnchor, LegacyAnchor, LoadAnchor;
    ReferenceWords();
  }

  /** Whether a line is a filter rule is told by its words: the first is `block`, `pass` or
      `dummynet-anchor`, or it is `anchor` or `antispoof` with another after it. */
  lemma FilterRuleWords(line: string)
    ensures var words := Split(line, ' ');
      IsFilterRule(line) <==>
        words[0] in {"block", "pass", "dummynet-anchor"} || (words[0] in {"anchor", "antispoof"} && |words| > 1)
  {
    hide Split;
    FirstWord(line, "block");
    FirstWord(line, "pass");
    FirstWord(line, "dummynet-anchor");
    FirstWord(line, "anchor");
    FirstWord(line, "antispoof");
    assert "block" + " " == "block " && "pass" + " " == "pass " && "dummynet-anchor" + " " == "dummynet-anchor ";
    assert "anchor" + " " == "anchor " && "antispoof" + " " == "antispoof ";
  }

  lemma FirstWord(line: string, word: string)
    requires ' ' !in word
    ensures Split(line, ' ')[0] == word && |Split(line, ' ')| > 1 <==> StartsWith(line, word + " ")
    ensures Split(line, ' ')[0] == word && |Split(line, ' ')| == 1 <==> line == word
  {
    hide Split, Join;
    var parts := Split(line, ' ');
    JoinSplit(line, ' ');
    SplitPartsFree(line, ' ');
    SplitFree(word, ' ');
    JoinFirst(parts);
    if StartsWith(line, word + " ") {
      var rest := line[|word| + 1..];
      assert line == word + [' '] + rest;
      SplitConcat(word, ' ', rest);
    }
  }

  lemma JoinFirst(parts: seq<string>)
    requires parts != []
    ensures Join(parts, ' ') == if |parts| == 1 then parts[0] else parts[0] + " " + Join(parts[1..], ' ')
  {
  }

  lemma FirstChars()
    ensures PvMarker() != "" && PvMarker()[0] == '#' && PvMarker()[2] == 'M' && PvMarker()[|PvMarker()| - 1] == 'V'
    ensures SourceMarker()[0] == '#' && SourceMarker()[2] == 'S' && SourceMarker()[|SourceMarker()| - 1] == 'f'
    ensures LegacyAnchor()[0] == 'a' && LegacyAnchor()[|LegacyAnchor()| - 1] == '"'
    ensures RdrAnchor()[0] == 'r' && RdrAnchor()[3] == '-' && RdrAnchor()[|RdrAnchor()| - 1] == '"'
    ensures LoadAnchor()[0] == 'l' && LoadAnchor()[|LoadAnchor()| - 1] == '"'
  {
    assert "# Source: PV prepared "[0] == '#' && "# Source: PV prepared "[2] == 'S';
    assert "for /etc/pf.conf"[|"for /etc/pf.conf"| - 1] == 'f';
    assert "com.prvious.pv\""[|"com.prvious.pv\""| - 1] == '"';
    assert "rdr-"[0] == 'r' && "rdr-"[3] == '-' && "load "[0] == 'l';
  }

  /** The reference's lines are trimmed, hold no newline, and are what they look like. */
  lemma DirectiveFacts()
    ensures Trim(PvMarker()) == PvMarker() && Trim(SourceMarker()) == SourceMarker()
    ensures Trim(RdrAnchor()) == RdrAnchor() && Trim(LoadAnchor()) == LoadAnchor()
    ensures '\n' !in PvMarker() && '\n' !in SourceMarker() && '\n' !in RdrAnchor() && '\n' !in LoadAnchor()
    ensures StripReturn(PvMarker()) == PvMarker() && StripReturn(SourceMarker()) == SourceMarker()
    ensures StripReturn(RdrAnchor()) == RdrAnchor() && StripReturn(LoadAnchor()) == LoadAnchor()
    ensures IsPvDirective(RdrAnchor()) && IsPvDirective(LegacyAnchor()) && IsPvDirective(LoadAnchor())
    ensures !IsPvDirective(PvMarker()) && !IsPvDirective(SourceMarker())
    ensures !IsFilterRule(PvMarker()) && !IsFilterRule(SourceMarker())
    ensures !IsFilterRule(RdrAnchor()) && !IsFilterRule(LoadAnchor())
    ensures RdrAnchor() != LoadAnchor() && PvMarker() != RdrAnchor() && PvMarker() != LoadAnchor()
    ensures SourceMarker() != RdrAnchor() && SourceMarker() != LoadAnchor() && PvMarker() != SourceMarker()
    ensures RdrAnchor() != "" && !StartsWith(RdrAnchor(), "#") && LoadAnchor() != "" && !StartsWith(LoadAnchor(), "#")
  {
    hide Trim, IsPvDirective, IsFilterRule, StripReturn, EndsWith, StartsWith, PvMarker, SourceMarker, LegacyAnchor,
      RdrAnchor, LoadAnchor;
    TrimmedFacts();
    OneLineFacts();
    KindFacts();
    FirstChars();
    assert RdrAnchor() != LoadAnchor() && PvMarker() != RdrAnchor() && PvMarker() != LoadAnchor();
  }

  lemma TrimmedFacts()
    ensures Trim(PvMarker()) == PvMarker() && Trim(SourceMarker()) == SourceMarker()
    ensures Trim(RdrAnchor()) == RdrAnchor() && Trim(LoadAnchor()) == LoadAnchor()
    ensures StripReturn(PvMarker()) == PvMarker() && StripReturn(SourceMarker()) == SourceMarker()
    ensures StripReturn(RdrAnchor()) == RdrAnchor() && StripReturn(LoadAnchor()) == LoadAnchor()
  {
    FirstChars();
    hide Trim;
    TrimVisible(PvMarker());
    TrimVisible(SourceMarker());
    TrimVisible(RdrAnchor());
    TrimVisible(LoadAnchor());
  }

  lemma OneLineFacts()
    ensures '\n' !in PvMarker() && '\n' !in SourceMarker() && '\n' !in RdrAnchor() && '\n' !in LoadAnchor()
  {
    assert '\n' !in SourceMarker() by {
      assert '\n' !in "# Source: PV prepared ";
      assert '\n' !in "pf.conf reference ";
      assert '\n' !in "for /etc/pf.conf";
    }
    AnchorsOneLine();
  }

  lemma AnchorsOneLine()
    ensures '\n' !in RdrAnchor() && '\n' !in LoadAnchor()
  {
    assert '\n' !in LegacyAnchor();
    assert '\n' !in " from \"/etc/pf.anchors/";
    assert '\n' !in "com.prvious.pv\"";
  }

  lemma KindFacts()
    ensures IsPvDirective(RdrAnchor()) && IsPvDirective(LegacyAnchor()) && IsPvDirective(LoadAnchor())
    ensures !IsPvDirective(PvMarker()) && !IsPvDirective(SourceMarker())
    ensures !IsFilterRule(PvMarker()) && !IsFilterRule(SourceMarker())
    ensures !IsFilterRule(RdrAnchor()) && !IsFilterRule(LoadAnchor())
    ensures RdrAnchor() != "" && !StartsWith(RdrAnchor(), "#") && LoadAnchor() != "" && !StartsWith(LoadAnchor(), "#")
  {
    FirstChars();
    assert "rdr-"[0] == 'r' && "load "[0] == 'l';
  }

  /** A directive is never blank or a comment. */
  lemma DirectiveActive(trimmed: string)
    requires IsPvDirective(trimmed) || IsFilterRule(trimmed)
    ensures trimmed != "" && !StartsWith(trimmed, "#")
  {
    FirstChars();
    assert "rdr-"[0] == 'r' && "load "[0] == 'l';
  }

  // ------------------------------------------------------------------
  // Inspecting
  // ------------------------------------------------------------------

  /** Exactly one redirect anchor, exactly one load directive, and no variant of either. */
  predicate HoldsReference(trimmed: seq<string>) {
    && multiset(trimmed)[RdrAnchor()] == 1 && multiset(trimmed)[LoadAnchor()] == 1
    && forall i :: 0 <= i < |trimmed| && IsPvDirective(trimmed[i]) ==>
      trimmed[i] == RdrAnchor() || trimmed[i] == LoadAnchor()
  }

  /** The reference and no other active line. */
  predicate IsReferenceBlock(trimmed: seq<string>) {
    && multiset(trimmed)[RdrAnchor()] == 1 && multiset(trimmed)[LoadAnchor()] == 1
    && forall i :: 0 <= i < |trimmed| && trimmed[i] != "" && !StartsWith(trimmed[i], "#") ==>
      trimmed[i] == RdrAnchor() || trimmed[i] == LoadAnchor()
  }

  predicate HasDirective(trimmed: seq<string>) {
    exists i :: 0 <= i < |trimmed| && IsPvDirective(trimmed[i])
  }

  function InspectLines(trimmed: seq<string>): FileState {
    if PvMarker() !in trimmed then if HasDirective(trimmed) then Conflict else Missing
    else if HoldsReference(trimmed) then Current
    else Stale
  }

  function Inspect(content: string): FileState {
    InspectLines(Trims(Lines(content)))
  }

  method ParseEmbeddedReference(content: string) returns (found: bool)
    ensures found <==> HoldsReference(Trims(Lines(content)))
  {
    hide Lines, IsPvDirective, Trim, PvMarker, SourceMarker, LegacyAnchor, RdrAnchor, LoadAnchor;
    DirectiveFacts();
    var lines := Lines(content);
    ghost var trimmed := Trims(lines);
    var hasRdrAnchor, hasLoad := false, false;
    for i := 0 to |lines|
      invariant multiset(trimmed[..i])[RdrAnchor()] == if hasRdrAnchor then 1 else 0
      invariant multiset(trimmed[..i])[LoadAnchor()] == if hasLoad then 1 else 0
      invariant forall j :: 0 <= j < i && IsPvDirective(trimmed[j]) ==>
        trimmed[j] == RdrAnchor() || trimmed[j] == LoadAnchor()
    {
      assert trimmed == trimmed[..i] + [trimmed[i]] + trimmed[i + 1..];
      assert trimmed[..i + 1] == trimmed[..i] + [trimmed[i]];
      var active := ActiveLine(lines[i]);
      if active.None? {
        if IsPvDirective(trimmed[i]) {
          DirectiveActive(trimmed[i]);
        }
        continue;
      }
      var line := active.value;
      if line == RdrAnchor() {
        if hasRdrAnchor {
          return false;
        }
        hasRdrAnchor := true;
        continue;
      }
      if line == LoadAnchor() {
        if hasLoad {
          return false;
        }
        hasLoad := true;
        continue;
      }
      if IsPvDirective(line) {
        return false;
      }
    }
    assert trimmed[..|lines|] == trimmed;
    found := hasRdrAnchor && hasLoad;
  }

  method ParseBlock(content: string) returns (found: bool)
    ensures found <==> IsReferenceBlock(Trims(Lines(content)))
  {
    hide Lines, IsPvDirective, Trim, PvMarker, SourceMarker, LegacyAnchor, RdrAnchor, LoadAnchor;
    DirectiveFacts();
    var lines := Lines(content);
    ghost var trimmed := Trims(lines);
    var hasRdrAnchor, hasLoad, activeLineCount := false, false, 0;
    for i := 0 to |lines|
      invariant multiset(trimmed[..i])[RdrAnchor()] == if hasRdrAnchor then 1 else 0
      invariant multiset(trimmed[..i])[LoadAnchor()] == if hasLoad then 1 else 0
      invariant activeLineCount == (if hasRdrAnchor then 1 else 0) + (if hasLoad then 1 else 0)
      invariant forall j :: 0 <= j < i && trimmed[j] != "" && !StartsWith(trimmed[j], "#") ==>
        trimmed[j] == RdrAnchor() || trimmed[j] == LoadAnchor()
    {
      assert trimmed == trimmed[..i] + [trimmed[i]] + trimmed[i + 1..];
      assert trimmed[..i + 1] == trimmed[..i] + [trimmed[i]];
      var active := ActiveLine(lines[i]);
      if active.None? {
        continue;
      }
      activeLineCount := activeLineCount + 1;
      var line := active.value;
      if line == RdrAnchor() {
        if hasRdrAnchor {
          return false;
        }
        hasRdrAnchor := true;
        continue;
      }
      if line == LoadAnchor() {
        if hasLoad {
          return false;
        }
        hasLoad := true;
        continue;
      }
      return false;
    }
    assert trimmed[..|lines|] == trimmed;
    found := activeLineCount == 2 && hasRdrAnchor && hasLoad;
  }
}
