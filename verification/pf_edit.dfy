/** Inserting the PV reference into pf.conf text and taking it out again. */
module PfEdit {
  import opened Text
  import opened PfConf

  // ------------------------------------------------------------------
  // Where filter rules begin
  // ------------------------------------------------------------------

  predicate IsFilterLine(line: string) {
    ActiveLine(line).Some? && IsFilterRule(ActiveLine(line).value)
  }

  /** The first filter rule's line number, or the number of lines. */
  function FirstFilter(lines: seq<string>): (k: nat)
    ensures k <= |lines|
    ensures forall i :: 0 <= i < k ==> !IsFilterLine(lines[i])
    ensures k < |lines| ==> IsFilterLine(lines[k])
  {
    if lines == [] || IsFilterLine(lines[0]) then 0 else 1 + FirstFilter(lines[1..])
  }

  /** `str::split_inclusive` on newlines: every piece keeps its newline. */
  function SplitInclusive(text: string): seq<string> {
    var parts := Split(text, '\n');
    seq(|parts| - 1, i requires 0 <= i < |parts| - 1 => parts[i] + "\n")
      + if parts[|parts| - 1] == "" then [] else [parts[|parts| - 1]]
  }

  lemma NewlineKeepsFilter(line: string)
    ensures IsFilterLine(line + "\n") <==> IsFilterLine(line)
  {
    TrimAppendWhitespace(line, '\n');
  }

  lemma PieceFacts(text: string, i: nat)
    requires i < |Terminated(text)|
    ensures |SplitInclusive(text)| == |Terminated(text)|
    ensures SplitInclusive(text)[i] in {Terminated(text)[i], Terminated(text)[i] + "\n"}
    ensures i + 1 < |Terminated(text)| ==> SplitInclusive(text)[i] == Terminated(text)[i] + "\n"
    ensures IsFilterLine(SplitInclusive(text)[i]) <==> IsFilterLine(Terminated(text)[i])
  {
    hide Split, IsFilterLine;
    NewlineKeepsFilter(Terminated(text)[i]);
  }

  /** The character offset of the first filter rule's line. */
  method FirstPfFilterRuleIndex(content: string) returns (index: Option<nat>)
    ensures index.None? <==> FirstFilter(Terminated(content)) == |Terminated(content)|
    ensures index.Some? ==>
      && index.value == |Unlines(Terminated(content)[..FirstFilter(Terminated(content))])|
  {
    hide SplitInclusive, Terminated, IsFilterLine, Unlines;
    var pieces := SplitInclusive(content);
    ghost var lines := Terminated(content);
    PieceCount(content);
    UnlinesEmpty();
    assert lines[..0] == [];
    var offset := 0;
    for i := 0 to |pieces|
      invariant i < |lines| ==> offset == |Unlines(lines[..i])|
      invariant i <= FirstFilter(lines)
    {
      PieceFacts(content, i);
      if IsFilterLine(pieces[i]) {
        return Some(offset);
      }
      offset := offset + |pieces[i]|;
      assert lines[..i + 1] == lines[..i] + [lines[i]];
      UnlinesConcat(lines[..i], [lines[i]]);
      UnlinesOne(lines[i]);
    }
    index := None;
  }

  lemma PieceCount(text: string)
    ensures |SplitInclusive(text)| == |Terminated(text)|
  {
    hide Split;
  }

  // ------------------------------------------------------------------
  // Inserting
  // ------------------------------------------------------------------

  function RdrLines(): seq<string> { [PvMarker(), SourceMarker(), RdrAnchor()] }

  function LoadLines(): seq<string> { [PvMarker(), SourceMarker(), LoadAnchor()] }

  function RdrReference(): string {
    PvMarker() + "\n" + SourceMarker() + "\n" + RdrAnchor() + "\n"
  }

  function LoadReference(): string {
    PvMarker() + "\n" + SourceMarker() + "\n" + LoadAnchor() + "\n"
  }

  function Render(): string {
    Unlines([PvMarker(), SourceMarker(), RdrAnchor(), LoadAnchor()])
  }

  predicate Blank(content: string) {
    Trim(content) == ""
  }

  function WithReference(lines: seq<string>): seq<string> {
    var k := FirstFilter(lines);
    lines[..k] + RdrLines() + lines[k..] + LoadLines()
  }

  function Appended(content: string, reference: string): string {
    if Blank(content) then reference else Unlines(WithReference(Terminated(content)))
  }

  lemma ThreeLines(a: string, b: string, c: string)
    ensures Unlines([a, b, c]) == a + "\n" + b + "\n" + c + "\n"
  {
    assert [a, b, c] == [a] + ([b] + [c]);
    UnlinesConcat([a], [b] + [c]);
    UnlinesConcat([b], [c]);
    UnlinesOne(a);
    UnlinesOne(b);
    UnlinesOne(c);
    hide Unlines;
    assert Unlines([a, b, c]) == a + "\n" + (b + "\n" + (c + "\n"));
  }

  lemma ReferenceTexts()
    ensures RdrReference() == Unlines(RdrLines()) && EndsWith(RdrReference(), '\n')
    ensures LoadReference() == Unlines(LoadLines())
  {
    hide Unlines, PvMarker, SourceMarker, LegacyAnchor, RdrAnchor, LoadAnchor;
    ThreeLines(PvMarker(), SourceMarker(), RdrAnchor());
    ThreeLines(PvMarker(), SourceMarker(), LoadAnchor());
  }

  /** Splicing at the start of line k. */
  lemma SpliceLines(lines: seq<string>, k: nat, mid: seq<string>, tail: seq<string>)
    requires k <= |lines|
    ensures |Unlines(lines[..k])| <= |Unlines(lines)|
    ensures var text, at := Unlines(lines), |Unlines(lines[..k])|;
      text[..at] + Unlines(mid) + text[at..] + Unlines(tail)
      == Unlines(lines[..k] + mid + lines[k..] + tail)
  {
    hide Unlines;
    assert lines == lines[..k] + lines[k..];
    UnlinesConcat(lines[..k], lines[k..]);
    UnlinesConcat(lines[..k], mid);
    UnlinesConcat(lines[..k] + mid, lines[k..]);
    UnlinesConcat(lines[..k] + mid + lines[k..], tail);
    assert Unlines(lines)[|Unlines(lines[..k])|..] == Unlines(lines[k..]);
  }

  method AppendPfReference(content: string, reference: string) returns (candidate: string)
    ensures candidate == Appended(content, reference)
  {
    hide Terminated, Unlines, FirstFilter, TrimStart, TrimEnd, Split, RdrLines, LoadLines, RdrReference, LoadReference;
    if Trim(content) == "" {
      return reference;
    }
    candidate := content;
    if !EndsWith(candidate, '\n') {
      candidate := candidate + "\n";
    }
    ghost var lines := Terminated(content);
    UnlinesTerminated(content);
    TerminatedTwice(content);
    TrimBlank(content);
    assert content != "";
    assert candidate == Unlines(lines) && Terminated(candidate) == lines;
    ghost var k := FirstFilter(lines);
    ReferenceTexts();
    var rdrReference, loadReference := RdrReference(), LoadReference();
    SpliceLines(lines, k, RdrLines(), LoadLines());
    var index := FirstPfFilterRuleIndex(candidate);
    ghost var whole := candidate;
    if index.Some? {
      candidate := candidate[..index.value] + rdrReference + candidate[index.value..];
    } else {
      assert lines[..k] == lines;
      candidate := candidate + rdrReference;
    }
    ghost var at := |Unlines(lines[..k])|;
    assert candidate == whole[..at] + rdrReference + whole[at..];
    NewlineStays(whole, at, rdrReference);
    if !EndsWith(candidate, '\n') {
      candidate := candidate + "\n";
    }
    candidate := candidate + loadReference;
  }

  lemma NewlineStays(text: string, at: nat, inserted: string)
    requires at <= |text| && EndsWith(text, '\n') && EndsWith(inserted, '\n')
    ensures EndsWith(text[..at] + inserted + text[at..], '\n')
  {
  }

  lemma TerminatedTwice(text: string)
    ensures Terminated(Unlines(Terminated(text))) == Terminated(text)
    ensures Terminated(text) != [] ==> EndsWith(Unlines(Terminated(text)), '\n')
    ensures text != "" ==> Terminated(text) != []
  {
    UnlinesTerminated(text);
    hide Unlines;
    SplitUnlines(Terminated(text));
    if Terminated(text) == [] {
      UnlinesEmpty();
    }
  }

  // ------------------------------------------------------------------
  // Removing
  // ------------------------------------------------------------------

  /** The lines that are not lines of the reference. */
  function Kept(lines: seq<string>): seq<string> {
    if lines == [] then []
    else
      var last := lines[|lines| - 1];
      Kept(lines[..|lines| - 1]) + if IsReferenceLine(Trim(last)) then [] else [last]
  }

  function Removed(content: string): string {
    Unlines(Kept(Lines(content)))
  }

  /** Removal goes through the lines one by one: a known line goes, any other stays with its
      newline. */
  lemma RemovedForms(before: seq<string>, line: string, after: seq<string>)
    ensures Unlines(Kept([])) == ""
    ensures Unlines(Kept(before + [line] + after)) ==
      Unlines(Kept(before)) + (if IsReferenceLine(Trim(line)) then "" else line + "\n") + Unlines(Kept(after))
  {
    hide IsReferenceLine, Trim;
    KeptConcat(before + [line], after);
    KeptConcat(before, [line]);
    assert [line][..0] == [];
    UnlinesConcat(Kept(before) + Kept([line]), Kept(after));
    UnlinesConcat(Kept(before), Kept([line]));
    UnlinesOne(line);
  }

  lemma KeptEmpty()
    ensures Kept([]) == []
  {
  }

  lemma KeptStep(lines: seq<string>, i: nat)
    requires i < |lines|
    ensures Kept(lines[..i + 1]) ==
      if IsReferenceLine(Trim(lines[i])) then Kept(lines[..i]) else Kept(lines[..i]) + [lines[i]]
  {
    hide IsReferenceLine, Trim;
    assert lines[..i + 1][..i] == lines[..i];
  }

  method RemovePfReferenceLines(content: string) returns (candidate: string)
    ensures candidate == Removed(content)
  {
    hide Lines, IsReferenceLine, Trim, Unlines, Kept;
    var lines := Lines(content);
    KeptEmpty();
    candidate := "";
    UnlinesEmpty();
    assert lines[..0] == [];
    for i := 0 to |lines|
      invariant candidate == Unlines(Kept(lines[..i]))
    {
      KeptStep(lines, i);
      var line := lines[i];
      var trimmed := Trim(line);
      if IsReferenceLine(trimmed) {
        continue;
      }
      UnlinesConcat(Kept(lines[..i]), [line]);
      UnlinesOne(line);
      candidate := candidate + line + "\n";
    }
    assert lines[..|lines|] == lines;
  }

  lemma {:induction false} KeptConcat(a: seq<string>, b: seq<string>)
    ensures Kept(a + b) == Kept(a) + Kept(b)
    decreases |b|
  {
    hide IsReferenceLine, Trim;
    if b == [] {
      assert a + b == a;
    } else {
      assert (a + b)[..|a + b| - 1] == a + b[..|b| - 1];
      KeptConcat(a, b[..|b| - 1]);
    }
  }

  lemma {:induction false} KeptMembers(lines: seq<string>, line: string)
    ensures line in Kept(lines) <==> line in lines && !IsReferenceLine(Trim(line))
    decreases |lines|
  {
    hide IsReferenceLine, Trim;
    if lines != [] {
      var n := |lines| - 1;
      assert lines == lines[..n] + [lines[n]];
      KeptMembers(lines[..n], line);
    }
  }

  /** Nothing is left of a list of reference lines. */
  lemma {:induction false} KeptNone(lines: seq<string>)
    requires forall i :: 0 <= i < |lines| ==> IsReferenceLine(Trim(lines[i]))
    ensures Kept(lines) == []
    decreases |lines|
  {
    hide IsReferenceLine, Trim;
    if lines != [] {
      KeptNone(lines[..|lines| - 1]);
    }
  }

  lemma ReferenceKept()
    ensures Kept(RdrLines()) == [] && Kept(LoadLines()) == []
    ensures StripAll(RdrLines()) == RdrLines() && StripAll(LoadLines()) == LoadLines()
    ensures Trims(RdrLines()) == RdrLines() && Trims(LoadLines()) == LoadLines()
    ensures FreeOf(RdrLines(), '\n') && FreeOf(LoadLines(), '\n')
  {
    RdrKept();
    LoadKept();
    hide *;
  }

  lemma RdrKept()
    ensures Kept(RdrLines()) == [] && StripAll(RdrLines()) == RdrLines()
    ensures Trims(RdrLines()) == RdrLines() && FreeOf(RdrLines(), '\n')
  {
    hide Trim, StripReturn, PvMarker, SourceMarker, LegacyAnchor, RdrAnchor, LoadAnchor;
    DirectiveFacts();
    KeptNone(RdrLines());
  }

  lemma LoadKept()
    ensures Kept(LoadLines()) == [] && StripAll(LoadLines()) == LoadLines()
    ensures Trims(LoadLines()) == LoadLines() && FreeOf(LoadLines(), '\n')
  {
    hide Trim, StripReturn, PvMarker, SourceMarker, LegacyAnchor, RdrAnchor, LoadAnchor;
    DirectiveFacts();
    KeptNone(LoadLines());
  }

  lemma StripConcat(a: seq<string>, b: seq<string>)
    ensures StripAll(a + b) == StripAll(a) + StripAll(b)
  {
  }

  lemma WithReferenceFree(lines: seq<string>)
    requires FreeOf(lines, '\n')
    ensures FreeOf(WithReference(lines), '\n')
  {
    hide RdrLines, LoadLines, FirstFilter;
    ReferenceKept();
  }

  /** The lines of a text with the reference: the text's own, ended alike, around it. */
  lemma AppendedLines(content: string, reference: string)
    requires !Blank(content)
    ensures var own := Terminated(content);
      var k := FirstFilter(own);
      Lines(Appended(content, reference)) == StripAll(own[..k]) + RdrLines() + StripAll(own[k..]) + LoadLines()
  {
    var own := Terminated(content);
    hide Terminated, Lines, FirstFilter, RdrLines, LoadLines, Unlines;
    UnlinesTerminated(content);
    WithReferenceFree(own);
    LinesUnlines(WithReference(own));
    ReferenceKept();
    var k := FirstFilter(own);
    StripConcat(own[..k] + RdrLines() + own[k..], LoadLines());
    StripConcat(own[..k] + RdrLines(), own[k..]);
    StripConcat(own[..k], RdrLines());
  }

  /** What removal makes of a text with the reference: the text's own kept lines. */
  lemma RemovedAppended(content: string, reference: string)
    requires !Blank(content)
    ensures Removed(Appended(content, reference)) == Unlines(Kept(StripAll(Terminated(content))))
  {
    hide Terminated, Lines, FirstFilter, Appended, StripAll, Unlines, RdrLines, LoadLines, Kept, Blank;
    var own := Terminated(content);
    var k := FirstFilter(own);
    AppendedLines(content, reference);
    ReferenceKept();
    KeptAround(StripAll(own[..k]), StripAll(own[k..]));
    StripConcat(own[..k], own[k..]);
    assert own[..k] + own[k..] == own;
  }

  lemma KeptAround(a: seq<string>, b: seq<string>)
    ensures Kept(a + RdrLines() + b + LoadLines()) == Kept(a + b)
  {
    hide RdrLines, LoadLines, Kept;
    ReferenceKept();
    KeptConcat(a + RdrLines() + b, LoadLines());
    KeptConcat(a + RdrLines(), b);
    KeptConcat(a, RdrLines());
    KeptConcat(a, b);
    assert Kept(a) + [] + Kept(b) + [] == Kept(a) + Kept(b);
  }

  /** Removal of what was appended is removal alone, unless the text ends with a carriage
      return and no newline, and that last line is one that removal keeps. */
  lemma RemoveAfterAppend(content: string, reference: string)
    requires !Blank(content)
    ensures Removed(Appended(content, reference)) == Removed(content) <==>
      !(EndsWith(content, '\r') && !IsReferenceLine(Trim(LastPart(content))))
  {
    RemovedAppended(content, reference);
    RemovedMeans(content);
    LastReturn(content);
    hide Removed, Appended, Lines, Terminated, EndsWith, Blank, Unlines, Kept, StripAll;
    var last := LastPart(content);
    if last != "" {
      LastLine(content);
      LastDecides(StripAll(Split(content, '\n')[..|Split(content, '\n')| - 1]), last);
    } else {
      NoLastLine(content);
    }
  }

  /** Whether a last line with and without its return looks the same after removal. */
  lemma LastDecides(before: seq<string>, last: string)
    ensures Unlines(Kept(before + [StripReturn(last)])) == Unlines(Kept(before + [last])) <==>
      !(EndsWith(last, '\r') && !IsReferenceLine(Trim(last)))
  {
    hide Kept, Unlines, IsReferenceLine, Trim;
    KeptConcat(before, [last]);
    KeptConcat(before, [StripReturn(last)]);
    KeptOne(last);
    KeptOne(StripReturn(last));
    TrimReturn(last);
    if !IsReferenceLine(Trim(last)) {
      UnlinesConcat(Kept(before), [last]);
      UnlinesConcat(Kept(before), [StripReturn(last)]);
      UnlinesOne(last);
      UnlinesOne(StripReturn(last));
    }
  }

  lemma NoLastLine(content: string)
    requires LastPart(content) == ""
    ensures Lines(content) == StripAll(Terminated(content))
  {
    hide Split;
  }

  lemma RemovedMeans(content: string)
    ensures Removed(content) == Unlines(Kept(Lines(content)))
  {
  }

  lemma KeptOne(line: string)
    ensures Kept([line]) == if IsReferenceLine(Trim(line)) then [] else [line]
  {
    assert [line][..0] == [];
    hide IsReferenceLine, Trim;
  }

  lemma LastReturn(content: string)
    ensures LastPart(content) == "" ==> !EndsWith(content, '\r')
    ensures LastPart(content) != "" ==> (EndsWith(content, '\r') <==> EndsWith(LastPart(content), '\r'))
  {
    UnlinesParts(content);
    hide Split, LastPart;
  }

  lemma LastLine(content: string)
    requires LastPart(content) != ""
    ensures var parts := Split(content, '\n');
      var before := StripAll(parts[..|parts| - 1]);
      && Lines(content) == before + [LastPart(content)]
      && StripAll(Terminated(content)) == before + [StripReturn(LastPart(content))]
  {
    hide Split;
    var parts := Split(content, '\n');
    assert parts == parts[..|parts| - 1] + [LastPart(content)];
    StripConcat(parts[..|parts| - 1], [LastPart(content)]);
  }

  /** A file that ends in a bare carriage return is not restored exactly. */
  lemma BareReturnLost()
    ensures !Blank("pass\r") && Removed(Appended("pass\r", Render())) != Removed("pass\r")
  {
    SplitFree("pass\r", '\n');
    TrimBlank("pass\r");
    assert "pass\r"[0] == 'p';
    assert LastPart("pass\r") == "pass\r";
    PassKept();
    RemoveAfterAppend("pass\r", Render());
  }

  lemma PassKept()
    ensures !IsReferenceLine(Trim("pass\r"))
  {
    assert "pass\r" == "pass" + ['\r'];
    TrimAppendWhitespace("pass", '\r');
    TrimVisible("pass");
    FirstChars();
    assert LegacyAnchor()[1] == 'n';
  }

  /** Where the two parts of the reference go: the redirect before the first filter rule, the load
      directive after everything, and the lines in between and around as they were. */
  lemma AppendedParts(content: string, reference: string) returns (before: seq<string>, after: seq<string>)
    ensures Blank(content) ==> Appended(content, reference) == reference
    ensures before + after == Terminated(content)
    ensures forall i :: 0 <= i < |before| ==> !IsFilterLine(before[i])
    ensures after != [] ==> IsFilterLine(after[0])
    ensures !Blank(content) ==>
      Appended(content, reference) == Unlines(before) + RdrReference() + Unlines(after) + LoadReference()
  {
    hide Blank, IsFilterLine, Terminated, Unlines, RdrReference, LoadReference, RdrLines, LoadLines;
    var lines := Terminated(content);
    var k := FirstFilter(lines);
    before, after := lines[..k], lines[k..];
    ReferenceTexts();
    UnlinesConcat(before + RdrLines() + after, LoadLines());
    UnlinesConcat(before + RdrLines(), after);
    UnlinesConcat(before, RdrLines());
  }

  /** The inserted texts, in full. */
  lemma InsertedTexts()
    ensures RdrReference() ==
      "# Managed by PV\n" + "# Source: PV prepared pf.conf reference for /etc/pf.conf\n"
      + "rdr-anchor \"com.prvious.pv\"\n"
    ensures LoadReference() ==
      "# Managed by PV\n" + "# Source: PV prepared pf.conf reference for /etc/pf.conf\n"
      + "load anchor \"com.prvious.pv\" from \"/etc/pf.anchors/com.prvious.pv\"\n"
  {
    ReferenceWords();
    hide PvMarker, SourceMarker, RdrAnchor, LoadAnchor;
    assert "# Managed by PV" + "\n" == "# Managed by PV\n";
    assert "# Source: PV prepared pf.conf reference for /etc/pf.conf" + "\n"
      == "# Source: PV prepared pf.conf reference for /etc/pf.conf\n";
    assert "rdr-anchor \"com.prvious.pv\"" + "\n" == "rdr-anchor \"com.prvious.pv\"\n";
    assert "load anchor \"com.prvious.pv\" from \"/etc/pf.anchors/com.prvious.pv\"" + "\n"
      == "load anchor \"com.prvious.pv\" from \"/etc/pf.anchors/com.prvious.pv\"\n";
  }
}
