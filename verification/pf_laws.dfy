/** What inserting and removing the reference do to the state that inspection reports. */
module PfLaws {
  import opened Text
  import opened PfConf
  import opened PfEdit

  function Trimmed(content: string): seq<string> {
    Trims(Lines(content))
  }

  /** A PV directive that removal does not recognise. */
  predicate HasVariant(trimmed: seq<string>) {
    exists i :: 0 <= i < |trimmed| && IsPvDirective(trimmed[i]) && !IsReferenceLine(trimmed[i])
  }

  // ------------------------------------------------------------------
  // Appending
  // ------------------------------------------------------------------

  function Around(own: seq<string>, k: nat): seq<string>
    requires k <= |own|
  {
    own[..k] + RdrLines() + own[k..] + LoadLines()
  }

  lemma AppendedTrims(content: string, reference: string)
    requires !Blank(content)
    ensures var k := FirstFilter(Terminated(content));
      && k <= |Trimmed(content)|
      && Trimmed(Appended(content, reference)) == Around(Trimmed(content), k)
  {
    hide Terminated, Lines, FirstFilter, Appended, Trim, RdrLines, LoadLines, Blank, StripAll;
    var own := Terminated(content);
    var k := FirstFilter(own);
    AppendedLines(content, reference);
    TrimsLines(content);
    ReferenceKept();
    TrimsStrip(own[..k]);
    TrimsStrip(own[k..]);
    TrimsConcat(StripAll(own[..k]) + RdrLines() + StripAll(own[k..]), LoadLines());
    TrimsConcat(StripAll(own[..k]) + RdrLines(), StripAll(own[k..]));
    TrimsConcat(StripAll(own[..k]), RdrLines());
    assert Trims(own)[..k] == Trims(own[..k]) && Trims(own)[k..] == Trims(own[k..]);
  }

  lemma ReferenceCounts()
    ensures multiset(RdrLines())[RdrAnchor()] == 1 && multiset(RdrLines())[LoadAnchor()] == 0
    ensures multiset(LoadLines())[RdrAnchor()] == 0 && multiset(LoadLines())[LoadAnchor()] == 1
    ensures PvMarker() in LoadLines()
    ensures forall line :: (line in RdrLines() || line in LoadLines()) && IsPvDirective(line) ==>
      line == RdrAnchor() || line == LoadAnchor()
  {
    hide PvMarker, SourceMarker, RdrAnchor, LoadAnchor, LegacyAnchor, IsPvDirective;
    DirectiveFacts();
    assert RdrLines()[2] == RdrAnchor();
  }

  lemma AroundMembers(own: seq<string>, k: nat, line: string)
    requires k <= |own|
    ensures line in Around(own, k) <==> line in own || line in RdrLines() || line in LoadLines()
    ensures multiset(Around(own, k))[line]
      == multiset(own)[line] + multiset(RdrLines())[line] + multiset(LoadLines())[line]
  {
    hide RdrLines, LoadLines;
    assert own == own[..k] + own[k..];
    assert line in Around(own, k) <==> multiset(Around(own, k))[line] > 0;
    assert multiset(own) == multiset(own[..k]) + multiset(own[k..]);
  }

  lemma WithReferenceState(own: seq<string>, k: nat)
    requires k <= |own|
    ensures InspectLines(Around(own, k)) == if HasDirective(own) then Stale else Current
  {
    hide PvMarker, RdrAnchor, LoadAnchor, LegacyAnchor, RdrLines, LoadLines, IsPvDirective, Around;
    ReferenceCounts();
    DirectiveFacts();
    var all := Around(own, k);
    AroundMembers(own, k, PvMarker());
    AroundMembers(own, k, RdrAnchor());
    AroundMembers(own, k, LoadAnchor());
    if i :| 0 <= i < |own| && IsPvDirective(own[i]) {
      AroundMembers(own, k, own[i]);
      assert multiset(own)[own[i]] > 0;
    } else {
      forall i | 0 <= i < |all| && IsPvDirective(all[i]) ensures all[i] == RdrAnchor() || all[i] == LoadAnchor() {
        AroundMembers(own, k, all[i]);
        assert all[i] in RdrLines() || all[i] in LoadLines();
      }
      assert multiset(own)[RdrAnchor()] == 0 && multiset(own)[LoadAnchor()] == 0;
    }
  }

  /** Appending to a text with something in it yields a current file exactly when the text
      held no PV directive before; otherwise the file is stale. */
  lemma AppendState(content: string, reference: string)
    requires !Blank(content)
    ensures Inspect(Appended(content, reference)) == if HasDirective(Trimmed(content)) then Stale else Current
  {
    hide FirstFilter, Terminated, Lines, Appended, InspectLines, HasDirective, Around;
    AppendedTrims(content, reference);
    WithReferenceState(Trimmed(content), FirstFilter(Terminated(content)));
  }

  /** The reference alone, which is what a blank file becomes. */
  lemma ReferenceState(reference: string)
    requires IsReferenceBlock(Trimmed(reference))
    ensures Inspect(reference) == if PvMarker() in Trimmed(reference) then Current else Conflict
  {
    hide Lines, RdrAnchor, LoadAnchor, LegacyAnchor, PvMarker, IsPvDirective, Trim;
    DirectiveFacts();
    var t := Trimmed(reference);
    forall i | 0 <= i < |t| && IsPvDirective(t[i]) ensures t[i] == RdrAnchor() || t[i] == LoadAnchor() {
      DirectiveActive(t[i]);
    }
    assert RdrAnchor() in t;
    var i :| 0 <= i < |t| && t[i] == RdrAnchor();
    assert HasDirective(t);
  }

  /** The reference that PV renders is a reference block with the marker. */
  lemma RenderIsReference()
    ensures IsReferenceBlock(Trimmed(Render())) && PvMarker() in Trimmed(Render())
  {
    hide RdrAnchor, LoadAnchor, LegacyAnchor, PvMarker, SourceMarker, IsPvDirective, Trim, Lines, StripReturn, Unlines;
    DirectiveFacts();
    var lines := [PvMarker(), SourceMarker(), RdrAnchor(), LoadAnchor()];
    LinesUnlines(lines);
    TrimsStrip(lines);
    assert Trims(lines) == lines;
    assert lines[0] == PvMarker();
    MarkersAreComments();
  }

  lemma MarkersAreComments()
    ensures StartsWith(PvMarker(), "#") && StartsWith(SourceMarker(), "#")
  {
    FirstChars();
  }

  /** Appending the rendered reference to a file without one always makes it current. */
  lemma AppendingToMissingMakesCurrent(content: string)
    requires Inspect(content) == Missing
    ensures Inspect(Appended(content, Render())) == Current
  {
    if Blank(content) {
      RenderIsReference();
      ReferenceState(Render());
    } else {
      AppendState(content, Render());
    }
  }

  // ------------------------------------------------------------------
  // Order
  // ------------------------------------------------------------------

  ghost predicate AnchorFirst(lines: seq<string>) {
    exists at :: 0 <= at < |lines| && Trim(lines[at]) == RdrAnchor()
      && forall i :: 0 <= i < |lines| && IsFilterLine(lines[i]) ==> at < i
  }

  lemma StripKeepsFilter(line: string)
    ensures IsFilterLine(StripReturn(line)) <==> IsFilterLine(line)
  {
    TrimReturn(line);
  }

  lemma ReferenceNotFilter()
    ensures forall i :: 0 <= i < 3 ==> !IsFilterLine(RdrLines()[i])
  {
    hide PvMarker, SourceMarker, RdrAnchor, LoadAnchor, LegacyAnchor, Trim, IsFilterRule;
    DirectiveFacts();
  }

  /** A valid reference has no filter rule at all. */
  lemma BlockAnchorFirst(reference: string)
    requires IsReferenceBlock(Trimmed(reference))
    ensures AnchorFirst(Lines(reference))
  {
    hide Lines, PvMarker, SourceMarker, RdrAnchor, LoadAnchor, LegacyAnchor, Trim, IsFilterRule;
    DirectiveFacts();
    var lines := Lines(reference);
    assert RdrAnchor() in Trimmed(reference);
    var at :| 0 <= at < |lines| && Trimmed(reference)[at] == RdrAnchor();
    forall i | 0 <= i < |lines| ensures !IsFilterLine(lines[i]) {
      assert Trimmed(reference)[i] == Trim(lines[i]);
    }
  }

  lemma RenderLines()
    ensures Lines(Render()) == [PvMarker(), SourceMarker(), RdrAnchor(), LoadAnchor()]
  {
    hide RdrAnchor, LoadAnchor, LegacyAnchor, PvMarker, SourceMarker, Lines, StripReturn, Unlines, IsPvDirective,
      IsFilterRule, Trim;
    DirectiveFacts();
    LinesUnlinesSame([PvMarker(), SourceMarker(), RdrAnchor(), LoadAnchor()]);
  }

  /** The redirect anchor comes before every filter rule, and the load directive is last; when
      the file was blank and so becomes the reference, last if that is the rendered one. */
  lemma AnchorBeforeFilters(content: string, reference: string)
    requires IsReferenceBlock(Trimmed(reference))
    ensures AnchorFirst(Lines(Appended(content, reference)))
    ensures !Blank(content) || reference == Render() ==>
      var lines := Lines(Appended(content, reference));
      lines != [] && lines[|lines| - 1] == LoadAnchor()
  {
    hide Lines, RdrAnchor, LoadAnchor, PvMarker, SourceMarker, AnchorFirst, Unlines, IsReferenceBlock;
    if Blank(content) {
      BlockAnchorFirst(reference);
      RenderLines();
    } else {
      AnchorInserted(content, reference);
    }
  }

  lemma AnchorInserted(content: string, reference: string)
    requires !Blank(content)
    ensures AnchorFirst(Lines(Appended(content, reference)))
    ensures var lines := Lines(Appended(content, reference));
      lines != [] && lines[|lines| - 1] == LoadAnchor()
  {
    hide Terminated, Lines, Appended, IsFilterLine, RdrAnchor, LoadAnchor, PvMarker, SourceMarker, StripReturn, Trim;
    DirectiveFacts();
    var own := Terminated(content);
    var k := FirstFilter(own);
    AppendedLines(content, reference);
    ReferenceNotFilter();
    var lines := Lines(Appended(content, reference));
    assert lines[k + 2] == RdrAnchor();
    forall i | 0 <= i < |lines| && i <= k + 2 ensures !IsFilterLine(lines[i]) {
      if i < k {
        StripKeepsFilter(own[i]);
      } else {
        assert lines[i] == RdrLines()[i - k];
      }
    }
  }

  // ------------------------------------------------------------------
  // Removing
  // ------------------------------------------------------------------

  lemma {:induction false} KeptTrims(lines: seq<string>, line: string)
    ensures line in Trims(Kept(lines)) <==> line in Trims(lines) && !IsReferenceLine(line)
    decreases |lines|
  {
    hide IsReferenceLine, Trim, Kept;
    if line in Trims(Kept(lines)) {
      var i :| 0 <= i < |Kept(lines)| && Trim(Kept(lines)[i]) == line;
      KeptMembers(lines, Kept(lines)[i]);
      var j :| 0 <= j < |lines| && lines[j] == Kept(lines)[i];
      assert Trims(lines)[j] == line;
    }
    if line in Trims(lines) && !IsReferenceLine(line) {
      var i :| 0 <= i < |lines| && Trims(lines)[i] == line;
      KeptMembers(lines, lines[i]);
      var j :| 0 <= j < |Kept(lines)| && Kept(lines)[j] == lines[i];
      assert Trims(Kept(lines))[j] == line;
    }
  }

  lemma LinesFree(content: string)
    ensures FreeOf(Lines(content), '\n')
  {
    SplitPartsFree(content, '\n');
    hide Split;
  }

  lemma KeptFree(lines: seq<string>)
    requires FreeOf(lines, '\n')
    ensures FreeOf(Kept(lines), '\n')
  {
    hide Kept;
    forall i | 0 <= i < |Kept(lines)| ensures '\n' !in Kept(lines)[i] {
      KeptMembers(lines, Kept(lines)[i]);
    }
  }

  /** What is left after removal: every line that is not one of the reference's. */
  lemma RemovedTrims(content: string, line: string)
    ensures line in Trimmed(Removed(content)) <==> line in Trimmed(content) && !IsReferenceLine(line)
  {
    hide Lines, Kept, IsReferenceLine, Unlines, Trim;
    var kept := Kept(Lines(content));
    LinesFree(content);
    KeptFree(Lines(content));
    LinesUnlines(kept);
    TrimsStrip(kept);
    KeptTrims(Lines(content), line);
  }

  lemma RemovedDirectives(content: string)
    ensures HasDirective(Trimmed(Removed(content))) <==> HasVariant(Trimmed(content))
    ensures PvMarker() !in Trimmed(Removed(content))
  {
    hide IsPvDirective, Removed, Trimmed, PvMarker, SourceMarker, RdrAnchor, LoadAnchor, LegacyAnchor;
    var before, after := Trimmed(content), Trimmed(Removed(content));
    RemovedTrims(content, PvMarker());
    if HasDirective(after) {
      var i :| 0 <= i < |after| && IsPvDirective(after[i]);
      RemovedTrims(content, after[i]);
      var j :| 0 <= j < |before| && before[j] == after[i];
      assert HasVariant(before);
    }
    if HasVariant(before) {
      var i :| 0 <= i < |before| && IsPvDirective(before[i]) && !IsReferenceLine(before[i]);
      RemovedTrims(content, before[i]);
      var j :| 0 <= j < |after| && after[j] == before[i];
      assert HasDirective(after);
    }
  }

  /** Removal leaves a file without the reference, unless it holds a PV directive that is not
      one of the known lines. */
  lemma RemovalState(content: string)
    ensures Inspect(Removed(content)) == if HasVariant(Trimmed(content)) then Conflict else Missing
  {
    hide Removed, Lines, HasVariant, HasDirective;
    RemovedDirectives(content);
  }

  /** Repairing a file, that is removing and appending anew, makes it current exactly when
      no PV directive is left over; a file that holds nothing else becomes the reference. */
  lemma RepairState(content: string, reference: string)
    requires IsReferenceBlock(Trimmed(reference))
    ensures !Blank(Removed(content)) ==>
      (Inspect(Appended(Removed(content), reference)) == Current <==> !HasVariant(Trimmed(content)))
    ensures Blank(Removed(content)) ==>
      (Inspect(Appended(Removed(content), reference)) == Current <==> PvMarker() in Trimmed(reference))
  {
    hide Removed, Lines, HasVariant, HasDirective, Blank, Inspect;
    RemovedDirectives(content);
    if Blank(Removed(content)) {
      ReferenceState(reference);
    } else {
      AppendState(Removed(content), reference);
    }
  }

  // ------------------------------------------------------------------
  // A file that repair does not make current
  // ------------------------------------------------------------------

  /** A marked file whose anchor directive is not one of the known lines. */
  function StaleVariant(): string {
    Unlines([PvMarker(), RdrAnchor() + " all"])
  }

  lemma StaleVariantLines()
    ensures Lines(StaleVariant()) == [PvMarker(), RdrAnchor() + " all"]
    ensures Trimmed(StaleVariant()) == [PvMarker(), RdrAnchor() + " all"]
  {
    hide RdrAnchor, LoadAnchor, LegacyAnchor, PvMarker, SourceMarker, Lines, Unlines, Trim, StripReturn, IsPvDirective,
      IsFilterRule;
    var lines := [PvMarker(), RdrAnchor() + " all"];
    VariantText();
    DirectiveFacts();
    LinesUnlinesSame(lines);
    assert Trims(lines) == lines;
  }

  lemma VariantText()
    ensures Trim(RdrAnchor() + " all") == RdrAnchor() + " all" && '\n' !in RdrAnchor() + " all"
    ensures StripReturn(RdrAnchor() + " all") == RdrAnchor() + " all"
  {
    hide Trim;
    var variant := RdrAnchor() + " all";
    FirstChars();
    OneLineFacts();
    assert RdrAnchor() != "" && variant == RdrAnchor() + " all";
    assert variant[0] == 'r' && variant[|variant| - 1] == 'l';
    TrimVisible(variant);
    assert '\n' !in " all";
  }

  lemma VariantFacts()
    ensures IsPvDirective(RdrAnchor() + " all") && !IsReferenceLine(RdrAnchor() + " all")
  {
    var variant := RdrAnchor() + " all";
    FirstChars();
    assert RdrAnchor() <= variant;
    assert variant[0] == 'r' && |variant| > |RdrAnchor()|;
  }

  /** It is stale before the repair and stale after it. */
  lemma RepairLeavesStale()
    ensures Inspect(StaleVariant()) == Stale && HasVariant(Trimmed(StaleVariant()))
    ensures Inspect(Appended(Removed(StaleVariant()), Render())) == Stale
  {
    hide RdrAnchor, LoadAnchor, LegacyAnchor, PvMarker, SourceMarker, Lines, Unlines, Trim, Removed, Appended,
      IsPvDirective, IsReferenceLine, StaleVariant, Render;
    StaleVariantLines();
    VariantFacts();
    DirectiveFacts();
    var trimmed := Trimmed(StaleVariant());
    assert trimmed[0] == PvMarker() && trimmed[1] == RdrAnchor() + " all";
    assert |trimmed[1]| != |RdrAnchor()|;
    assert HasVariant(trimmed);
    RemovedDirectives(StaleVariant());
    RemovedTrims(StaleVariant(), trimmed[1]);
    NotBlank(Removed(StaleVariant()), trimmed[1]);
    AppendState(Removed(StaleVariant()), Render());
  }

  /** A text with a line that is not blank is not blank. */
  lemma NotBlank(content: string, line: string)
    requires line in Trimmed(content) && line != ""
    ensures !Blank(content)
  {
    hide Split, Trim, Lines;
    var parts := Split(content, '\n');
    if Blank(content) {
      TrimBlank(content);
      BlankParts(content);
      TrimsLines(content);
      var i :| 0 <= i < |Trims(Terminated(content))| && Trims(Terminated(content))[i] == line;
      TrimBlank(Terminated(content)[i]);
    }
  }

  lemma {:induction false} BlankParts(content: string)
    requires AllWhitespace(content)
    ensures forall i :: 0 <= i < |Split(content, '\n')| ==> AllWhitespace(Split(content, '\n')[i])
  {
    if content != "" {
      BlankParts(content[1..]);
    }
  }
}
