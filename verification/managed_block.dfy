/** Rewriting the managed block of an env file: the block is appended, replaced, or, when
    there are several, folded into one, and every other line is kept. */
module ManagedBlock {
  import opened Text
  import opened Config
  import opened Ordered
  import opened EnvFormat

  function StartMarker(): string { "# >>> PV MANAGED" }

  function EndMarker(): string { "# <<< PV MANAGED" }

  function NestedStart(): string { "nested start marker" }

  function EndWithoutStart(): string { "end marker without start marker" }

  function StartWithoutEnd(): string { "start marker without end marker" }

  datatype Block = Block(start: nat, end: nat)

  datatype Transformed = Transformed(content: string, warnings: seq<string>, changed: bool)

  // ------------------------------------------------------------------
  // Lines
  // ------------------------------------------------------------------

  function TrimEndReturns(line: string): string {
    if EndsWith(line, '\r') then TrimEndReturns(line[..|line| - 1]) else line
  }

  function TrimAllReturns(parts: seq<string>): seq<string> {
    if parts == [] then [] else [TrimEndReturns(parts[0])] + TrimAllReturns(parts[1..])
  }

  function SplitEnvLines(content: string): seq<string> {
    if content == "" then []
    else
      var lines := TrimAllReturns(Split(content, '\n'));
      if EndsWith(content, '\n') && lines != [] then lines[..|lines| - 1] else lines
  }

  function JoinEnvLines(lines: seq<string>): string {
    if lines == [] then "" else Join(lines, '\n') + "\n"
  }

  predicate PhysicalLine(line: string) {
    '\n' !in line && !EndsWith(line, '\r')
  }

  ghost predicate PhysicalLines(lines: seq<string>) {
    forall i :: 0 <= i < |lines| ==> PhysicalLine(lines[i])
  }

  lemma {:induction false} TrimEndReturnsPhysical(line: string)
    requires '\n' !in line
    ensures PhysicalLine(TrimEndReturns(line))
  {
    if EndsWith(line, '\r') {
      TrimEndReturnsPhysical(line[..|line| - 1]);
    }
  }

  lemma {:induction false} TrimAllReturnsPhysical(parts: seq<string>)
    requires FreeOf(parts, '\n')
    ensures |TrimAllReturns(parts)| == |parts|
    ensures PhysicalLines(TrimAllReturns(parts))
    ensures PhysicalLines(parts) ==> TrimAllReturns(parts) == parts
  {
    if parts != [] {
      TrimEndReturnsPhysical(parts[0]);
      TrimAllReturnsPhysical(parts[1..]);
    }
  }

  lemma SplitEnvLinesPhysical(content: string)
    ensures PhysicalLines(SplitEnvLines(content))
  {
    SplitPartsFree(content, '\n');
    TrimAllReturnsPhysical(Split(content, '\n'));
  }

  /** Splitting what was joined gives the lines back. */
  lemma SplitJoinEnvLines(lines: seq<string>)
    requires PhysicalLines(lines)
    ensures SplitEnvLines(JoinEnvLines(lines)) == lines
  {
    if lines != [] {
      var parts := lines + [""];
      JoinAppend(lines, '\n', "");
      SplitJoin(parts, '\n');
      TrimAllReturnsPhysical(parts);
      assert JoinEnvLines(lines) == Join(parts, '\n');
      assert parts[..|lines|] == lines;
    }
  }

  // ------------------------------------------------------------------
  // Blocks
  // ------------------------------------------------------------------

  predicate IsMarker(line: string) {
    line == StartMarker() || line == EndMarker()
  }

  function FirstBlock(block: Block, rest: Result<seq<Block>, ConfigError>): Result<seq<Block>, ConfigError> {
    if rest.Ok? then Ok([block] + rest.value) else rest
  }

  /** The blocks from line `i` on, `open` being the start marker still to be closed. */
  function BlocksFrom(lines: seq<string>, i: nat, open: Option<nat>): Result<seq<Block>, ConfigError>
    requires i <= |lines|
    decreases |lines| - i
  {
    if i == |lines| then
      if open.Some? then Err(MalformedManagedEnvBlock(StartWithoutEnd())) else Ok([])
    else if lines[i] == StartMarker() then
      if open.Some? then Err(MalformedManagedEnvBlock(NestedStart())) else BlocksFrom(lines, i + 1, Some(i))
    else if lines[i] == EndMarker() then
      if open.None? then Err(MalformedManagedEnvBlock(EndWithoutStart()))
      else FirstBlock(Block(open.value, i), BlocksFrom(lines, i + 1, None))
    else BlocksFrom(lines, i + 1, open)
  }

  function Blocks(lines: seq<string>): Result<seq<Block>, ConfigError> {
    BlocksFrom(lines, 0, None)
  }

  function AllBlocks(first: seq<Block>, rest: Result<seq<Block>, ConfigError>): Result<seq<Block>, ConfigError> {
    if rest.Ok? then Ok(first + rest.value) else rest
  }

  lemma AllBlocksFirst(first: seq<Block>, block: Block, rest: Result<seq<Block>, ConfigError>)
    ensures AllBlocks(first, FirstBlock(block, rest)) == AllBlocks(first + [block], rest)
    ensures AllBlocks([], rest) == rest
    ensures AllBlocks(first, Ok([])) == Ok(first)
  {
    assert first + [] == first;
    if rest.Ok? {
      assert [] + rest.value == rest.value;
      assert first + ([block] + rest.value) == (first + [block]) + rest.value;
    }
  }

  method ManagedBlocks(lines: seq<string>) returns (r: Result<seq<Block>, ConfigError>)
    ensures r == Blocks(lines)
  {
    hide AllBlocks, FirstBlock;
    var blocks: seq<Block> := [];
    var currentStart: Option<nat> := None;
    var index := 0;
    AllBlocksFirst([], Block(0, 0), Blocks(lines));
    while index < |lines|
      invariant 0 <= index <= |lines|
      invariant Blocks(lines) == AllBlocks(blocks, BlocksFrom(lines, index, currentStart))
    {
      if lines[index] == StartMarker() {
        if currentStart.Some? {
          AllBlocksError(blocks, MalformedManagedEnvBlock(NestedStart()));
          return Err(MalformedManagedEnvBlock(NestedStart()));
        }
        currentStart := Some(index);
        index := index + 1;
        continue;
      }
      if lines[index] == EndMarker() {
        if currentStart.None? {
          AllBlocksError(blocks, MalformedManagedEnvBlock(EndWithoutStart()));
          return Err(MalformedManagedEnvBlock(EndWithoutStart()));
        }
        var block := Block(currentStart.value, index);
        AllBlocksFirst(blocks, block, BlocksFrom(lines, index + 1, None));
        currentStart := None;
        blocks := blocks + [block];
      }
      index := index + 1;
    }
    if currentStart.Some? {
      AllBlocksError(blocks, MalformedManagedEnvBlock(StartWithoutEnd()));
      return Err(MalformedManagedEnvBlock(StartWithoutEnd()));
    }
    AllBlocksFirst(blocks, Block(0, 0), Ok([]));
    return Ok(blocks);
  }

  lemma AllBlocksError(first: seq<Block>, e: ConfigError)
    ensures AllBlocks(first, Err(e)) == Err(e)
  {
  }

  /** The markers of a text in order, `true` for a start marker. */
  function Markers(lines: seq<string>, i: nat): seq<bool>
    requires i <= |lines|
    decreases |lines| - i
  {
    if i == |lines| then []
    else if lines[i] == StartMarker() then [true] + Markers(lines, i + 1)
    else if lines[i] == EndMarker() then [false] + Markers(lines, i + 1)
    else Markers(lines, i + 1)
  }

  predicate Alternating(markers: seq<bool>, open: bool) {
    if markers == [] then !open else markers[0] != open && Alternating(markers[1..], markers[0])
  }

  /** The scan accepts exactly the texts whose markers alternate, start first, end last. */
  lemma {:induction false} BlocksAcceptAlternating(lines: seq<string>, i: nat, open: Option<nat>)
    requires i <= |lines|
    ensures BlocksFrom(lines, i, open).Ok? <==> Alternating(Markers(lines, i), open.Some?)
    decreases |lines| - i
  {
    if i < |lines| {
      var rest := Markers(lines, i + 1);
      BlocksAcceptAlternating(lines, i + 1, Some(i));
      BlocksAcceptAlternating(lines, i + 1, None);
      BlocksAcceptAlternating(lines, i + 1, open);
      assert ([true] + rest)[1..] == rest && ([false] + rest)[1..] == rest;
    }
  }

  /** Ordered, disjoint, delimited by markers, and no marker elsewhere from `from` on. */
  ghost predicate Delimits(lines: seq<string>, blocks: seq<Block>, from: nat) {
    && (forall b :: b in blocks ==>
          from <= b.start < b.end < |lines| && lines[b.start] == StartMarker() && lines[b.end] == EndMarker())
    && (forall i, j :: 0 <= i < j < |blocks| ==> blocks[i].end < blocks[j].start)
    && (forall m :: from <= m < |lines| && IsMarker(lines[m]) ==>
          exists b :: b in blocks && (m == b.start || m == b.end))
  }

  lemma DelimitsFirst(lines: seq<string>, block: Block, rest: seq<Block>)
    requires block.start < block.end < |lines|
    requires lines[block.start] == StartMarker() && lines[block.end] == EndMarker()
    requires forall m :: block.start < m < block.end ==> !IsMarker(lines[m])
    requires Delimits(lines, rest, block.end + 1)
    ensures Delimits(lines, [block] + rest, block.start)
  {
    hide IsMarker;
    var blocks := [block] + rest;
    assert forall b :: b in blocks <==> b == block || b in rest;
    forall m | block.start <= m < |lines| && IsMarker(lines[m])
      ensures exists b :: b in blocks && (m == b.start || m == b.end)
    {
      assert block in blocks;
      if m > block.end {
        var b :| b in rest && (m == b.start || m == b.end);
        assert b in blocks;
      }
    }
    forall x, y | 0 <= x < y < |blocks| ensures blocks[x].end < blocks[y].start {
      assert blocks[y] == rest[y - 1] && blocks[y] in rest;
      if x > 0 {
        assert blocks[x] == rest[x - 1];
      }
    }
  }

  lemma {:induction false} BlocksFromDelimit(lines: seq<string>, i: nat, open: Option<nat>)
    requires i <= |lines|
    requires open.Some? ==> open.value < i && lines[open.value] == StartMarker()
    requires open.Some? ==> forall m :: open.value < m < i ==> !IsMarker(lines[m])
    requires BlocksFrom(lines, i, open).Ok?
    ensures Delimits(lines, BlocksFrom(lines, i, open).value, if open.Some? then open.value else i)
    decreases |lines| - i
  {
    hide Delimits, StartMarker, EndMarker, NestedStart, EndWithoutStart, StartWithoutEnd;
    if i < |lines| {
      if lines[i] == StartMarker() {
        BlocksFromDelimit(lines, i + 1, Some(i));
      } else if lines[i] == EndMarker() {
        BlocksFromDelimit(lines, i + 1, None);
        DelimitsFirst(lines, Block(open.value, i), BlocksFrom(lines, i + 1, None).value);
      } else {
        BlocksFromDelimit(lines, i + 1, open);
        if open.None? {
          DelimitsSkip(lines, BlocksFrom(lines, i + 1, None).value, i);
        }
      }
    } else {
      NothingDelimits(lines, i);
    }
  }

  lemma DelimitsSkip(lines: seq<string>, blocks: seq<Block>, i: nat)
    requires i < |lines| && !IsMarker(lines[i]) && Delimits(lines, blocks, i + 1)
    ensures Delimits(lines, blocks, i)
  {
    hide IsMarker;
  }

  lemma NothingDelimits(lines: seq<string>, from: nat)
    requires from >= |lines|
    ensures Delimits(lines, [], from)
  {
  }

  /** The blocks found are in order, disjoint, and cover every marker. */
  lemma BlocksDelimit(lines: seq<string>)
    requires Blocks(lines).Ok?
    ensures Delimits(lines, Blocks(lines).value, 0)
  {
    BlocksFromDelimit(lines, 0, None);
  }

  lemma {:induction false} NoMarkersNoBlocks(lines: seq<string>, i: nat, open: Option<nat>, j: nat)
    requires i <= j <= |lines|
    requires forall m :: i <= m < j ==> !IsMarker(lines[m])
    ensures BlocksFrom(lines, i, open) == BlocksFrom(lines, j, open)
    decreases j - i
  {
    if i < j {
      NoMarkersNoBlocks(lines, i + 1, open, j);
    }
  }

  // ------------------------------------------------------------------
  // Lines outside blocks
  // ------------------------------------------------------------------

  predicate InBlocks(blocks: seq<Block>, index: nat) {
    exists k :: 0 <= k < |blocks| && blocks[k].start <= index <= blocks[k].end
  }

  function OutsideFrom(lines: seq<string>, blocks: seq<Block>, i: nat): seq<string>
    requires i <= |lines|
    decreases |lines| - i
  {
    if i == |lines| then []
    else if InBlocks(blocks, i) then OutsideFrom(lines, blocks, i + 1)
    else [lines[i]] + OutsideFrom(lines, blocks, i + 1)
  }

  /** The user's own lines, in order. */
  function Outside(lines: seq<string>, blocks: seq<Block>): seq<string> {
    OutsideFrom(lines, blocks, 0)
  }

  lemma {:induction false} OutsideKeepsStretch(lines: seq<string>, blocks: seq<Block>, i: nat, j: nat)
    requires i <= j <= |lines|
    requires forall m :: i <= m < j ==> !InBlocks(blocks, m)
    ensures OutsideFrom(lines, blocks, i) == lines[i..j] + OutsideFrom(lines, blocks, j)
    decreases j - i
  {
    hide InBlocks, OutsideFrom;
    if i < j {
      OutsideStep(lines, blocks, i);
      OutsideKeepsStretch(lines, blocks, i + 1, j);
      assert lines[i..j] == [lines[i]] + lines[i + 1..j];
    }
  }

  lemma OutsideStep(lines: seq<string>, blocks: seq<Block>, i: nat)
    requires i < |lines|
    ensures OutsideFrom(lines, blocks, i) ==
      (if InBlocks(blocks, i) then [] else [lines[i]]) + OutsideFrom(lines, blocks, i + 1)
  {
    hide InBlocks;
  }

  lemma {:induction false} OutsideSkipsStretch(lines: seq<string>, blocks: seq<Block>, i: nat, j: nat)
    requires i <= j <= |lines|
    requires forall m :: i <= m < j ==> InBlocks(blocks, m)
    ensures OutsideFrom(lines, blocks, i) == OutsideFrom(lines, blocks, j)
    decreases j - i
  {
    hide InBlocks;
    if i < j {
      OutsideSkipsStretch(lines, blocks, i + 1, j);
    }
  }

  lemma OutsideNone(lines: seq<string>)
    ensures Outside(lines, []) == lines
  {
    OutsideKeepsStretch(lines, [], 0, |lines|);
  }

  lemma OutsideOne(lines: seq<string>, b: Block)
    requires b.start <= b.end < |lines|
    ensures Outside(lines, [b]) == lines[..b.start] + lines[b.end + 1..]
  {
    assert forall m :: b.start <= m <= b.end ==> InBlocks([b], m) by {
      assert [b][0] == b;
    }
    OutsideKeepsStretch(lines, [b], 0, b.start);
    OutsideSkipsStretch(lines, [b], b.start, b.end + 1);
    OutsideKeepsStretch(lines, [b], b.end + 1, |lines|);
  }

  lemma {:induction false} OutsideLinesFrom(lines: seq<string>, blocks: seq<Block>, i: nat)
    requires i <= |lines|
    ensures forall line :: line in OutsideFrom(lines, blocks, i) <==>
      exists m :: i <= m < |lines| && !InBlocks(blocks, m) && lines[m] == line
    decreases |lines| - i
  {
    hide InBlocks;
    if i < |lines| {
      OutsideLinesFrom(lines, blocks, i + 1);
    }
  }

  method FoldManagedBlocks(lines: seq<string>, blocks: seq<Block>, blockLines: seq<string>)
    returns (transformed: seq<string>)
    ensures transformed == Outside(lines, blocks) + blockLines
  {
    transformed := [];
    var index := 0;
    hide InBlocks;
    while index < |lines|
      invariant 0 <= index <= |lines|
      invariant Outside(lines, blocks) == transformed + OutsideFrom(lines, blocks, index)
    {
      if InBlocks(blocks, index) {
        index := index + 1;
        continue;
      }
      assert transformed + ([lines[index]] + OutsideFrom(lines, blocks, index + 1))
          == transformed + [lines[index]] + OutsideFrom(lines, blocks, index + 1);
      transformed := transformed + [lines[index]];
      index := index + 1;
    }
    transformed := transformed + blockLines;
  }

  // ------------------------------------------------------------------
  // Warnings
  // ------------------------------------------------------------------

  function AssignmentKey(line: string): Option<string> {
    var line := TrimStart(line);
    if line == "" || line[0] == '#' then None
    else
      var assignment := if StartsWith(line, "export ") then line[7..] else line;
      if '=' !in assignment then None
      else
        var key := Trim(Split(assignment, '=')[0]);
        if IsEnvKey(key) then Some(key) else None
  }

  ghost predicate Assigned(lines: seq<string>, key: string) {
    exists line :: line in lines && AssignmentKey(line) == Some(key)
  }

  /** The generated keys that some line outside the blocks assigns. */
  ghost function DuplicateKeys(lines: seq<string>, blocks: seq<Block>, rendered: EnvMap): set<string> {
    set k | k in rendered && Assigned(Outside(lines, blocks), k)
  }

  method DuplicateExistingKeyWarnings(lines: seq<string>, blocks: seq<Block>, rendered: EnvMap)
    returns (warnings: seq<string>)
    ensures warnings == Sorted(DuplicateKeys(lines, blocks, rendered))
  {
    hide InBlocks, AssignmentKey, Sorted;
    var duplicates: set<string> := {};
    var index := 0;
    while index < |lines|
      invariant 0 <= index <= |lines|
      invariant forall k :: k in duplicates <==>
        k in rendered && exists m :: 0 <= m < index && !InBlocks(blocks, m) && AssignmentKey(lines[m]) == Some(k)
    {
      if InBlocks(blocks, index) {
        index := index + 1;
        continue;
      }
      var key := AssignmentKey(lines[index]);
      if key.Some? && key.value in rendered {
        duplicates := duplicates + {key.value};
      }
      index := index + 1;
    }
    OutsideLinesFrom(lines, blocks, 0);
    assert duplicates == DuplicateKeys(lines, blocks, rendered) by {
      hide OutsideFrom;
    }
    return Sorted(duplicates);
  }

  // ------------------------------------------------------------------
  // The transform
  // ------------------------------------------------------------------

  function BlockLines(rendered: EnvMap): seq<string> {
    [StartMarker()] + EntryLines(rendered, Sorted(rendered.Keys)) + [EndMarker()]
  }

  function PlaceBlock(lines: seq<string>, blocks: seq<Block>, blockLines: seq<string>): seq<string>
    requires forall b :: b in blocks ==> b.start <= b.end < |lines|
  {
    if |blocks| == 0 then lines + blockLines
    else if |blocks| == 1 then lines[..blocks[0].start] + blockLines + lines[blocks[0].end + 1..]
    else Outside(lines, blocks) + blockLines
  }

  ghost function Transform(existing: string, rendered: EnvMap): Result<Transformed, ConfigError> {
    var lines := SplitEnvLines(existing);
    var blocks := Blocks(lines);
    if blocks.Err? then Err(blocks.error)
    else if rendered == map[] && blocks.value == [] then Ok(Transformed(existing, [], false))
    else
      BlocksDelimit(lines);
      var content := JoinEnvLines(PlaceBlock(lines, blocks.value, BlockLines(rendered)));
      Ok(Transformed(content, Sorted(DuplicateKeys(lines, blocks.value, rendered)), content != existing))
  }

  method TransformManagedEnvBlock(existing: Option<string>, rendered: EnvMap)
    returns (r: Result<Transformed, ConfigError>)
    ensures r == Transform(if existing.Some? then existing.value else "", rendered)
  {
    hide Sorted, EntryLines, BlocksFrom, SplitEnvLines, JoinEnvLines, DuplicateKeys, OutsideFrom;
    var existingContent := if existing.Some? then existing.value else "";
    var lines := SplitEnvLines(existingContent);
    var found := ManagedBlocks(lines);
    if found.Err? {
      return Err(found.error);
    }
    var blocks := found.value;
    if rendered == map[] && blocks == [] {
      return Ok(Transformed(existingContent, [], false));
    }
    BlocksDelimit(lines);
    var warnings := DuplicateExistingKeyWarnings(lines, blocks, rendered);
    var blockLines := BlockLines(rendered);
    var transformed;
    if |blocks| == 0 {
      transformed := lines + blockLines;
    } else if |blocks| == 1 {
      transformed := lines[..blocks[0].start] + blockLines + lines[blocks[0].end + 1..];
    } else {
      transformed := FoldManagedBlocks(lines, blocks, blockLines);
    }
    var content := JoinEnvLines(transformed);
    return Ok(Transformed(content, warnings, content != existingContent));
  }

  // ------------------------------------------------------------------
  // One block, user lines kept, idempotence
  // ------------------------------------------------------------------

  ghost predicate NoMarkers(lines: seq<string>) {
    forall i :: 0 <= i < |lines| ==> !IsMarker(lines[i])
  }

  ghost predicate OneLineKeys(rendered: EnvMap) {
    forall k :: k in rendered ==> '\n' !in k
  }

  ghost predicate FramedBlock(block: seq<string>) {
    && |block| >= 2
    && block[0] == StartMarker() && block[|block| - 1] == EndMarker()
    && NoMarkers(block[1..|block| - 1])
  }

  lemma EntryLineFacts(rendered: EnvMap, keys: seq<string>)
    requires OneLineKeys(rendered) && forall k :: k in keys ==> k in rendered
    ensures PhysicalLines(EntryLines(rendered, keys)) && NoMarkers(EntryLines(rendered, keys))
  {
    EntryLinesPhysical(rendered, keys);
    var entries := EntryLines(rendered, keys);
    hide EntryLines;
    assert '=' !in StartMarker() && '=' !in EndMarker();
    assert forall i :: 0 <= i < |entries| ==> '=' in entries[i] && !IsMarker(entries[i]);
  }

  lemma MarkersPhysical()
    ensures PhysicalLine(StartMarker()) && PhysicalLine(EndMarker())
  {
  }

  lemma BlockLinesPhysical(rendered: EnvMap)
    requires OneLineKeys(rendered)
    ensures PhysicalLines(BlockLines(rendered)) && FramedBlock(BlockLines(rendered))
  {
    hide EntryLines, Sorted, IsMarker, PhysicalLine, StartMarker, EndMarker, Formatted, EntryLine;
    var keys := Sorted(rendered.Keys);
    EntryLineFacts(rendered, keys);
    MarkersPhysical();
    var entries, block := EntryLines(rendered, keys), BlockLines(rendered);
    assert block[1..|block| - 1] == entries;
  }

  /** Lines without markers around one block: the scan finds that block and no other. */
  lemma OneBlockFound(before: seq<string>, block: seq<string>, after: seq<string>)
    requires NoMarkers(before) && NoMarkers(after)
    requires FramedBlock(block)
    ensures Blocks(before + block + after) == Ok([Block(|before|, |before| + |block| - 1)])
  {
    var lines := before + block + after;
    var start, end := |before|, |before| + |block| - 1;
    assert lines[start] == block[0] && lines[end] == block[|block| - 1];
    forall m | 0 <= m < |lines| && m != start && m != end ensures !IsMarker(lines[m]) {
      if start < m < end {
        assert lines[m] == block[1..|block| - 1][m - start - 1];
      } else if m > end {
        assert lines[m] == after[m - end - 1];
      }
    }
    NoMarkersNoBlocks(lines, 0, None, start);
    NoMarkersNoBlocks(lines, start + 1, Some(start), end);
    NoMarkersNoBlocks(lines, end + 1, None, |lines|);
    assert StartMarker()[2] != EndMarker()[2];
    assert [Block(start, end)] + [] == [Block(start, end)];
    assert BlocksFrom(lines, start, None) == BlocksFrom(lines, start + 1, Some(start));
    assert BlocksFrom(lines, end, Some(start)) == FirstBlock(Block(start, end), BlocksFrom(lines, end + 1, None));
  }

  lemma OutsideHasNoMarkers(lines: seq<string>, blocks: seq<Block>)
    requires Delimits(lines, blocks, 0)
    ensures NoMarkers(Outside(lines, blocks))
  {
    hide OutsideFrom, IsMarker, InBlocks;
    OutsideLinesFrom(lines, blocks, 0);
    forall m | 0 <= m < |lines| && IsMarker(lines[m]) ensures InBlocks(blocks, m) {
      MarkerInBlocks(lines, blocks, m);
    }
    var outside := Outside(lines, blocks);
    forall i | 0 <= i < |outside| ensures !IsMarker(outside[i]) {
      assert outside[i] in outside;
    }
  }

  lemma MarkerInBlocks(lines: seq<string>, blocks: seq<Block>, m: nat)
    requires Delimits(lines, blocks, 0) && m < |lines| && IsMarker(lines[m])
    ensures InBlocks(blocks, m)
  {
    var b :| b in blocks && (m == b.start || m == b.end);
    var k :| 0 <= k < |blocks| && blocks[k] == b;
  }

  lemma PhysicalOutside(lines: seq<string>, blocks: seq<Block>)
    requires PhysicalLines(lines)
    ensures PhysicalLines(Outside(lines, blocks))
  {
    OutsideLinesFrom(lines, blocks, 0);
    var outside := Outside(lines, blocks);
    hide OutsideFrom, PhysicalLine, InBlocks;
    forall i | 0 <= i < |outside| ensures PhysicalLine(outside[i]) {
      assert outside[i] in outside;
    }
  }

  /** Wherever the block goes, the user's lines stand before and after it, in order. */
  lemma PlacedAround(lines: seq<string>, blocks: seq<Block>, blockLines: seq<string>)
    returns (before: seq<string>, after: seq<string>)
    requires Blocks(lines) == Ok(blocks) && PhysicalLines(lines)
    requires forall b :: b in blocks ==> b.start <= b.end < |lines|
    ensures PlaceBlock(lines, blocks, blockLines) == before + blockLines + after
    ensures before + after == Outside(lines, blocks)
    ensures NoMarkers(before) && NoMarkers(after)
    ensures PhysicalLines(before) && PhysicalLines(after)
    ensures if |blocks| == 1 then |before| == blocks[0].start else after == []
  {
    hide NoMarkers, PhysicalLines, Delimits, Blocks, Outside;
    BlocksDelimit(lines);
    OutsideHasNoMarkers(lines, blocks);
    PhysicalOutside(lines, blocks);
    if |blocks| == 1 {
      OutsideOne(lines, blocks[0]);
      before, after := lines[..blocks[0].start], lines[blocks[0].end + 1..];
      assert blocks == [blocks[0]];
      PartsAlike(before, after);
    } else {
      before, after := Outside(lines, blocks), [];
      if |blocks| == 0 {
        assert blocks == [];
        OutsideNone(lines);
      }
      assert before + blockLines + [] == before + blockLines && before + [] == before;
      PartsAlike(before, after);
    }
  }

  lemma PartsAlike(before: seq<string>, after: seq<string>)
    requires NoMarkers(before + after) && PhysicalLines(before + after)
    ensures NoMarkers(before) && NoMarkers(after) && PhysicalLines(before) && PhysicalLines(after)
  {
    hide IsMarker, PhysicalLine;
    var all := before + after;
    forall i | 0 <= i < |before| ensures !IsMarker(before[i]) && PhysicalLine(before[i]) {
      assert before[i] == all[i];
    }
    forall i | 0 <= i < |after| ensures !IsMarker(after[i]) && PhysicalLine(after[i]) {
      assert after[i] == all[|before| + i];
    }
  }

  lemma WholePhysical(a: seq<string>, b: seq<string>, c: seq<string>)
    requires PhysicalLines(a) && PhysicalLines(b) && PhysicalLines(c)
    ensures PhysicalLines(a + b + c)
  {
    hide PhysicalLine;
  }

  lemma BlocksInRange(lines: seq<string>)
    requires Blocks(lines).Ok?
    ensures forall b :: b in Blocks(lines).value ==> b.start <= b.end < |lines|
  {
    BlocksDelimit(lines);
    hide Blocks;
  }

  lemma FramedSize(block: seq<string>)
    requires FramedBlock(block)
    ensures |block| >= 2
  {
  }

  /** What a rewrite writes, read back: the block between the user's lines. */
  lemma WrittenBlock(existing: string, rendered: EnvMap) returns (result: seq<string>, b: Block)
    requires OneLineKeys(rendered)
    requires Blocks(SplitEnvLines(existing)).Ok?
    requires !(rendered == map[] && Blocks(SplitEnvLines(existing)) == Ok([]))
    ensures var lines, block := SplitEnvLines(existing), BlockLines(rendered);
      && Transform(existing, rendered).Ok?
      && SplitEnvLines(Transform(existing, rendered).value.content) == result
      && JoinEnvLines(result) == Transform(existing, rendered).value.content
      && Blocks(result) == Ok([b])
      && b.start <= b.end < |result|
      && result[b.start..b.end + 1] == block
      && result == result[..b.start] + block + result[b.end + 1..]
      && Outside(result, [b]) == Outside(lines, Blocks(lines).value)
      && (if |Blocks(lines).value| == 1 then b.start == Blocks(lines).value[0].start else b.end + 1 == |result|)
  {
    hide BlockLines, FramedBlock, NoMarkers, PhysicalLines, Blocks, Outside, SplitEnvLines, JoinEnvLines, Sorted,
      PlaceBlock, DuplicateKeys;
    var lines := SplitEnvLines(existing);
    var blocks := Blocks(lines).value;
    var block := BlockLines(rendered);
    BlocksInRange(lines);
    SplitEnvLinesPhysical(existing);
    BlockLinesPhysical(rendered);
    FramedSize(block);
    var before, after := PlacedAround(lines, blocks, block);
    result := before + block + after;
    b := Block(|before|, |before| + |block| - 1);
    OneBlockFound(before, block, after);
    SlicesAround(before, block, after);
    WholePhysical(before, block, after);
    SplitJoinEnvLines(result);
    OutsideOne(result, b);
  }

  lemma SlicesAround(before: seq<string>, block: seq<string>, after: seq<string>)
    requires FramedBlock(block) && PhysicalLines(before) && PhysicalLines(block) && PhysicalLines(after)
    ensures var all, end := before + block + after, |before| + |block|;
      && |before| < end <= |all|
      && all[..|before|] == before && all[|before|..end] == block && all[end..] == after
      && PhysicalLines(all)
  {
    hide PhysicalLine, IsMarker;
  }

  /** Rewriting keeps user text: unless there is nothing to write and no block, the result
      has exactly one block, it holds the rendered environment, and the lines outside it
      are the lines that were outside the old blocks, in order. A single old block is
      replaced where it stood; otherwise the block comes last. */
  lemma TransformKeepsUserText(existing: string, rendered: EnvMap)
    requires OneLineKeys(rendered)
    requires Transform(existing, rendered).Ok?
    ensures var lines := SplitEnvLines(existing);
      var result := SplitEnvLines(Transform(existing, rendered).value.content);
      if rendered == map[] && Blocks(lines) == Ok([]) then Transform(existing, rendered).value.content == existing
      else
        && Blocks(result).Ok? && |Blocks(result).value| == 1
        && var b := Blocks(result).value[0];
        && b.start <= b.end < |result|
        && result[b.start..b.end + 1] == BlockLines(rendered)
        && Outside(result, [b]) == Outside(lines, Blocks(lines).value)
        && (if |Blocks(lines).value| == 1 then b.start == Blocks(lines).value[0].start else b.end + 1 == |result|)
  {
    hide SplitEnvLines, JoinEnvLines, PlaceBlock, BlockLines, Sorted, DuplicateKeys, BlocksFrom, OutsideFrom;
    if !(rendered == map[] && Blocks(SplitEnvLines(existing)) == Ok([])) {
      var result, b := WrittenBlock(existing, rendered);
    }
  }

  // ------------------------------------------------------------------
  // The user's text, byte for byte
  // ------------------------------------------------------------------

  /** The lines as they stand in the text, carriage returns included. */
  function RawLines(text: string): seq<string> {
    if text == "" then []
    else
      var parts := Split(text, '\n');
      if EndsWith(text, '\n') then parts[..|parts| - 1] else parts
  }

  /** The text of the lines from i on that are outside blocks; `ended` tells whether the
      last line has its newline. */
  function UserTextFrom(raw: seq<string>, ended: bool, blocks: seq<Block>, i: nat): string
    requires i <= |raw|
    decreases |raw| - i
  {
    if i == |raw| then ""
    else if InBlocks(blocks, i) then UserTextFrom(raw, ended, blocks, i + 1)
    else raw[i] + (if i + 1 < |raw| || ended then "\n" else "") + UserTextFrom(raw, ended, blocks, i + 1)
  }

  function UserText(text: string, blocks: seq<Block>): string {
    UserTextFrom(RawLines(text), EndsWith(text, '\n'), blocks, 0)
  }

  /** Lines written out. */
  function Lined(lines: seq<string>): string {
    if lines == [] then "" else lines[0] + "\n" + Lined(lines[1..])
  }

  /** No line outside blocks, from i on, ends in a carriage return or lacks its newline. */
  predicate CleanFrom(raw: seq<string>, ended: bool, blocks: seq<Block>, i: nat)
    requires i <= |raw|
  {
    && (forall m :: i <= m < |raw| && !InBlocks(blocks, m) ==> !EndsWith(raw[m], '\r'))
    && (i < |raw| && !InBlocks(blocks, |raw| - 1) ==> ended)
  }

  lemma {:induction false} TrimEndReturnsCuts(line: string)
    ensures TrimEndReturns(line) <= line
    ensures !EndsWith(line, '\r') ==> TrimEndReturns(line) == line
    ensures EndsWith(line, '\r') ==> |TrimEndReturns(line)| < |line| && line[|TrimEndReturns(line)|] == '\r'
  {
    if EndsWith(line, '\r') {
      TrimEndReturnsCuts(line[..|line| - 1]);
    }
  }

  lemma {:induction false} TrimAllAt(parts: seq<string>, i: nat)
    requires i < |parts|
    ensures |TrimAllReturns(parts)| == |parts| && TrimAllReturns(parts)[i] == TrimEndReturns(parts[i])
  {
    TrimAllLength(parts);
    if i > 0 {
      TrimAllAt(parts[1..], i - 1);
    }
  }

  lemma {:induction false} TrimAllLength(parts: seq<string>)
    ensures |TrimAllReturns(parts)| == |parts|
  {
    if parts != [] {
      TrimAllLength(parts[1..]);
    }
  }

  lemma SplitEnvLinesRaw(text: string)
    ensures |SplitEnvLines(text)| == |RawLines(text)|
    ensures forall i :: 0 <= i < |RawLines(text)| ==> SplitEnvLines(text)[i] == TrimEndReturns(RawLines(text)[i])
  {
    hide Split, TrimEndReturns, TrimAllReturns;
    var parts := Split(text, '\n');
    TrimAllLength(parts);
    forall i | 0 <= i < |parts| ensures TrimAllReturns(parts)[i] == TrimEndReturns(parts[i]) {
      TrimAllAt(parts, i);
    }
  }

  lemma {:induction false} UserTextExactFrom(lines: seq<string>, raw: seq<string>, ended: bool, blocks: seq<Block>,
                                             i: nat)
    requires i <= |raw| == |lines| && forall m :: 0 <= m < |raw| ==> lines[m] == TrimEndReturns(raw[m])
    ensures Lined(OutsideFrom(lines, blocks, i)) == UserTextFrom(raw, ended, blocks, i) <==>
      CleanFrom(raw, ended, blocks, i)
    decreases |raw| - i
  {
    hide InBlocks, TrimEndReturns, CleanFrom, OutsideFrom, UserTextFrom, EndsWith;
    if i < |raw| {
      UserTextExactFrom(lines, raw, ended, blocks, i + 1);
      OutsideStep(lines, blocks, i);
      UserTextStep(raw, ended, blocks, i);
      CleanStep(raw, ended, blocks, i);
      var rest := OutsideFrom(lines, blocks, i + 1);
      if i + 1 == |raw| {
        UserTextEnd(lines, raw, ended, blocks);
      }
      if InBlocks(blocks, i) {
        assert [] + rest == rest;
        assert "" + UserTextFrom(raw, ended, blocks, i + 1) == UserTextFrom(raw, ended, blocks, i + 1);
      } else {
        TrimEndReturnsCuts(raw[i]);
        LinedConcat([lines[i]], rest);
        LinedOne(lines[i]);
        LineExact(raw[i], lines[i], i + 1 < |raw| || ended, Lined(rest), UserTextFrom(raw, ended, blocks, i + 1));
      }
    } else {
      UserTextEnd(lines, raw, ended, blocks);
    }
  }

  lemma UserTextEnd(lines: seq<string>, raw: seq<string>, ended: bool, blocks: seq<Block>)
    requires |raw| == |lines|
    ensures OutsideFrom(lines, blocks, |raw|) == [] && UserTextFrom(raw, ended, blocks, |raw|) == ""
    ensures CleanFrom(raw, ended, blocks, |raw|) && Lined([]) == ""
  {
  }

  lemma LinedOne(line: string)
    ensures Lined([line]) == line + "\n"
  {
    assert [line][1..] == [];
  }

  lemma UserTextStep(raw: seq<string>, ended: bool, blocks: seq<Block>, i: nat)
    requires i < |raw|
    ensures UserTextFrom(raw, ended, blocks, i) ==
      (if InBlocks(blocks, i) then "" else raw[i] + (if i + 1 < |raw| || ended then "\n" else ""))
        + UserTextFrom(raw, ended, blocks, i + 1)
    ensures i + 1 == |raw| ==> UserTextFrom(raw, ended, blocks, i + 1) == ""
  {
    hide InBlocks;
  }

  lemma CleanStep(raw: seq<string>, ended: bool, blocks: seq<Block>, i: nat)
    requires i < |raw|
    ensures CleanFrom(raw, ended, blocks, i) <==>
      && CleanFrom(raw, ended, blocks, i + 1)
      && (!InBlocks(blocks, i) ==> !EndsWith(raw[i], '\r') && (i + 1 < |raw| || ended))
  {
    hide InBlocks, EndsWith;
  }

  /** Two texts that begin with a line and its trimmed form agree only if nothing was cut. */
  lemma LineExact(raw: string, trimmed: string, newline: bool, linedRest: string, userRest: string)
    requires trimmed <= raw && (trimmed != raw ==> raw[|trimmed|] == '\r')
    requires !newline ==> linedRest == "" && userRest == ""
    ensures trimmed + "\n" + linedRest == raw + (if newline then "\n" else "") + userRest <==>
      trimmed == raw && newline && linedRest == userRest
  {
    var lined, user := trimmed + "\n" + linedRest, raw + (if newline then "\n" else "") + userRest;
    if trimmed != raw {
      assert lined[|trimmed|] == '\n' && user[|trimmed|] == '\r';
    } else if newline {
      assert lined[|raw| + 1..] == linedRest && user[|raw| + 1..] == userRest;
    } else {
      assert |lined| == |user| + 1;
    }
  }

  lemma {:induction false} LinedJoin(lines: seq<string>)
    ensures JoinEnvLines(lines) == Lined(lines)
  {
    if |lines| > 1 {
      LinedJoin(lines[1..]);
    } else if |lines| == 1 {
      assert lines[1..] == [];
    }
  }

  lemma {:induction false} LinedConcat(a: seq<string>, b: seq<string>)
    ensures Lined(a + b) == Lined(a) + Lined(b)
  {
    if a == [] {
      assert a + b == b;
    } else {
      assert (a + b)[1..] == a[1..] + b;
      LinedConcat(a[1..], b);
    }
  }

  /** What stands around the block in the result is the user's text byte for byte exactly when
      no line outside the old blocks ends in a carriage return and, if the last line is the
      user's, the text ends with a newline. */
  lemma UserTextExact(existing: string, rendered: EnvMap) returns (head: string, tail: string)
    requires OneLineKeys(rendered)
    requires Transform(existing, rendered).Ok?
    requires !(rendered == map[] && Blocks(SplitEnvLines(existing)) == Ok([]))
    ensures Transform(existing, rendered).value.content == head + Lined(BlockLines(rendered)) + tail
    ensures head + tail == UserText(existing, Blocks(SplitEnvLines(existing)).value) <==>
      CleanFrom(RawLines(existing), EndsWith(existing, '\n'), Blocks(SplitEnvLines(existing)).value, 0)
  {
    hide BlockLines, Blocks, OutsideFrom, SplitEnvLines, JoinEnvLines, UserTextFrom, CleanFrom, RawLines, Lined,
      EndsWith, PlaceBlock, DuplicateKeys;
    var lines := SplitEnvLines(existing);
    var blocks := Blocks(lines).value;
    var result, b := WrittenBlock(existing, rendered);
    var before, after := result[..b.start], result[b.end + 1..];
    OutsideOne(result, b);
    head, tail := Lined(before), Lined(after);
    LinedJoin(result);
    LinedConcat(before + BlockLines(rendered), after);
    LinedConcat(before, BlockLines(rendered));
    LinedConcat(before, after);
    SplitEnvLinesRaw(existing);
    UserTextExactFrom(lines, RawLines(existing), EndsWith(existing, '\n'), blocks, 0);
  }

  /** The line `A=1` of a text with both line ends loses its carriage return. */
  lemma ReturnTrimmed(rendered: EnvMap)
    requires rendered != map[]
    ensures Transform("A=1\r\n", rendered).Ok?
    ensures Transform("A=1\r\n", rendered).value.content == "A=1\n" + Lined(BlockLines(rendered))
  {
    hide BlockLines, DuplicateKeys, SplitEnvLines;
    OneTrimmed();
    var lines := ["A=1"];
    assert lines[0][0] == 'A' && StartMarker()[0] == '#' && EndMarker()[0] == '#';
    assert Blocks(lines) == Ok([]);
    LinedJoin(lines + BlockLines(rendered));
    LinedConcat(lines, BlockLines(rendered));
    LinedOne("A=1");
  }

  lemma OneTrimmed()
    ensures SplitEnvLines("A=1\r\n") == ["A=1"]
  {
    hide Split, TrimEndReturns, TrimAllReturns;
    OneSplit();
    OneTrim();
    var parts := ["A=1\r", ""];
    TrimAllAt(parts, 0);
    TrimAllAt(parts, 1);
    assert TrimAllReturns(parts)[..1] == ["A=1"];
  }

  lemma OneSplit()
    ensures Split("A=1\r\n", '\n') == ["A=1\r", ""]
  {
    hide Split;
    SplitConcat("A=1\r", '\n', "");
    SplitFree("A=1\r", '\n');
    SplitFree("", '\n');
    assert "A=1\r" + ['\n'] + "" == "A=1\r\n";
  }

  lemma OneTrim()
    ensures TrimEndReturns("A=1\r") == "A=1"
  {
    assert "A=1\r"[..3] == "A=1";
  }

  /** Rewriting is idempotent: applied to its own output with the same environment it
      returns the same text, the same warnings, and reports no change. */
  lemma TransformIdempotent(existing: string, rendered: EnvMap)
    requires OneLineKeys(rendered)
    requires Transform(existing, rendered).Ok?
    ensures var once := Transform(existing, rendered).value;
      Transform(once.content, rendered) == Ok(Transformed(once.content, once.warnings, false))
  {
    hide SplitEnvLines, JoinEnvLines, BlockLines, Sorted, BlocksFrom, OutsideFrom;
    if !(rendered == map[] && Blocks(SplitEnvLines(existing)) == Ok([])) {
      var result, b := WrittenBlock(existing, rendered);
      assert PlaceBlock(result, [b], BlockLines(rendered)) == result;
    }
  }
}
