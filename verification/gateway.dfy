/** The gateway's configuration: which fragments are planned, how the candidate tree is
    written, and how promotion, start-up, commit and rollback fit together. */
module Gateway {
  import opened Text
  import opened Promotion

  /** `rendered` is what rendering the route's fragment comes to. */
  datatype Route = Route(id: string, renderConfig: bool, rendered: Result<string, ConfigError>)

  datatype Fragment = Fragment(projectId: string, fileName: string, content: string)

  const EMPTY_MARKER := ".pv-empty"

  function FileName(id: string): string {
    id + ".Caddyfile"
  }

  // ------------------------------------------------------------------
  // Planning
  // ------------------------------------------------------------------

  /** A route's fragment: rendered, or preserved from the active directory. */
  function Content(route: Route, active: Fragments): Option<string> {
    if !route.renderConfig then At(active, FileName(route.id))
    else if route.rendered.Ok? then Some(route.rendered.value)
    else None
  }

  function Planned(routes: seq<Route>, active: Fragments): seq<Fragment> {
    if routes == [] then []
    else
      var last := routes[|routes| - 1];
      var content := Content(last, active);
      Planned(routes[..|routes| - 1], active) +
      if content.Some? then [Fragment(last.id, FileName(last.id), content.value)] else []
  }

  /** The directory after the fragments are written over what is there. */
  function Overlay(base: Fragments, fragments: seq<Fragment>): Fragments {
    if fragments == [] then base
    else
      var last := fragments[|fragments| - 1];
      Overlay(base, fragments[..|fragments| - 1])[last.fileName := last.content]
  }

  function WrittenDir(base: Fragments, fragments: seq<Fragment>): Fragments {
    if fragments == [] then base - {EMPTY_MARKER} else Overlay(base, fragments)
  }

  lemma FileNameInjective(a: string, b: string)
    requires FileName(a) == FileName(b)
    ensures a == b
  {
    assert a == FileName(a)[..|FileName(a)| - |".Caddyfile"|];
    assert b == FileName(b)[..|FileName(b)| - |".Caddyfile"|];
  }

  predicate IsPlanned(routes: seq<Route>, active: Fragments, name: string) {
    exists i :: 0 <= i < |routes| && FileName(routes[i].id) == name && Content(routes[i], active).Some?
  }

  lemma PlannedSnoc(routes: seq<Route>, active: Fragments, name: string)
    requires routes != []
    ensures IsPlanned(routes, active, name) <==>
      || IsPlanned(routes[..|routes| - 1], active, name)
      || (FileName(routes[|routes| - 1].id) == name && Content(routes[|routes| - 1], active).Some?)
  {
    hide Content, FileName;
    var n := |routes| - 1;
    if i :| 0 <= i < |routes| && FileName(routes[i].id) == name && Content(routes[i], active).Some? {
      assert i < n ==> routes[..n][i] == routes[i];
    }
    if i :| 0 <= i < n && FileName(routes[..n][i].id) == name && Content(routes[..n][i], active).Some? {
      assert routes[i] == routes[..n][i];
    }
  }

  /** A name that is not planned keeps what the candidate directory held under it. */
  lemma {:induction false} UnplannedKept(routes: seq<Route>, active: Fragments, base: Fragments, name: string)
    requires !IsPlanned(routes, active, name)
    ensures At(Overlay(base, Planned(routes, active)), name) == At(base, name)
    decreases |routes|
  {
    hide Content, FileName, IsPlanned;
    if routes != [] {
      PlannedSnoc(routes, active, name);
      OverlayLast(routes, active, base);
      hide Overlay, Planned;
      UnplannedKept(routes[..|routes| - 1], active, base, name);
    }
  }

  /** A planned fragment is written byte for byte as it was rendered or as it was active; of
      routes with one id the last decides. */
  lemma {:induction false} PlannedWritten(routes: seq<Route>, active: Fragments, base: Fragments, i: nat)
    requires i < |routes| && Content(routes[i], active).Some?
    requires forall j :: i < j < |routes| && Content(routes[j], active).Some? ==> routes[j].id != routes[i].id
    ensures At(Overlay(base, Planned(routes, active)), FileName(routes[i].id)) == Content(routes[i], active)
    decreases |routes|
  {
    hide Content, FileName, Overlay, Planned;
    var n := |routes| - 1;
    OverlayLast(routes, active, base);
    if i < n {
      if FileName(routes[i].id) == FileName(routes[n].id) {
        FileNameInjective(routes[i].id, routes[n].id);
      }
      PlannedWritten(routes[..n], active, base, i);
    }
  }

  lemma {:induction false} NothingPlanned(routes: seq<Route>, active: Fragments, name: string)
    requires Planned(routes, active) == []
    ensures !IsPlanned(routes, active, name)
    decreases |routes|
  {
    hide Content, FileName;
    if routes != [] {
      OverlayLast(routes, active, map[]);
      NothingPlanned(routes[..|routes| - 1], active, name);
      PlannedSnoc(routes, active, name);
    }
  }

  /** Exactly the planned fragments end up in the directory, if and only if whatever the
      candidate directory held is overwritten by them. */
  lemma ExactFragments(routes: seq<Route>, active: Fragments, stale: Fragments)
    ensures (forall name :: name in WrittenDir(stale, Planned(routes, active)) <==>
      IsPlanned(routes, active, name)) <==>
      forall name :: name in stale ==>
        IsPlanned(routes, active, name) || (name == EMPTY_MARKER && Planned(routes, active) == [])
  {
    hide *;
    forall name {
      WrittenNames(routes, active, stale, name);
    }
  }

  lemma WrittenNames(routes: seq<Route>, active: Fragments, stale: Fragments, name: string)
    ensures name in WrittenDir(stale, Planned(routes, active)) <==>
      || IsPlanned(routes, active, name)
      || (name in stale && (name == EMPTY_MARKER ==> Planned(routes, active) != []))
  {
    hide Content, FileName, IsPlanned, Planned, Overlay;
    if Planned(routes, active) == [] {
      NothingPlanned(routes, active, name);
    } else if IsPlanned(routes, active, name) {
      PlannedPresent(routes, active, stale, name);
    } else {
      UnplannedKept(routes, active, stale, name);
    }
  }

  lemma {:induction false} PlannedPresent(routes: seq<Route>, active: Fragments, base: Fragments, name: string)
    requires IsPlanned(routes, active, name)
    ensures name in Overlay(base, Planned(routes, active))
    decreases |routes|
  {
    hide Content, FileName, Overlay, Planned;
    assert routes != [];
    OverlayLast(routes, active, base);
    PlannedSnoc(routes, active, name);
    hide IsPlanned;
    if IsPlanned(routes[..|routes| - 1], active, name) {
      PlannedPresent(routes[..|routes| - 1], active, base, name);
    }
  }

  lemma OverlayLast(routes: seq<Route>, active: Fragments, base: Fragments)
    requires routes != []
    ensures Overlay(base, Planned(routes, active)) ==
      var before := Overlay(base, Planned(routes[..|routes| - 1], active));
      var last := routes[|routes| - 1];
      if Content(last, active).Some? then before[FileName(last.id) := Content(last, active).value] else before
    ensures Planned(routes, active) == [] <==>
      Planned(routes[..|routes| - 1], active) == [] && Content(routes[|routes| - 1], active).None?
  {
    hide Content, FileName;
    var last := routes[|routes| - 1];
    var earlier := Planned(routes[..|routes| - 1], active);
    if Content(last, active).Some? {
      var f := Fragment(last.id, FileName(last.id), Content(last, active).value);
      assert Planned(routes, active) == earlier + [f];
      assert (earlier + [f])[..|earlier|] == earlier;
    } else {
      assert Planned(routes, active) == earlier;
    }
  }

  // ------------------------------------------------------------------
  // The new tree, route by route
  // ------------------------------------------------------------------

  /** A route that is rendered, or whose file is among the active fragments. */
  predicate HasFragment(route: Route, active: Fragments) {
    route.renderConfig || route.id + ".Caddyfile" in active
  }

  /** The last of the routes with its id that has a fragment. */
  predicate Decides(routes: seq<Route>, active: Fragments, i: int) {
    && 0 <= i < |routes| && HasFragment(routes[i], active)
    && forall j :: i < j < |routes| && routes[j].id == routes[i].id ==> !HasFragment(routes[j], active)
  }

  /** A rendered route has what it rendered, one that is not has the very text it had, and under
      any other name there is what the candidate directory held, a lone marker apart. */
  ghost predicate NewTree(routes: seq<Route>, active: Fragments, stale: Fragments, fragments: Fragments) {
    && (forall i :: Decides(routes, active, i) ==>
          var name := routes[i].id + ".Caddyfile";
          && name in fragments
          && (if routes[i].renderConfig then routes[i].rendered == Ok(fragments[name])
              else fragments[name] == active[name]))
    && (forall name :: (forall i :: 0 <= i < |routes| && HasFragment(routes[i], active) ==>
                          name != routes[i].id + ".Caddyfile") ==>
          At(fragments, name) ==
            if name == ".pv-empty" && !AnyFragment(routes, active) then None else At(stale, name))
  }

  lemma ContentExact(route: Route, active: Fragments)
    requires route.renderConfig ==> route.rendered.Ok?
    ensures Content(route, active).Some? <==> HasFragment(route, active)
    ensures HasFragment(route, active) && !route.renderConfig ==> FileName(route.id) in active
    ensures Content(route, active).Some? ==>
      (if route.renderConfig then route.rendered == Ok(Content(route, active).value)
       else Content(route, active).value == active[route.id + ".Caddyfile"])
  {
  }

  predicate AnyFragment(routes: seq<Route>, active: Fragments) {
    exists i :: 0 <= i < |routes| && HasFragment(routes[i], active)
  }

  lemma AnySnoc(routes: seq<Route>, active: Fragments)
    requires routes != []
    ensures AnyFragment(routes, active) <==>
      AnyFragment(routes[..|routes| - 1], active) || HasFragment(routes[|routes| - 1], active)
  {
    hide HasFragment;
    var n := |routes| - 1;
    if i :| 0 <= i < n && HasFragment(routes[..n][i], active) {
      assert HasFragment(routes[i], active);
    }
    if i :| 0 <= i < |routes| && HasFragment(routes[i], active) {
      assert i < n ==> HasFragment(routes[..n][i], active);
    }
  }

  lemma {:induction false} SomethingPlanned(routes: seq<Route>, active: Fragments)
    requires forall i :: 0 <= i < |routes| && routes[i].renderConfig ==> routes[i].rendered.Ok?
    ensures Planned(routes, active) != [] <==> AnyFragment(routes, active)
    decreases |routes|
  {
    if routes != [] {
      ContentExact(routes[|routes| - 1], active);
      hide Content, HasFragment, FileName, AnyFragment, Overlay, Planned;
      SomethingPlanned(routes[..|routes| - 1], active);
      OverlayLast(routes, active, map[]);
      AnySnoc(routes, active);
    }
  }

  /** The fragment of a route: its id, its file name, and what it rendered or had. */
  predicate IsFragmentOf(f: Fragment, route: Route, active: Fragments) {
    && HasFragment(route, active)
    && f.projectId == route.id && f.fileName == route.id + ".Caddyfile"
    && (if route.renderConfig then route.rendered == Ok(f.content) else f.content == active[route.id + ".Caddyfile"])
  }

  /** The planned fragments are those of the routes that have one. */
  lemma {:induction false} PlannedExact(routes: seq<Route>, active: Fragments, f: Fragment)
    requires forall i :: 0 <= i < |routes| && routes[i].renderConfig ==> routes[i].rendered.Ok?
    ensures f in Planned(routes, active) <==> exists i :: 0 <= i < |routes| && IsFragmentOf(f, routes[i], active)
    decreases |routes|
  {
    if routes != [] {
      var n := |routes| - 1;
      var last := routes[n];
      ContentExact(last, active);
      var own := if Content(last, active).Some? then [Fragment(last.id, FileName(last.id), Content(last, active).value)]
                 else [];
      assert f in own <==> IsFragmentOf(f, last, active);
      assert Planned(routes, active) == Planned(routes[..n], active) + own;
      hide Content, HasFragment, FileName, Planned, IsFragmentOf;
      PlannedExact(routes[..n], active, f);
      if i :| 0 <= i < n && IsFragmentOf(f, routes[..n][i], active) {
        assert IsFragmentOf(f, routes[i], active);
      }
      if i :| 0 <= i < |routes| && IsFragmentOf(f, routes[i], active) {
        assert i < n ==> IsFragmentOf(f, routes[..n][i], active);
      }
    }
  }

  /** The planned fragments over what the candidate directory holds are that tree. */
  lemma PlannedTree(routes: seq<Route>, active: Fragments, stale: Fragments)
    requires forall i :: 0 <= i < |routes| && routes[i].renderConfig ==> routes[i].rendered.Ok?
    ensures NewTree(routes, active, stale, WrittenDir(stale, Planned(routes, active)))
  {
    hide Content, HasFragment, Planned, Overlay;
    var fragments := WrittenDir(stale, Planned(routes, active));
    SomethingPlanned(routes, active);
    forall i ensures 0 <= i < |routes| ==> (Content(routes[i], active).Some? <==> HasFragment(routes[i], active)) {
      if 0 <= i < |routes| {
        ContentExact(routes[i], active);
      }
    }
    forall i | Decides(routes, active, i)
      ensures At(fragments, FileName(routes[i].id)) == Content(routes[i], active) && Content(routes[i], active).Some?
      ensures !routes[i].renderConfig ==> FileName(routes[i].id) in active
      ensures Content(routes[i], active).value ==
        if routes[i].renderConfig then routes[i].rendered.value else active[FileName(routes[i].id)]
    {
      ContentExact(routes[i], active);
      PlannedWritten(routes, active, stale, i);
    }
    forall name |
      forall i :: 0 <= i < |routes| && HasFragment(routes[i], active) ==> name != routes[i].id + ".Caddyfile"
      ensures At(fragments, name) ==
        if name == ".pv-empty" && !AnyFragment(routes, active) then None else At(stale, name)
    {
      UnplannedKept(routes, active, stale, name);
    }
  }

  // ------------------------------------------------------------------
  // Writing and promoting
  // ------------------------------------------------------------------

  /** Every fragment can be had: rendered ones render, preserved ones can be read. */
  predicate FragmentsFine(routes: seq<Route>, faults: Faults) {
    forall i :: 0 <= i < |routes| ==>
      if routes[i].renderConfig then routes[i].rendered.Ok? else Fine(faults, ReadFragment(i))
  }

  method GatewayProjectConfigFragments(store: ConfigStore, active: string, routes: seq<Route>, faults: Faults)
    returns (result: Result<seq<Fragment>, ConfigError>)
    ensures result.Ok? <==> FragmentsFine(routes, faults)
    ensures result.Ok? ==> result.value == Planned(routes, Entries(At(store.dirs, active)))
    ensures result.Err? ==> exists i ::
      && 0 <= i < |routes| && FragmentsFine(routes[..i], faults)
      && (if routes[i].renderConfig then routes[i].rendered == Err(result.error)
          else !Fine(faults, ReadFragment(i)) && result.error == StepFailed(ReadFragment(i)))
    ensures result.Ok? ==> forall f :: f in result.value <==>
      exists i :: 0 <= i < |routes| && IsFragmentOf(f, routes[i], Entries(At(store.dirs, active)))
  {
    hide FileName, IsFragmentOf;
    var fragments := [];
    var i := 0;
    while i < |routes|
      invariant 0 <= i <= |routes|
      invariant fragments == Planned(routes[..i], Entries(At(store.dirs, active)))
      invariant FragmentsFine(routes[..i], faults)
    {
      var route := routes[i];
      assert routes[..i + 1][..i] == routes[..i];
      var content := None;
      if route.renderConfig {
        if route.rendered.Err? {
          return Err(route.rendered.error);
        }
        content := Some(route.rendered.value);
      } else {
        var read := store.ReadInDir(ReadFragment(i), active, FileName(route.id), faults);
        if read.Err? {
          return Err(read.error);
        }
        content := read.value;
      }
      if content.Some? {
        fragments := fragments + [Fragment(route.id, FileName(route.id), content.value)];
      }
      i := i + 1;
    }
    assert routes[..i] == routes;
    forall f {
      PlannedExact(routes, Entries(At(store.dirs, active)), f);
    }
    result := Ok(fragments);
  }

  /** Every fragment, or the marker of an empty directory, can be written. */
  predicate WritesFine(fragments: seq<Fragment>, faults: Faults) {
    if fragments == [] then Fine(faults, WriteMarker) && Fine(faults, DeleteMarker)
    else forall i :: 0 <= i < |fragments| ==> Fine(faults, WriteFragment(i))
  }

  method WriteProjectConfigFragments(store: ConfigStore, dir: string, fragments: seq<Fragment>, faults: Faults)
    returns (result: Result<(), ConfigError>)
    modifies store`dirs
    ensures OnlyNames(old(store.dirs), store.dirs, {dir})
    ensures result.Ok? <==> WritesFine(fragments, faults)
    ensures result.Ok? ==> At(store.dirs, dir) == Some(WrittenDir(Entries(At(old(store.dirs), dir)), fragments))
    ensures result.Err? ==> !result.error.RollbackFailed?
  {
    ghost var base := Entries(At(store.dirs, dir));
    if fragments == [] {
      result := store.WriteInDir(WriteMarker, dir, EMPTY_MARKER, "", faults);
      if result.Err? {
        return;
      }
      result := store.DeleteOptionalInDir(DeleteMarker, dir, EMPTY_MARKER, faults);
      assert base[EMPTY_MARKER := ""] - {EMPTY_MARKER} == base - {EMPTY_MARKER};
      return;
    }
    var i := 0;
    while i < |fragments|
      invariant 0 <= i <= |fragments|
      invariant OnlyNames(old(store.dirs), store.dirs, {dir})
      invariant Entries(At(store.dirs, dir)) == Overlay(base, fragments[..i])
      invariant i > 0 ==> dir in store.dirs
      invariant forall j :: 0 <= j < i ==> Fine(faults, WriteFragment(j))
    {
      assert fragments[..i + 1][..i] == fragments[..i];
      result := store.WriteInDir(WriteFragment(i), dir, fragments[i].fileName, fragments[i].content, faults);
      if result.Err? {
        return;
      }
      i := i + 1;
    }
    assert fragments[..i] == fragments;
    result := Ok(());
  }

  /** Recording an error in the database may itself fail and then hides that error. */
  function Recorded(error: ConfigError, step: Step, faults: Faults): ConfigError {
    if Fine(faults, step) then error else RecordFailed
  }

  /** What a run is given: the store's names, the routes, the root renderer, told the directory
      to import from and whether to import, and the validator. */
  datatype Plan = Plan(
    root: string,
    active: string,
    routes: seq<Route>,
    render: (string, bool) -> Result<string, ConfigError>,
    validate: (string, Fragments) -> bool)

  /** What is on disk when it begins. */
  datatype Disk = Disk(
    pid: nat,
    counter: nat,
    dirCounter: nat,
    files: map<string, string>,
    dirs: map<string, Fragments>)

  function DiskOf(store: ConfigStore): Disk
    reads store
  {
    Disk(store.pid, store.counter, store.dirCounter, store.files, store.dirs)
  }

  function CandidateDir(disk: Disk, plan: Plan): string {
    CandidateName(plan.active, disk.pid, disk.dirCounter)
  }

  function PlannedHere(disk: Disk, plan: Plan): seq<Fragment> {
    Planned(plan.routes, Entries(At(disk.dirs, plan.active)))
  }

  /** The fragment directory a run aims at: the planned ones over a stale candidate. */
  function NewFragments(disk: Disk, plan: Plan): Fragments {
    WrittenDir(Entries(At(disk.dirs, CandidateDir(disk, plan))), PlannedHere(disk, plan))
  }

  /** The root file it aims at, if it renders. */
  function NewRoot(disk: Disk, plan: Plan): Option<string> {
    var content := plan.render(plan.active, PlannedHere(disk, plan) != []);
    if content.Ok? then Some(content.value) else None
  }

  /** The root file that is validated, with the candidate directory to import from. */
  function CandidateRoot(disk: Disk, plan: Plan): Option<string> {
    var content := plan.render(CandidateDir(disk, plan), PlannedHere(disk, plan) != []);
    if content.Ok? then Some(content.value) else None
  }

  function PromotionNames(disk: Disk, plan: Plan): Names {
    NamesOf(plan.root, plan.active, CandidateDir(disk, plan), disk.pid, disk.counter + 1)
  }

  /** Everything up to the promotion goes well, and the validator accepts the candidate root
      with the very fragments to be promoted. */
  predicate Ready(disk: Disk, plan: Plan, faults: Faults) {
    && FragmentsFine(plan.routes, faults)
    && NewRoot(disk, plan).Some? && CandidateRoot(disk, plan).Some?
    && WritesFine(PlannedHere(disk, plan), faults)
    && Fine(faults, WriteCandidate) && Fine(faults, WriteActive)
    && plan.validate(CandidateRoot(disk, plan).value, NewFragments(disk, plan))
  }

  /** The directories once the candidate fragments are written. */
  function Staged(disk: Disk, plan: Plan): map<string, Fragments> {
    disk.dirs[CandidateDir(disk, plan) := NewFragments(disk, plan)]
  }

  /** The promotion takes place. */
  predicate Promotes(disk: Disk, plan: Plan, faults: Faults) {
    Ready(disk, plan, faults)
    && PairMoves(disk.files, Staged(disk, plan), faults, PromotionNames(disk, plan))
  }

  /** The promotion fails and cannot be taken back. */
  predicate Stuck(disk: Disk, plan: Plan, faults: Faults) {
    Ready(disk, plan, faults)
    && PairStuck(disk.files, Staged(disk, plan), faults, PromotionNames(disk, plan))
  }

  /** What the promotion leaves active. */
  function PromotedRoot(disk: Disk, plan: Plan, faults: Faults): Option<string> {
    if Ready(disk, plan, faults) then
      PairRootAfter(disk.files, Staged(disk, plan), faults, PromotionNames(disk, plan), NewRoot(disk, plan).value)
    else At(disk.files, plan.root)
  }

  function PromotedFragments(disk: Disk, plan: Plan, faults: Faults): Option<Fragments> {
    if Ready(disk, plan, faults) then
      PairDirAfter(disk.files, Staged(disk, plan), faults, PromotionNames(disk, plan))
    else At(disk.dirs, plan.active)
  }

  /** Writing the candidate directory changes nothing else that decides the promotion. */
  lemma SamePair(disk: Disk, plan: Plan, moved: map<string, Fragments>, faults: Faults)
    requires OnlyNames(disk.dirs, moved, {CandidateDir(disk, plan)})
    requires At(moved, CandidateDir(disk, plan)) == Some(NewFragments(disk, plan))
    ensures var dirs := Staged(disk, plan);
      && PairMoves(disk.files, moved, faults, PromotionNames(disk, plan))
         == PairMoves(disk.files, dirs, faults, PromotionNames(disk, plan))
      && PairStuck(disk.files, moved, faults, PromotionNames(disk, plan))
         == PairStuck(disk.files, dirs, faults, PromotionNames(disk, plan))
      && (forall content ::
            PairRootAfter(disk.files, moved, faults, PromotionNames(disk, plan), content)
            == PairRootAfter(disk.files, dirs, faults, PromotionNames(disk, plan), content))
      && PairDirAfter(disk.files, moved, faults, PromotionNames(disk, plan))
         == PairDirAfter(disk.files, dirs, faults, PromotionNames(disk, plan))
  {
    hide CandidateName, BackupName, NewFragments, PairMoves, PairStuck, PairRootAfter, PairDirAfter;
    var names := PromotionNames(disk, plan);
    NamesApart(plan.active, disk.pid, disk.dirCounter, disk.counter + 2);
    assert At(disk.dirs, names.active) == At(moved, names.active);
    assert At(disk.dirs, names.dirBackup) == At(moved, names.dirBackup);
    PairSame(disk.files, disk.files, moved, Staged(disk, plan), faults, names);
  }

  datatype Texts = Texts(fragments: seq<Fragment>, activeContent: string, candidateContent: string)

  /** What the run is going to write: the fragments, and the root file in both its forms. */
  method RenderGatewayConfig(store: ConfigStore, plan: Plan, candidateDir: string, ghost disk: Disk, faults: Faults)
    returns (result: Result<Texts, ConfigError>)
    requires candidateDir == CandidateDir(disk, plan) && store.dirs == disk.dirs
    ensures result.Ok? <==>
      FragmentsFine(plan.routes, faults) && NewRoot(disk, plan).Some? && CandidateRoot(disk, plan).Some?
    ensures result.Ok? ==>
      && result.value.fragments == PlannedHere(disk, plan)
      && NewRoot(disk, plan) == Some(result.value.activeContent)
      && CandidateRoot(disk, plan) == Some(result.value.candidateContent)
  {
    hide CandidateName, Planned, FragmentsFine;
    var fragments := GatewayProjectConfigFragments(store, plan.active, plan.routes, faults);
    if fragments.Err? {
      return Err(fragments.error);
    }
    var importing := fragments.value != [];
    var activeContent := plan.render(plan.active, importing);
    if activeContent.Err? {
      return Err(Recorded(activeContent.error, RecordPlan, faults));
    }
    var candidateContent := plan.render(candidateDir, importing);
    if candidateContent.Err? {
      return Err(Recorded(candidateContent.error, RecordPlan, faults));
    }
    result := Ok(Texts(fragments.value, activeContent.value, candidateContent.value));
  }

  /** The promotion proper, once the candidate directory is written; `disk` is what the run
      started from. */
  method PromotePlanned(store: ConfigStore, plan: Plan, activeContent: string, candidateContent: string,
                        candidateDir: string, ghost disk: Disk, faults: Faults)
    returns (result: Result<PromotedTree, ConfigError>)
    requires candidateDir == CandidateDir(disk, plan)
    requires store.pid == disk.pid && store.counter == disk.counter && store.files == disk.files
    requires OnlyNames(disk.dirs, store.dirs, {candidateDir})
    requires At(store.dirs, candidateDir) == Some(NewFragments(disk, plan))
    modifies store
    ensures var names := PromotionNames(disk, plan);
      var accepted :=
        && Fine(faults, WriteCandidate) && Fine(faults, WriteActive)
        && plan.validate(candidateContent, NewFragments(disk, plan));
      && (result.Ok? <==> accepted && PairMoves(disk.files, Staged(disk, plan), faults, names))
      && (accepted && PairStuck(disk.files, Staged(disk, plan), faults, names) ==>
            && result.Err?
            && (if Fine(faults, RecordPromotion) then result.error.RollbackFailed? else result.error == RecordFailed))
      && At(store.files, plan.root) ==
           (if accepted then PairRootAfter(disk.files, Staged(disk, plan), faults, names, activeContent)
            else At(disk.files, plan.root))
      && At(store.dirs, plan.active) ==
           (if accepted then PairDirAfter(disk.files, Staged(disk, plan), faults, names)
            else At(disk.dirs, plan.active))
    ensures result.Ok? ==>
      && store.Undoable(result.value, At(disk.files, plan.root), At(disk.dirs, plan.active))
      && result.value.root.active == plan.root && result.value.fragments.active == plan.active
    ensures Kept(At(disk.files, plan.root), store.files, plan.root, disk.pid)
    ensures Kept(At(disk.dirs, plan.active), store.dirs, plan.active, disk.pid)
  {
    hide CandidateName, BackupName, WrittenDir, Planned, PairMoves, PairStuck, PairRootAfter, PairDirAfter,
      NewFragments, Left;
    ghost var d := disk.dirCounter;
    assert candidateDir == CandidateName(plan.active, store.pid, d);
    NamesApart(plan.active, store.pid, d, disk.counter + 2);
    assert At(disk.dirs, plan.active) == At(store.dirs, plan.active);
    SamePair(disk, plan, store.dirs, faults);
    result := store.PromoteTree(plan.root, candidateContent, activeContent, plan.validate, plan.active, candidateDir,
                                faults);
    if result.Err? {
      result := Err(Recorded(result.error, RecordPromotion, faults));
    }
  }

  /** What is active afterwards is told by the faults; success can be undone. A stuck promotion
      is reported as a failed rollback exactly when recording the error succeeds. Nothing old
      is lost. */
  method ReconcileGatewayConfig(store: ConfigStore, plan: Plan, faults: Faults)
    returns (result: Result<PromotedTree, ConfigError>)
    modifies store
    ensures result.Ok? <==> Promotes(old(DiskOf(store)), plan, faults)
    ensures result.Ok? ==>
      && store.Undoable(result.value, At(old(store.files), plan.root), At(old(store.dirs), plan.active))
      && result.value.root.active == plan.root && result.value.fragments.active == plan.active
    ensures result.Ok? ==>
      var active := Entries(At(old(store.dirs), plan.active));
      var candidate := CandidateName(plan.active, store.pid, old(store.dirCounter));
      var importing := AnyFragment(plan.routes, active);
      && plan.active in store.dirs
      && NewTree(plan.routes, active, Entries(At(old(store.dirs), candidate)), store.dirs[plan.active])
      && plan.root in store.files && plan.render(plan.active, importing) == Ok(store.files[plan.root])
      && plan.render(candidate, importing).Ok?
      && plan.validate(plan.render(candidate, importing).value, store.dirs[plan.active])
    ensures At(store.files, plan.root) == PromotedRoot(old(DiskOf(store)), plan, faults)
    ensures At(store.dirs, plan.active) == PromotedFragments(old(DiskOf(store)), plan, faults)
    ensures Stuck(old(DiskOf(store)), plan, faults) ==>
      && result.Err?
      && (if Fine(faults, RecordPromotion) then result.error.RollbackFailed? else result.error == RecordFailed)
    ensures Kept(At(old(store.files), plan.root), store.files, plan.root, store.pid)
    ensures Kept(At(old(store.dirs), plan.active), store.dirs, plan.active, store.pid)
  {
    hide CandidateName, BackupName, WrittenDir, Planned, PairMoves, PairStuck, WritesFine, FragmentsFine, Left,
      NewRoot, CandidateRoot, PlannedHere, PairRootAfter, PairDirAfter;
    ghost var disk := DiskOf(store);
    ghost var d := store.dirCounter;
    var candidateDir := CandidateName(plan.active, store.pid, store.dirCounter);
    assert candidateDir == CandidateName(plan.active, store.pid, d) == CandidateDir(disk, plan);
    NamesApart(plan.active, store.pid, d, disk.counter + 2);
    NamesApartFrom(plan.active, store.pid, d);
    store.dirCounter := store.dirCounter + 1;
    var rendered := RenderGatewayConfig(store, plan, candidateDir, disk, faults);
    if rendered.Err? {
      return Err(rendered.error);
    }
    var Texts(fragments, activeContent, candidateContent) := rendered.value;
    var written := WriteProjectConfigFragments(store, candidateDir, fragments, faults);
    if written.Err? {
      if !Fine(faults, RecordPlan) {
        return Err(RecordFailed);
      }
      result := Err(written.error);
    } else {
      result := PromotePlanned(store, plan, activeContent, candidateContent, candidateDir, disk, faults);
    }
    label cleanup:
    var _ := store.DeleteOptionalDir(CleanUp, candidateDir, faults);
    AtOthers(old@cleanup(store.dirs), store.dirs, candidateDir);
    NewTreeIfPromoted(disk, plan, faults);
  }

  lemma NewTreeIfPromoted(disk: Disk, plan: Plan, faults: Faults)
    ensures Promotes(disk, plan, faults) ==>
      var active := Entries(At(disk.dirs, plan.active));
      var candidate := CandidateName(plan.active, disk.pid, disk.dirCounter);
      var importing := AnyFragment(plan.routes, active);
      && PromotedFragments(disk, plan, faults).Some? && PromotedRoot(disk, plan, faults).Some?
      && var fragments := PromotedFragments(disk, plan, faults).value;
      && NewTree(plan.routes, active, Entries(At(disk.dirs, candidate)), fragments)
      && plan.render(plan.active, importing) == Ok(PromotedRoot(disk, plan, faults).value)
      && plan.render(candidate, importing).Ok?
      && plan.validate(plan.render(candidate, importing).value, fragments)
  {
    if Promotes(disk, plan, faults) {
      PromotionLeaves(disk, plan, faults);
      PromotedTreeExact(disk, plan, faults);
    }
  }

  // ------------------------------------------------------------------
  // The whole run
  // ------------------------------------------------------------------

  /** A commit finds both backups it has to delete and deletes them. */
  predicate CommitsFine(disk: Disk, plan: Plan, faults: Faults) {
    && (plan.active in disk.dirs ==> Fine(faults, DeleteDirBackup))
    && (plan.root in disk.files ==> Fine(faults, DeleteFileBackup))
  }

  predicate UndoFails(disk: Disk, plan: Plan, faults: Faults) {
    DirUndoFails(disk.dirs, faults, plan.active) || FileUndoFails(disk.files, faults, plan.root)
  }

  /** What comes after the runtime has started goes well: commit, database record, and the
      stopping of stale workers. */
  predicate Concludes(disk: Disk, plan: Plan, faults: Faults) {
    CommitsFine(disk, plan, faults) && Fine(faults, Observe) && Fine(faults, StopStale)
  }

  predicate RollbackFails(disk: Disk, plan: Plan, started: Result<(), ConfigError>, faults: Faults) {
    Stuck(disk, plan, faults) || (Promotes(disk, plan, faults) && started.Err? && UndoFails(disk, plan, faults))
  }

  /** The step at which a failed rollback is recorded. */
  function RollbackRecord(disk: Disk, plan: Plan, faults: Faults): Step {
    if Stuck(disk, plan, faults) then RecordPromotion else RecordRollback
  }

  predicate Succeeds(disk: Disk, plan: Plan, started: Result<(), ConfigError>, faults: Faults) {
    Promotes(disk, plan, faults) && started.Ok? && Concludes(disk, plan, faults)
  }

  /** What the run leaves active: what the promotion left, or, if that took place and the
      runtime did not start, what taking it back makes of it. */
  function RootAfter(disk: Disk, plan: Plan, started: Result<(), ConfigError>, faults: Faults): Option<string> {
    if Promotes(disk, plan, faults) && started.Err? then
      FileAfterUndo(PromotedRoot(disk, plan, faults), At(disk.files, plan.root), faults)
    else PromotedRoot(disk, plan, faults)
  }

  function FragmentsAfter(disk: Disk, plan: Plan, started: Result<(), ConfigError>, faults: Faults)
    : Option<Fragments>
  {
    if Promotes(disk, plan, faults) && started.Err? then
      DirAfterUndo(PromotedFragments(disk, plan, faults), At(disk.dirs, plan.active), faults)
    else PromotedFragments(disk, plan, faults)
  }

  /** The reconciliation of the gateway: promotion, start-up of the runtime (`started` is what
      that comes to), commit or rollback, record, and the stopping of stale workers. Success
      and what is active afterwards are told by the faults; nothing old is lost short of a
      commit, and a failed rollback is reported exactly when recording it succeeds. */
  method ReconcileGateway(store: ConfigStore, plan: Plan, started: Result<(), ConfigError>, faults: Faults)
    returns (result: Result<(), ConfigError>)
    modifies store
    ensures result.Ok? ==>
      var active := Entries(At(old(store.dirs), plan.active));
      var candidate := CandidateName(plan.active, store.pid, old(store.dirCounter));
      var importing := AnyFragment(plan.routes, active);
      && plan.active in store.dirs
      && NewTree(plan.routes, active, Entries(At(old(store.dirs), candidate)), store.dirs[plan.active])
      && plan.root in store.files && plan.render(plan.active, importing) == Ok(store.files[plan.root])
      && plan.render(candidate, importing).Ok?
      && plan.validate(plan.render(candidate, importing).value, store.dirs[plan.active])
    ensures result.Ok? <==> Succeeds(old(DiskOf(store)), plan, started, faults)
    ensures At(store.files, plan.root) == RootAfter(old(DiskOf(store)), plan, started, faults)
    ensures At(store.dirs, plan.active) == FragmentsAfter(old(DiskOf(store)), plan, started, faults)
    ensures var disk := old(DiskOf(store));
      !(Promotes(disk, plan, faults) && started.Ok?) ==>
        && Kept(At(disk.files, plan.root), store.files, plan.root, store.pid)
        && Kept(At(disk.dirs, plan.active), store.dirs, plan.active, store.pid)
    ensures var disk := old(DiskOf(store));
      RollbackFails(disk, plan, started, faults) ==>
        && result.Err?
        && (if Fine(faults, RollbackRecord(disk, plan, faults)) then result.error.RollbackFailed?
            else result.error == RecordFailed)
    ensures var disk := old(DiskOf(store));
      Promotes(disk, plan, faults) && started.Err? ==>
        result.Err? &&
        (if !UndoFails(disk, plan, faults) then result.error == started.error
         else if Fine(faults, RecordRollback) then
           result.error.RollbackFailed? && result.error.original == started.error
         else result.error == RecordFailed)
    ensures var disk := old(DiskOf(store));
      Promotes(disk, plan, faults) && started.Ok? && CommitsFine(disk, plan, faults) ==>
        result ==
          if !Fine(faults, Observe) then Err(RecordFailed)
          else if !Fine(faults, StopStale) then Err(StepFailed(StopStale))
          else Ok(())
  {
    hide Promotes, Stuck, Kept, BackupName, PromotedRoot, PromotedFragments, CandidateName;
    ghost var disk := DiskOf(store);
    StuckOrPromotes(disk, plan, faults);
    var config := ReconcileGatewayConfig(store, plan, faults);
    if config.Err? {
      return Err(config.error);
    }
    PromotionLeaves(disk, plan, faults);
    if started.Err? {
      var restored :=
        store.Rollback(config.value, At(old(store.files), plan.root), At(old(store.dirs), plan.active), faults);
      if restored.Err? {
        return Err(Recorded(RollbackFailed(started.error, restored.error), RecordRollback, faults));
      }
      return Err(started.error);
    }
    var committed := store.Commit(config.value, faults);
    if committed.Err? {
      return Err(Recorded(committed.error, RecordCommit, faults));
    }
    if !Fine(faults, Observe) {
      return Err(RecordFailed);
    }
    if !Fine(faults, StopStale) {
      return Err(StepFailed(StopStale));
    }
    PromotedTreeExact(disk, plan, faults);
    result := Ok(());
  }

  /** What a promotion puts in place, route by route, and what the validator saw of it. */
  lemma PromotedTreeExact(disk: Disk, plan: Plan, faults: Faults)
    requires Promotes(disk, plan, faults)
    ensures
      var active := Entries(At(disk.dirs, plan.active));
      var candidate := CandidateName(plan.active, disk.pid, disk.dirCounter);
      var importing := AnyFragment(plan.routes, active);
      && NewTree(plan.routes, active, Entries(At(disk.dirs, candidate)), NewFragments(disk, plan))
      && NewRoot(disk, plan).Some? && plan.render(plan.active, importing) == Ok(NewRoot(disk, plan).value)
      && plan.render(candidate, importing).Ok?
      && plan.validate(plan.render(candidate, importing).value, NewFragments(disk, plan))
  {
    hide CandidateName, BackupName, HasFragment, NewTree, Planned, WrittenDir, PairMoves;
    var active := Entries(At(disk.dirs, plan.active));
    assert forall i :: 0 <= i < |plan.routes| && plan.routes[i].renderConfig ==> plan.routes[i].rendered.Ok?;
    SomethingPlanned(plan.routes, active);
    PlannedTree(plan.routes, active, Entries(At(disk.dirs, CandidateDir(disk, plan))));
  }

  lemma StuckOrPromotes(disk: Disk, plan: Plan, faults: Faults)
    ensures !(Stuck(disk, plan, faults) && Promotes(disk, plan, faults))
  {
  }

  lemma PromotionLeaves(disk: Disk, plan: Plan, faults: Faults)
    ensures Promotes(disk, plan, faults) ==>
      && NewRoot(disk, plan).Some? && PromotedRoot(disk, plan, faults) == NewRoot(disk, plan)
      && PromotedFragments(disk, plan, faults) == Some(NewFragments(disk, plan))
    ensures !Promotes(disk, plan, faults) && !Stuck(disk, plan, faults) ==>
      && PromotedRoot(disk, plan, faults) == At(disk.files, plan.root)
      && PromotedFragments(disk, plan, faults) == At(disk.dirs, plan.active)
  {
    hide BackupName, NewFragments, NewRoot, CandidateRoot;
    NamesApart(plan.active, disk.pid, disk.dirCounter, 0);
    hide CandidateName;
  }

  /** The places a run passes if all goes well: reading what is preserved, writing the fragments
      or the lone marker, the root in both its forms, moving both halves in, and then the old ones
      out of the way before and away after, if there were any; the record, and the stopping of
      stale workers. */
  ghost predicate OnTheWay(disk: Disk, plan: Plan, step: Step) {
    var active := Entries(At(disk.dirs, plan.active));
    match step
    case ReadFragment(i) => i < |plan.routes| && !plan.routes[i].renderConfig
    case WriteFragment(i) => i < FragmentCount(plan.routes, active)
    case WriteMarker => FragmentCount(plan.routes, active) == 0
    case DeleteMarker => FragmentCount(plan.routes, active) == 0
    case WriteCandidate => true
    case WriteActive => true
    case ClearFileBackup => BackupName(plan.root, disk.pid, disk.counter + 1) in disk.files
    case ClearDirBackup => BackupName(plan.active, disk.pid, disk.counter + 2) in disk.dirs
    case SaveFile => plan.root in disk.files
    case SaveDir => plan.active in disk.dirs
    case MoveFile => true
    case MoveDir => true
    case DeleteFileBackup => plan.root in disk.files
    case DeleteDirBackup => plan.active in disk.dirs
    case Observe => true
    case StopStale => true
    case _ => false
  }

  /** How many routes have a fragment. */
  function FragmentCount(routes: seq<Route>, active: Fragments): nat {
    if routes == [] then 0
    else FragmentCount(routes[..|routes| - 1], active) + if HasFragment(routes[|routes| - 1], active) then 1 else 0
  }

  lemma {:induction false} CountPlanned(routes: seq<Route>, active: Fragments)
    requires forall i :: 0 <= i < |routes| && routes[i].renderConfig ==> routes[i].rendered.Ok?
    ensures |Planned(routes, active)| == FragmentCount(routes, active)
    decreases |routes|
  {
    if routes != [] {
      ContentExact(routes[|routes| - 1], active);
      hide Content, HasFragment, FileName;
      CountPlanned(routes[..|routes| - 1], active);
    }
  }

  predicate AllRender(routes: seq<Route>) {
    forall i :: 0 <= i < |routes| && routes[i].renderConfig ==> routes[i].rendered.Ok?
  }

  ghost predicate NothingFails(disk: Disk, plan: Plan, faults: Faults) {
    forall step :: OnTheWay(disk, plan, step) ==> faults(step) == NoFault
  }

  lemma WayExact(disk: Disk, plan: Plan, faults: Faults)
    requires AllRender(plan.routes)
    ensures NothingFails(disk, plan, faults) <==>
      && FragmentsFine(plan.routes, faults) && WritesFine(PlannedHere(disk, plan), faults)
      && Fine(faults, WriteCandidate) && Fine(faults, WriteActive)
      && PairMoves(disk.files, Staged(disk, plan), faults, PromotionNames(disk, plan))
      && Concludes(disk, plan, faults)
  {
    hide CandidateName, BackupName, HasFragment, NewFragments, Planned;
    NamesApart(plan.active, disk.pid, disk.dirCounter, disk.counter + 2);
    CountPlanned(plan.routes, Entries(At(disk.dirs, plan.active)));
    hide FragmentCount;
    if NothingFails(disk, plan, faults) {
      WayFine(disk, plan, faults);
    }
  }

  lemma WayFine(disk: Disk, plan: Plan, faults: Faults)
    requires NothingFails(disk, plan, faults) && AllRender(plan.routes)
    requires |PlannedHere(disk, plan)| == FragmentCount(plan.routes, Entries(At(disk.dirs, plan.active)))
    ensures FragmentsFine(plan.routes, faults) && WritesFine(PlannedHere(disk, plan), faults)
    ensures Fine(faults, WriteCandidate) && Fine(faults, WriteActive)
    ensures PairMoves(disk.files, Staged(disk, plan), faults, PromotionNames(disk, plan))
    ensures Concludes(disk, plan, faults)
  {
    hide CandidateName, BackupName, PlannedHere, Staged, NewFragments, FragmentCount, AllRender;
    FragmentsPass(disk, plan, faults);
    hide FragmentsFine, WritesFine;
    assert OnTheWay(disk, plan, WriteCandidate) && OnTheWay(disk, plan, WriteActive);
    assert OnTheWay(disk, plan, Observe) && OnTheWay(disk, plan, StopStale);
    assert plan.root in disk.files ==> OnTheWay(disk, plan, DeleteFileBackup);
    assert plan.active in disk.dirs ==> OnTheWay(disk, plan, DeleteDirBackup);
    MovesPass(disk, plan, faults);
  }

  lemma FragmentsPass(disk: Disk, plan: Plan, faults: Faults)
    requires NothingFails(disk, plan, faults) && AllRender(plan.routes)
    requires |PlannedHere(disk, plan)| == FragmentCount(plan.routes, Entries(At(disk.dirs, plan.active)))
    ensures FragmentsFine(plan.routes, faults) && WritesFine(PlannedHere(disk, plan), faults)
  {
    hide CandidateName, BackupName, HasFragment, PlannedHere, FragmentCount;
    forall i | 0 <= i < |plan.routes| && !plan.routes[i].renderConfig ensures Fine(faults, ReadFragment(i)) {
      assert OnTheWay(disk, plan, ReadFragment(i));
    }
    forall i | 0 <= i < |PlannedHere(disk, plan)| ensures Fine(faults, WriteFragment(i)) {
      assert OnTheWay(disk, plan, WriteFragment(i));
    }
    if PlannedHere(disk, plan) == [] {
      assert OnTheWay(disk, plan, WriteMarker) && OnTheWay(disk, plan, DeleteMarker);
    }
  }

  lemma MovesPass(disk: Disk, plan: Plan, faults: Faults)
    requires NothingFails(disk, plan, faults)
    ensures PairMoves(disk.files, Staged(disk, plan), faults, PromotionNames(disk, plan))
  {
    hide CandidateName, BackupName, NewFragments, FragmentCount;
    NamesApart(plan.active, disk.pid, disk.dirCounter, disk.counter + 2);
    assert OnTheWay(disk, plan, MoveFile) && OnTheWay(disk, plan, MoveDir);
    assert plan.root in disk.files ==> OnTheWay(disk, plan, SaveFile);
    assert plan.active in disk.dirs ==> OnTheWay(disk, plan, SaveDir);
    assert BackupName(plan.root, disk.pid, disk.counter + 1) in disk.files ==> OnTheWay(disk, plan, ClearFileBackup);
    assert BackupName(plan.active, disk.pid, disk.counter + 2) in disk.dirs ==> OnTheWay(disk, plan, ClearDirBackup);
  }

  /** A run succeeds exactly if every route to be rendered renders, the root renders in both its
      forms, the validator accepts it with the new fragments, the runtime starts, and none of the
      places on the way fails. */
  lemma SucceedsExactly(disk: Disk, plan: Plan, started: Result<(), ConfigError>, faults: Faults)
    ensures
      var candidate := CandidateName(plan.active, disk.pid, disk.dirCounter);
      var importing := AnyFragment(plan.routes, Entries(At(disk.dirs, plan.active)));
      Succeeds(disk, plan, started, faults) <==>
        && AllRender(plan.routes)
        && plan.render(plan.active, importing).Ok? && plan.render(candidate, importing).Ok?
        && plan.validate(plan.render(candidate, importing).value, NewFragments(disk, plan))
        && started.Ok? && NothingFails(disk, plan, faults)
  {
    hide CandidateName, BackupName, HasFragment, NewFragments, Planned, AnyFragment, PairMoves, Staged, NothingFails,
      Concludes, WritesFine;
    if AllRender(plan.routes) {
      SomethingPlanned(plan.routes, Entries(At(disk.dirs, plan.active)));
      WayExact(disk, plan, faults);
    }
  }

  predicate FailsAfterStart(disk: Disk, plan: Plan, started: Result<(), ConfigError>, faults: Faults) {
    Promotes(disk, plan, faults) && started.Ok? && !Concludes(disk, plan, faults)
  }

  /** The runtime does not start, and the rollback removes nothing of the new tree. */
  predicate UndoesNothing(disk: Disk, plan: Plan, started: Result<(), ConfigError>, faults: Faults) {
    && Promotes(disk, plan, faults) && started.Err?
    && !Fine(faults, RollbackDeleteFile) && !Fine(faults, RollbackDeleteDir)
    && Left(NewFragments(disk, plan), faults(RollbackDeleteDir)) == NewFragments(disk, plan)
  }

  predicate NewAfter(disk: Disk, plan: Plan, started: Result<(), ConfigError>, faults: Faults) {
    && RootAfter(disk, plan, started, faults) == NewRoot(disk, plan)
    && FragmentsAfter(disk, plan, started, faults) == Some(NewFragments(disk, plan))
  }

  predicate OldAfter(disk: Disk, plan: Plan, started: Result<(), ConfigError>, faults: Faults) {
    && RootAfter(disk, plan, started, faults) == At(disk.files, plan.root)
    && FragmentsAfter(disk, plan, started, faults) == At(disk.dirs, plan.active)
  }

  /** Short of a failed rollback it is all or nothing: the new tree is active if the promotion
      took place and the runtime started, even if something fails after that, and the old one
      otherwise. */
  lemma AllOrNothing(disk: Disk, plan: Plan, started: Result<(), ConfigError>, faults: Faults)
    ensures Promotes(disk, plan, faults) && started.Ok? ==> NewAfter(disk, plan, started, faults)
    ensures !(Promotes(disk, plan, faults) && started.Ok?) && !RollbackFails(disk, plan, started, faults) ==>
      OldAfter(disk, plan, started, faults)
  {
    hide Promotes, Stuck, NewRoot, NewFragments, PromotedRoot, PromotedFragments;
    StuckOrPromotes(disk, plan, faults);
    PromotionLeaves(disk, plan, faults);
  }

  /** After an error the old tree is active if and only if the error did not come after the
      start-up and no rollback failed; a new tree of which the root, or all that a failed
      deletion leaves of the fragments, is as it was before apart. */
  lemma ErrorKeepsOld(disk: Disk, plan: Plan, started: Result<(), ConfigError>, faults: Faults)
    requires NewRoot(disk, plan) != At(disk.files, plan.root)
    requires Some(Left(NewFragments(disk, plan), faults(RollbackDeleteDir))) != At(disk.dirs, plan.active)
    requires !Succeeds(disk, plan, started, faults)
    ensures OldAfter(disk, plan, started, faults) <==>
      !FailsAfterStart(disk, plan, started, faults) && !RollbackFails(disk, plan, started, faults)
  {
    hide Promotes, Stuck, Concludes, NewRoot, NewFragments, PromotedRoot, PromotedFragments;
    StuckOrPromotes(disk, plan, faults);
    PromotionLeaves(disk, plan, faults);
    AllOrNothing(disk, plan, started, faults);
    if Stuck(disk, plan, faults) {
      StuckLeaves(disk, plan, faults);
    }
  }

  /** A stuck promotion leaves the root or the fragments other than they were. */
  lemma StuckLeaves(disk: Disk, plan: Plan, faults: Faults)
    requires Stuck(disk, plan, faults) && NewRoot(disk, plan) != At(disk.files, plan.root)
    ensures PromotedRoot(disk, plan, faults) != At(disk.files, plan.root)
      || PromotedFragments(disk, plan, faults) != At(disk.dirs, plan.active)
    ensures PromotedFragments(disk, plan, faults) in {None, At(disk.dirs, plan.active)}
  {
    hide BackupName, NewFragments, NewRoot, CandidateRoot;
    NamesApart(plan.active, disk.pid, disk.dirCounter, 0);
    hide CandidateName;
  }

  /** A tree whose root and fragments are both new is active after an error if and only if the
      promotion took place and either the runtime started and then the commit, the record or the
      stopping of stale workers failed, or it did not start and the rollback could remove
      nothing. Without a failed rollback the first is the only way, for any tree that is new. */
  lemma ErrorWithNewActive(disk: Disk, plan: Plan, started: Result<(), ConfigError>, faults: Faults)
    requires !Succeeds(disk, plan, started, faults)
    ensures
      && At(disk.files, plan.root) != NewRoot(disk, plan)
      && At(disk.dirs, plan.active) != Some(NewFragments(disk, plan)) ==>
        (NewAfter(disk, plan, started, faults) <==>
          FailsAfterStart(disk, plan, started, faults) || UndoesNothing(disk, plan, started, faults))
    ensures
      && !(At(disk.files, plan.root) == NewRoot(disk, plan)
           && At(disk.dirs, plan.active) == Some(NewFragments(disk, plan)))
      && !RollbackFails(disk, plan, started, faults) ==>
        (NewAfter(disk, plan, started, faults) <==> FailsAfterStart(disk, plan, started, faults))
  {
    hide Promotes, Stuck, Concludes, NewRoot, NewFragments, PromotedRoot, PromotedFragments;
    StuckOrPromotes(disk, plan, faults);
    PromotionLeaves(disk, plan, faults);
    AllOrNothing(disk, plan, started, faults);
    if Stuck(disk, plan, faults) && NewRoot(disk, plan) != At(disk.files, plan.root) {
      StuckLeaves(disk, plan, faults);
    }
  }

  // ------------------------------------------------------------------
  // Concrete runs
  // ------------------------------------------------------------------

  /** One rendered project, over an old root and an old fragment of it. */
  function SmallPlan(): Plan {
    Plan("Caddyfile", "projects", [Route("a", true, Ok("new site"))], (dir, importing) => Ok("new"),
         (content, fragments) => true)
  }

  function SmallDisk(): Disk {
    Disk(1, 0, 0, map["Caddyfile" := "old"], map["projects" := map["a.Caddyfile" := "old site"]])
  }

  function FaultsAt(steps: set<Step>): Faults {
    step => if step in steps then Early else NoFault
  }

  lemma SmallNames()
    ensures var names := PromotionNames(SmallDisk(), SmallPlan());
      names.rootBackup != "Caddyfile" && names.dirBackup != "projects" && names.candidateDir != "projects"
      && names.dirBackup != names.candidateDir
  {
    hide CandidateName, BackupName;
    NamesApart("Caddyfile", 1, 0, 1);
    NamesApart("projects", 1, 0, 2);
  }

  lemma SmallTree()
    ensures PlannedHere(SmallDisk(), SmallPlan()) == [Fragment("a", "a.Caddyfile", "new site")]
    ensures NewFragments(SmallDisk(), SmallPlan()) == map["a.Caddyfile" := "new site"]
    ensures NewRoot(SmallDisk(), SmallPlan()) == Some("new") == CandidateRoot(SmallDisk(), SmallPlan())
  {
    hide CandidateName, BackupName;
    SmallNames();
    var routes := SmallPlan().routes;
    assert routes[..0] == [];
    var fragments := [Fragment("a", "a.Caddyfile", "new site")];
    assert FileName("a") == "a.Caddyfile";
    assert Planned(routes, map["a.Caddyfile" := "old site"]) == [] + fragments;
    assert fragments[..0] == [];
  }

  const BEFORE_MOVING: set<Step> := {WriteFragment(0), WriteCandidate, WriteActive}

  lemma SmallReady(faults: set<Step>)
    requires faults !! BEFORE_MOVING
    ensures Ready(SmallDisk(), SmallPlan(), FaultsAt(faults))
  {
    hide CandidateName, BackupName, NewFragments, NewRoot, CandidateRoot, PlannedHere;
    SmallTree();
    assert WriteFragment(0) in BEFORE_MOVING && WriteCandidate in BEFORE_MOVING && WriteActive in BEFORE_MOVING;
  }

  /** With no fault before the start-up, the small plan is promoted. */
  lemma SmallPromotes(faults: set<Step>)
    requires faults !! BEFORE_MOVING + {SaveFile, MoveFile, SaveDir, MoveDir}
    ensures Promotes(SmallDisk(), SmallPlan(), FaultsAt(faults)) && !Stuck(SmallDisk(), SmallPlan(), FaultsAt(faults))
  {
    hide CandidateName, BackupName, Ready, NewFragments;
    SmallNames();
    SmallReady(faults);
    StuckOrPromotes(SmallDisk(), SmallPlan(), FaultsAt(faults));
    var moving := BEFORE_MOVING + {SaveFile, MoveFile, SaveDir, MoveDir};
    assert SaveFile in moving && MoveFile in moving && SaveDir in moving && MoveDir in moving;
  }

  /** Any fault after the start-up: an error, and the new tree is active. */
  lemma FaultAfterStart(at: Step)
    requires at in {DeleteFileBackup, DeleteDirBackup, Observe, StopStale}
    ensures !Succeeds(SmallDisk(), SmallPlan(), Ok(()), FaultsAt({at}))
    ensures RootAfter(SmallDisk(), SmallPlan(), Ok(()), FaultsAt({at})) == Some("new")
    ensures FragmentsAfter(SmallDisk(), SmallPlan(), Ok(()), FaultsAt({at})) == Some(map["a.Caddyfile" := "new site"])
  {
    hide Promotes, Stuck, NewRoot, NewFragments, PromotedRoot, PromotedFragments;
    SmallTree();
    SmallPromotes({at});
    PromotionLeaves(SmallDisk(), SmallPlan(), FaultsAt({at}));
  }

  /** The runtime does not start and nothing of the new tree can be removed: it stays. */
  lemma NothingUndone()
    ensures var faults := FaultsAt({RollbackDeleteFile, RollbackDeleteDir});
      && RootAfter(SmallDisk(), SmallPlan(), Err(Invalid), faults) == Some("new")
      && FragmentsAfter(SmallDisk(), SmallPlan(), Err(Invalid), faults) == Some(map["a.Caddyfile" := "new site"])
  {
    hide Promotes, Stuck, NewRoot, NewFragments, PromotedRoot, PromotedFragments;
    SmallTree();
    var at := {RollbackDeleteFile, RollbackDeleteDir};
    SmallPromotes(at);
    PromotionLeaves(SmallDisk(), SmallPlan(), FaultsAt(at));
  }

  /** The fragments do not move in and the new root cannot be removed: the new root is active
      beside the old fragments. */
  lemma MixedTree(started: Result<(), ConfigError>)
    ensures var faults := FaultsAt({MoveDir, RollbackDeleteFile});
      && !Succeeds(SmallDisk(), SmallPlan(), started, faults)
      && RootAfter(SmallDisk(), SmallPlan(), started, faults) == Some("new")
      && FragmentsAfter(SmallDisk(), SmallPlan(), started, faults) == Some(map["a.Caddyfile" := "old site"])
  {
    hide CandidateName, BackupName, Ready, NewRoot, NewFragments;
    SmallNames();
    SmallTree();
    SmallReady({MoveDir, RollbackDeleteFile});
  }

  method SmallStore() returns (store: ConfigStore)
    ensures fresh(store) && DiskOf(store) == SmallDisk()
  {
    store := new ConfigStore(1, map["Caddyfile" := "old"], map["projects" := map["a.Caddyfile" := "old site"]]);
  }

  /** A runtime that does not start and a rollback that fails: the failed rollback is reported
      when the record succeeds, and hidden by the record's own error when it does not. */
  method HiddenRollback(hidden: bool) returns (result: Result<(), ConfigError>, store: ConfigStore)
    ensures result.Err? && (if hidden then result.error == RecordFailed else result.error.RollbackFailed?)
  {
    hide Promotes, Kept, RootAfter, FragmentsAfter;
    store := SmallStore();
    var faults := if hidden then {RollbackDeleteFile, RecordRollback} else {RollbackDeleteFile};
    SmallPromotes(faults);
    result := ReconcileGateway(store, SmallPlan(), Err(Invalid), FaultsAt(faults));
  }

  function PreservingPlan(): Plan {
    Plan("Caddyfile", "projects", [Route("a", false, Err(Invalid))], (dir, importing) => Ok("new"),
         (content, fragments) => true)
  }

  function PreservedDisk(site: string): Disk {
    Disk(1, 0, 0, map["Caddyfile" := "old"], map["projects" := map["a.Caddyfile" := site]])
  }

  lemma PreservedSucceeds(site: string)
    ensures Succeeds(PreservedDisk(site), PreservingPlan(), Ok(()), FaultsAt({}))
    ensures CandidateName("projects", 1, 0) != "projects"
  {
    hide CandidateName, BackupName, NewFragments, Planned;
    NamesApart("Caddyfile", 1, 0, 1);
    NamesApart("projects", 1, 0, 2);
  }

  /** A project that is not rendered anew keeps its active file: a run of one such route. */
  method PreservedRun(site: string) returns (result: Result<(), ConfigError>, store: ConfigStore)
    ensures result.Ok? && At(store.dirs, "projects") == Some(map["a.Caddyfile" := site])
  {
    hide RootAfter, FragmentsAfter, Kept, CandidateName, BackupName, Succeeds, RollbackFails, Promotes;
    store := new ConfigStore(1, map["Caddyfile" := "old"], map["projects" := map["a.Caddyfile" := site]]);
    var plan := PreservingPlan();
    PreservedSucceeds(site);
    result := ReconcileGateway(store, plan, Ok(()), FaultsAt({}));
    ghost var fragments := store.dirs["projects"];
    assert "a" + ".Caddyfile" == "a.Caddyfile";
    assert Entries(At(map["projects" := map["a.Caddyfile" := site]], "projects")) == map["a.Caddyfile" := site];
    assert Decides(plan.routes, map["a.Caddyfile" := site], 0);
    forall name ensures At(fragments, name) == At(map["a.Caddyfile" := site], name) {
      assert name != "a.Caddyfile" ==> At(fragments, name) == None;
    }
    SameEntries(fragments, map["a.Caddyfile" := site]);
  }

  lemma SameEntries(a: Fragments, b: Fragments)
    requires forall name :: At(a, name) == At(b, name)
    ensures a == b
  {
    assert forall name :: name in a <==> At(a, name).Some?;
    assert forall name :: name in b <==> At(b, name).Some?;
  }

  /** A file left behind in the candidate directory is promoted although it is not planned. */
  lemma LeftoverPromoted(content: string)
    ensures var left := map["left.Caddyfile" := content];
      "left.Caddyfile" in WrittenDir(left, Planned([], map[])) && !IsPlanned([], map[], "left.Caddyfile")
  {
    assert "left.Caddyfile"[0] != EMPTY_MARKER[0];
  }
}
