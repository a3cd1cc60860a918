/** Layered rendering of a project's environment, and the separate check of its shape.
    Root entries are overridden by resource entries and those by allocation entries;
    two owners at one depth may not give the same key. */
module ProjectEnv {
  import opened Text
  import opened Config
  import opened Ordered
  import opened Placeholders

  datatype AllocationContext = AllocationContext(generatedName: string, values: EnvMap)

  datatype ResourceContext = ResourceContext(values: EnvMap, allocations: map<string, AllocationContext>)

  datatype ProjectContext = ProjectContext(
    primaryHostname: string,
    tlsCaPath: string,
    tlsCertPath: string,
    tlsKeyPath: string,
    resources: map<string, ResourceContext>)

  // ------------------------------------------------------------------
  // Who gives which key
  // ------------------------------------------------------------------

  /** An owner of environment entries; its constructor is its depth. */
  datatype Owner =
    | RootOwner
    | ResourceOwner(resource: string)
    | AllocationOwner(resource: string, allocation: string)

  function EnvOf(config: ProjectConfig, owner: Owner): EnvMap {
    match owner
    case RootOwner => config.env
    case ResourceOwner(r) => if r in config.resources then config.resources[r].env else map[]
    case AllocationOwner(r, a) =>
      if r in config.resources && a in config.resources[r].allocations
      then config.resources[r].allocations[a].env else map[]
  }

  /** A project that serves nothing leaves out the entries that need a serving value. */
  predicate Kept(serve: bool, template: string) {
    serve || !UsesServing(template)
  }

  predicate Binds(config: ProjectConfig, owner: Owner, key: string) {
    key in EnvOf(config, owner) && Kept(config.serve, EnvOf(config, owner)[key])
  }

  predicate SameDepth(a: Owner, b: Owner) {
    a.RootOwner? == b.RootOwner? && a.ResourceOwner? == b.ResourceOwner?
  }

  predicate Deeper(a: Owner, b: Owner) {
    (a.AllocationOwner? && !b.AllocationOwner?) || (a.ResourceOwner? && b.RootOwner?)
  }

  /** `owner` gives `key` and no deeper owner does. */
  ghost predicate Wins(config: ProjectConfig, owner: Owner, key: string) {
    Binds(config, owner, key) && forall other :: Deeper(other, owner) ==> !Binds(config, other, key)
  }

  /** No key has two owners at one depth. */
  ghost predicate ShapeValid(config: ProjectConfig) {
    forall a, b, key :: a != b && SameDepth(a, b) && Binds(config, a, key) ==> !Binds(config, b, key)
  }

  function Field(owner: Owner): string {
    match owner
    case RootOwner => "env"
    case ResourceOwner(r) => r + ".env"
    case AllocationOwner(r, a) => r + ".allocations." + a + ".env"
  }

  function Source(owner: Owner, key: string): string {
    Field(owner) + "." + key
  }

  // ------------------------------------------------------------------
  // The values a template may name
  // ------------------------------------------------------------------

  function ProjectValues(context: ProjectContext, serve: bool): Result<EnvMap, ConfigError> {
    if serve && context.primaryHostname == "" then
      Err(MissingEnvContext("project.primary_hostname", "project_url"))
    else
      var url := if context.primaryHostname == "" then map[]
                 else map["project_url" := "https://" + context.primaryHostname];
      var ca := if context.tlsCaPath == "" then map[] else map["tls_ca" := context.tlsCaPath];
      var cert := if context.tlsCertPath == "" then map[] else map["tls_cert" := context.tlsCertPath];
      var key := if context.tlsKeyPath == "" then map[] else map["tls_key" := context.tlsKeyPath];
      Ok(url + ca + cert + key)
  }

  function ContextOf(context: ProjectContext, project: EnvMap, owner: Owner): Result<EnvMap, ConfigError> {
    match owner
    case RootOwner => Ok(project)
    case ResourceOwner(r) =>
      if r !in context.resources then Err(MissingResourceEnvContext(r))
      else Ok(context.resources[r].values + project)
    case AllocationOwner(r, a) =>
      if r !in context.resources then Err(MissingResourceEnvContext(r))
      else if a !in context.resources[r].allocations then Err(MissingAllocationEnvContext(r, a))
      else
        var allocation := context.resources[r].allocations[a];
        var name := if allocation.generatedName == "" then map[]
                    else map["generated_name" := allocation.generatedName];
        Ok(context.resources[r].values + name + allocation.values + project)
  }

  // ------------------------------------------------------------------
  // Entries in iteration order
  // ------------------------------------------------------------------

  datatype Slot = Slot(owner: Owner, key: string, template: string)

  function SlotsFor(serve: bool, owner: Owner, env: EnvMap, keys: seq<string>): seq<Slot>
    requires forall k :: k in keys ==> k in env
  {
    if keys == [] then []
    else if Kept(serve, env[keys[0]]) then
      [Slot(owner, keys[0], env[keys[0]])] + SlotsFor(serve, owner, env, keys[1..])
    else SlotsFor(serve, owner, env, keys[1..])
  }

  /** The kept entries of one owner, by ascending key. */
  function SlotsOf(config: ProjectConfig, owner: Owner): seq<Slot> {
    var env := EnvOf(config, owner);
    SlotsFor(config.serve, owner, env, Sorted(env.Keys))
  }

  function ResourceOwners(names: seq<string>): seq<Owner> {
    if names == [] then [] else [ResourceOwner(names[0])] + ResourceOwners(names[1..])
  }

  function OwnersIn(resource: string, allocations: seq<string>): seq<Owner> {
    if allocations == [] then []
    else [AllocationOwner(resource, allocations[0])] + OwnersIn(resource, allocations[1..])
  }

  function AllocationOwners(config: ProjectConfig, names: seq<string>): seq<Owner>
    requires forall r :: r in names ==> r in config.resources
  {
    if names == [] then []
    else
      OwnersIn(names[0], Sorted(config.resources[names[0]].allocations.Keys)) + AllocationOwners(config, names[1..])
  }

  lemma ResourceOwnersAt(names: seq<string>, i: nat)
    requires i <= |names|
    ensures ResourceOwners(names[i..]) ==
      if i == |names| then [] else [ResourceOwner(names[i])] + ResourceOwners(names[i + 1..])
  {
    if i < |names| {
      assert names[i..][1..] == names[i + 1..];
    }
  }

  lemma OwnersInAt(resource: string, allocations: seq<string>, j: nat, later: seq<Owner>)
    requires j <= |allocations|
    ensures OwnersIn(resource, allocations[j..]) + later ==
      if j == |allocations| then later
      else [AllocationOwner(resource, allocations[j])] + (OwnersIn(resource, allocations[j + 1..]) + later)
  {
    if j < |allocations| {
      assert allocations[j..][1..] == allocations[j + 1..];
    }
  }

  lemma AllocationOwnersAt(config: ProjectConfig, names: seq<string>, i: nat)
    requires i <= |names| && forall r :: r in names ==> r in config.resources
    ensures AllocationOwners(config, names[i..]) ==
      if i == |names| then []
      else
        OwnersIn(names[i], Sorted(config.resources[names[i]].allocations.Keys)[0..])
        + AllocationOwners(config, names[i + 1..])
  {
    if i < |names| {
      assert names[i..][1..] == names[i + 1..];
      var allocations := Sorted(config.resources[names[i]].allocations.Keys);
      assert allocations[0..] == allocations;
    }
  }

  function AllResourceOwners(config: ProjectConfig): seq<Owner> {
    ResourceOwners(Sorted(config.resources.Keys))
  }

  function AllAllocationOwners(config: ProjectConfig): seq<Owner> {
    AllocationOwners(config, Sorted(config.resources.Keys))
  }

  // ------------------------------------------------------------------
  // The shape check
  // ------------------------------------------------------------------

  type Sources = map<string, string>

  /** Inserts keys with their sources, stopping at the first one already present. */
  function CheckSlots(sources: Sources, slots: seq<Slot>): Result<Sources, ConfigError>
    decreases |slots|
  {
    if slots == [] then Ok(sources)
    else
      var key, source := slots[0].key, Source(slots[0].owner, slots[0].key);
      if key in sources then Err(DuplicateRenderedEnvKey(key, sources[key], source))
      else CheckSlots(sources[key := source], slots[1..])
  }

  function CheckOwners(config: ProjectConfig, sources: Sources, owners: seq<Owner>): Result<Sources, ConfigError>
    decreases |owners|
  {
    if owners == [] then Ok(sources)
    else
      match CheckSlots(sources, SlotsOf(config, owners[0]))
      case Err(e) => Err(e)
      case Ok(more) => CheckOwners(config, more, owners[1..])
  }

  function CheckShape(config: ProjectConfig): Result<(), ConfigError> {
    match CheckOwners(config, map[], AllResourceOwners(config))
    case Err(e) => Err(e)
    case Ok(_) =>
      match CheckOwners(config, map[], AllAllocationOwners(config))
      case Err(e) => Err(e)
      case Ok(_) => Ok(())
  }

  method InsertSameDepthKey(sources: Sources, key: string, source: string)
    returns (r: Result<Sources, ConfigError>)
    ensures r == if key in sources then Err(DuplicateRenderedEnvKey(key, sources[key], source))
                 else Ok(sources[key := source])
  {
    if key in sources {
      return Err(DuplicateRenderedEnvKey(key, sources[key], source));
    }
    return Ok(sources[key := source]);
  }

  lemma CheckSlotsAt(serve: bool, owner: Owner, env: EnvMap, keys: seq<string>, i: nat, sources: Sources)
    requires i <= |keys| && forall k :: k in keys ==> k in env
    ensures CheckSlots(sources, SlotsFor(serve, owner, env, keys[i..])) ==
      if i == |keys| then Ok(sources)
      else if !Kept(serve, env[keys[i]]) then CheckSlots(sources, SlotsFor(serve, owner, env, keys[i + 1..]))
      else if keys[i] in sources then
        Err(DuplicateRenderedEnvKey(keys[i], sources[keys[i]], Source(owner, keys[i])))
      else CheckSlots(sources[keys[i] := Source(owner, keys[i])], SlotsFor(serve, owner, env, keys[i + 1..]))
  {
    if i < |keys| {
      assert keys[i..][1..] == keys[i + 1..];
      if Kept(serve, env[keys[i]]) {
        assert SlotsFor(serve, owner, env, keys[i..])[1..] == SlotsFor(serve, owner, env, keys[i + 1..]);
      }
    }
  }

  lemma CheckOwnersCons(config: ProjectConfig, sources: Sources, owner: Owner, rest: seq<Owner>)
    ensures CheckOwners(config, sources, [owner] + rest) ==
      var checked := CheckSlots(sources, SlotsOf(config, owner));
      if checked.Err? then Err(checked.error) else CheckOwners(config, checked.value, rest)
    ensures CheckOwners(config, sources, []) == Ok(sources)
  {
    assert ([owner] + rest)[1..] == rest;
  }

  /** The inner loop of the shape check, over one owner's entries. */
  method CheckOwner(config: ProjectConfig, before: Sources, owner: Owner)
    returns (r: Result<Sources, ConfigError>)
    ensures r == CheckSlots(before, SlotsOf(config, owner))
  {
    hide CheckSlots, SlotsFor, UsesServing, Sorted, Source, EnvOf;
    var env := EnvOf(config, owner);
    var keys := Sorted(env.Keys);
    var sources := before;
    var i := 0;
    assert keys[0..] == keys;
    while i < |keys|
      invariant 0 <= i <= |keys|
      invariant CheckSlots(before, SlotsOf(config, owner))
             == CheckSlots(sources, SlotsFor(config.serve, owner, env, keys[i..]))
    {
      CheckSlotsAt(config.serve, owner, env, keys, i, sources);
      var key, value := keys[i], env[keys[i]];
      if !config.serve && UsesServing(value) {
        i := i + 1;
        continue;
      }
      var inserted := InsertSameDepthKey(sources, key, Source(owner, key));
      if inserted.Err? {
        return inserted;
      }
      sources := inserted.value;
      i := i + 1;
    }
    CheckSlotsAt(config.serve, owner, env, keys, i, sources);
    return Ok(sources);
  }

  method ValidateProjectEnvShape(config: ProjectConfig) returns (r: Result<(), ConfigError>)
    ensures r == CheckShape(config)
  {
    hide CheckOwners, CheckSlots, SlotsOf, ResourceOwners, AllocationOwners, Sorted, EnvOf;
    var names := Sorted(config.resources.Keys);
    assert names[0..] == names;
    var sources: Sources := map[];
    var i := 0;
    while i < |names|
      invariant 0 <= i <= |names|
      invariant CheckOwners(config, map[], AllResourceOwners(config))
             == CheckOwners(config, sources, ResourceOwners(names[i..]))
    {
      ResourceOwnersAt(names, i);
      CheckOwnersCons(config, sources, ResourceOwner(names[i]), ResourceOwners(names[i + 1..]));
      var checked := CheckOwner(config, sources, ResourceOwner(names[i]));
      if checked.Err? {
        return Err(checked.error);
      }
      sources := checked.value;
      i := i + 1;
    }
    ResourceOwnersAt(names, i);
    CheckOwnersCons(config, sources, RootOwner, []);

    r := ValidateAllocationShape(config);
  }

  /** The doubly nested loop over the allocations of all resources. */
  method ValidateAllocationShape(config: ProjectConfig) returns (r: Result<(), ConfigError>)
    ensures var checked := CheckOwners(config, map[], AllAllocationOwners(config));
      r == if checked.Err? then Err(checked.error) else Ok(())
  {
    hide CheckOwners, CheckSlots, SlotsOf, OwnersIn, AllocationOwners, Sorted, EnvOf;
    var names := Sorted(config.resources.Keys);
    assert names[0..] == names;
    var sources: Sources := map[];
    var i := 0;
    while i < |names|
      invariant 0 <= i <= |names|
      invariant CheckOwners(config, map[], AllAllocationOwners(config))
             == CheckOwners(config, sources, AllocationOwners(config, names[i..]))
    {
      var allocations := Sorted(config.resources[names[i]].allocations.Keys);
      ghost var later := AllocationOwners(config, names[i + 1..]);
      AllocationOwnersAt(config, names, i);
      var j := 0;
      while j < |allocations|
        invariant 0 <= j <= |allocations|
        invariant CheckOwners(config, map[], AllAllocationOwners(config))
               == CheckOwners(config, sources, OwnersIn(names[i], allocations[j..]) + later)
      {
        OwnersInAt(names[i], allocations, j, later);
        CheckOwnersCons(config, sources, AllocationOwner(names[i], allocations[j]),
                        OwnersIn(names[i], allocations[j + 1..]) + later);
        var checked := CheckOwner(config, sources, AllocationOwner(names[i], allocations[j]));
        if checked.Err? {
          return Err(checked.error);
        }
        sources := checked.value;
        j := j + 1;
      }
      OwnersInAt(names[i], allocations, j, later);
      i := i + 1;
    }
    AllocationOwnersAt(config, names, i);
    CheckOwnersCons(config, sources, RootOwner, []);
    return Ok(());
  }

  // ------------------------------------------------------------------
  // Rendering
  // ------------------------------------------------------------------

  datatype Rendered = Rendered(key: string, source: string, value: string)

  type Entries = map<string, Rendered>

  /** All of an owner's kept entries rendered, in order; the first that fails decides. */
  function RenderSlots(slots: seq<Slot>, values: EnvMap): Result<seq<Rendered>, ConfigError> {
    if slots == [] then Ok([])
    else
      var source := Source(slots[0].owner, slots[0].key);
      match RenderValue(source, slots[0].template, values)
      case Err(e) => Err(e)
      case Ok(value) => Before([Rendered(slots[0].key, source, value)], RenderSlots(slots[1..], values))
  }

  function Before(first: seq<Rendered>, r: Result<seq<Rendered>, ConfigError>): Result<seq<Rendered>, ConfigError> {
    if r.Ok? then Ok(first + r.value) else r
  }

  function InsertEntries(entries: Entries, more: seq<Rendered>): Result<Entries, ConfigError>
    decreases |more|
  {
    if more == [] then Ok(entries)
    else if more[0].key in entries then
      Err(DuplicateRenderedEnvKey(more[0].key, entries[more[0].key].source, more[0].source))
    else InsertEntries(entries[more[0].key := more[0]], more[1..])
  }

  /** One owner's contribution to its depth. */
  function RenderOwner(config: ProjectConfig, context: ProjectContext, project: EnvMap,
                       entries: Entries, owner: Owner): Result<Entries, ConfigError>
  {
    if EnvOf(config, owner) == map[] then Ok(entries)
    else
      match ContextOf(context, project, owner)
      case Err(e) => Err(e)
      case Ok(values) =>
        match RenderSlots(SlotsOf(config, owner), values)
        case Err(e) => Err(e)
        case Ok(rendered) => InsertEntries(entries, rendered)
  }

  function RenderOwners(config: ProjectConfig, context: ProjectContext, project: EnvMap,
                        entries: Entries, owners: seq<Owner>): Result<Entries, ConfigError>
    decreases |owners|
  {
    if owners == [] then Ok(entries)
    else
      match RenderOwner(config, context, project, entries, owners[0])
      case Err(e) => Err(e)
      case Ok(more) => RenderOwners(config, context, project, more, owners[1..])
  }

  function ValuesOf(entries: Entries): EnvMap {
    map key | key in entries :: entries[key].value
  }

  function EntryMap(rendered: seq<Rendered>): EnvMap {
    if rendered == [] then map[]
    else EntryMap(rendered[..|rendered| - 1])[rendered[|rendered| - 1].key := rendered[|rendered| - 1].value]
  }

  function RenderConfig(config: ProjectConfig, context: ProjectContext): Result<EnvMap, ConfigError> {
    match ProjectValues(context, config.serve)
    case Err(e) => Err(e)
    case Ok(project) =>
      match RenderSlots(SlotsOf(config, RootOwner), project)
      case Err(e) => Err(e)
      case Ok(root) =>
        match RenderOwners(config, context, project, map[], AllResourceOwners(config))
        case Err(e) => Err(e)
        case Ok(resources) =>
          match RenderOwners(config, context, project, map[], AllAllocationOwners(config))
          case Err(e) => Err(e)
          case Ok(allocations) => Ok(EntryMap(root) + ValuesOf(resources) + ValuesOf(allocations))
  }

  /** The renderer of one mapping moves on from an entry to the next. */
  lemma RenderSlotsAt(serve: bool, owner: Owner, env: EnvMap, keys: seq<string>, i: nat, values: EnvMap,
                      rendered: seq<Rendered>)
    requires i <= |keys| && forall k :: k in keys ==> k in env
    ensures Before(rendered, RenderSlots(SlotsFor(serve, owner, env, keys[i..]), values)) ==
      if i == |keys| then Ok(rendered)
      else
        var rest := RenderSlots(SlotsFor(serve, owner, env, keys[i + 1..]), values);
        if !Kept(serve, env[keys[i]]) then Before(rendered, rest)
        else
          var value := RenderValue(Source(owner, keys[i]), env[keys[i]], values);
          if value.Err? then Err(value.error)
          else Before(rendered + [Rendered(keys[i], Source(owner, keys[i]), value.value)], rest)
  {
    hide RenderValue, UsesServing, Source;
    if i == |keys| {
      assert rendered + [] == rendered;
    } else {
      assert keys[i..][1..] == keys[i + 1..];
      var rest := RenderSlots(SlotsFor(serve, owner, env, keys[i + 1..]), values);
      if Kept(serve, env[keys[i]]) {
        assert SlotsFor(serve, owner, env, keys[i..])[1..] == SlotsFor(serve, owner, env, keys[i + 1..]);
        var value := RenderValue(Source(owner, keys[i]), env[keys[i]], values);
        if value.Ok? && rest.Ok? {
          var entry := Rendered(keys[i], Source(owner, keys[i]), value.value);
          assert rendered + ([entry] + rest.value) == (rendered + [entry]) + rest.value;
        }
      }
    }
  }

  lemma BeforeNothing(r: Result<seq<Rendered>, ConfigError>)
    ensures Before([], r) == r
  {
    if r.Ok? {
      assert [] + r.value == r.value;
    }
  }

  method RenderMapping(owner: Owner, mapping: EnvMap, values: EnvMap, serve: bool)
    returns (r: Result<seq<Rendered>, ConfigError>)
    ensures r == RenderSlots(SlotsFor(serve, owner, mapping, Sorted(mapping.Keys)), values)
  {
    hide RenderValue, RenderSlots, SlotsFor, Before, UsesServing, Sorted, Source;
    var keys := Sorted(mapping.Keys);
    var rendered: seq<Rendered> := [];
    var i := 0;
    assert keys[0..] == keys;
    BeforeNothing(RenderSlots(SlotsFor(serve, owner, mapping, keys), values));
    while i < |keys|
      invariant 0 <= i <= |keys|
      invariant RenderSlots(SlotsFor(serve, owner, mapping, keys), values)
             == Before(rendered, RenderSlots(SlotsFor(serve, owner, mapping, keys[i..]), values))
    {
      RenderSlotsAt(serve, owner, mapping, keys, i, values, rendered);
      var key, template := keys[i], mapping[keys[i]];
      if !serve && UsesServing(template) {
        i := i + 1;
        continue;
      }
      var field := Source(owner, key);
      var value := RenderEnvValue(field, template, values);
      if value.Err? {
        return Err(value.error);
      }
      rendered := rendered + [Rendered(key, field, value.value)];
      i := i + 1;
    }
    RenderSlotsAt(serve, owner, mapping, keys, i, values, rendered);
    return Ok(rendered);
  }

  lemma RenderOwnersCons(config: ProjectConfig, context: ProjectContext, project: EnvMap, entries: Entries,
                         owner: Owner, rest: seq<Owner>)
    ensures RenderOwners(config, context, project, entries, [owner] + rest) ==
      var added := RenderOwner(config, context, project, entries, owner);
      if added.Err? then Err(added.error) else RenderOwners(config, context, project, added.value, rest)
    ensures RenderOwners(config, context, project, entries, []) == Ok(entries)
  {
    assert ([owner] + rest)[1..] == rest;
  }

  method InsertSameDepthEntries(before: Entries, more: seq<Rendered>)
    returns (r: Result<Entries, ConfigError>)
    ensures r == InsertEntries(before, more)
  {
    var entries := before;
    var i := 0;
    assert more[0..] == more;
    while i < |more|
      invariant 0 <= i <= |more|
      invariant InsertEntries(before, more) == InsertEntries(entries, more[i..])
    {
      var entry := more[i];
      assert more[i..][1..] == more[i + 1..];
      if entry.key in entries {
        return Err(DuplicateRenderedEnvKey(entry.key, entries[entry.key].source, entry.source));
      }
      entries := entries[entry.key := entry];
      i := i + 1;
    }
    return Ok(entries);
  }

  /** The body shared by the resource loop and the allocation loop. */
  method AddOwner(config: ProjectConfig, context: ProjectContext, project: EnvMap, entries: Entries, owner: Owner)
    returns (r: Result<Entries, ConfigError>)
    ensures r == RenderOwner(config, context, project, entries, owner)
  {
    var env := EnvOf(config, owner);
    if env == map[] {
      return Ok(entries);
    }
    var values := ContextOf(context, project, owner);
    if values.Err? {
      return Err(values.error);
    }
    var rendered := RenderMapping(owner, env, values.value, config.serve);
    if rendered.Err? {
      return Err(rendered.error);
    }
    r := InsertSameDepthEntries(entries, rendered.value);
  }

  method RenderProjectEnv(config: ProjectConfig, context: ProjectContext) returns (r: Result<EnvMap, ConfigError>)
    ensures r == RenderConfig(config, context)
  {
    hide RenderOwner, RenderOwners, RenderSlots, ResourceOwners, Sorted, ProjectValues, EntryMap, ValuesOf;
    var projectValues := ProjectValues(context, config.serve);
    if projectValues.Err? {
      return Err(projectValues.error);
    }
    var project := projectValues.value;
    var root := RenderMapping(RootOwner, config.env, project, config.serve);
    if root.Err? {
      return Err(root.error);
    }
    var values := EntryMap(root.value);

    var names := Sorted(config.resources.Keys);
    assert names[0..] == names;
    var resources: Entries := map[];
    var i := 0;
    while i < |names|
      invariant 0 <= i <= |names|
      invariant RenderOwners(config, context, project, map[], AllResourceOwners(config))
             == RenderOwners(config, context, project, resources, ResourceOwners(names[i..]))
    {
      ResourceOwnersAt(names, i);
      RenderOwnersCons(config, context, project, resources, ResourceOwner(names[i]), ResourceOwners(names[i + 1..]));
      var added := AddOwner(config, context, project, resources, ResourceOwner(names[i]));
      if added.Err? {
        return Err(added.error);
      }
      resources := added.value;
      i := i + 1;
    }
    ResourceOwnersAt(names, i);
    RenderOwnersCons(config, context, project, resources, RootOwner, []);
    values := values + ValuesOf(resources);

    var fromAllocations := RenderAllocations(config, context, project);
    if fromAllocations.Err? {
      return Err(fromAllocations.error);
    }
    return Ok(values + ValuesOf(fromAllocations.value));
  }

  /** The doubly nested loop over the allocations of all resources. */
  method RenderAllocations(config: ProjectConfig, context: ProjectContext, project: EnvMap)
    returns (r: Result<Entries, ConfigError>)
    ensures r == RenderOwners(config, context, project, map[], AllAllocationOwners(config))
  {
    hide RenderOwner, RenderOwners, OwnersIn, AllocationOwners, Sorted;
    var names := Sorted(config.resources.Keys);
    assert names[0..] == names;
    var entries: Entries := map[];
    var i := 0;
    while i < |names|
      invariant 0 <= i <= |names|
      invariant RenderOwners(config, context, project, map[], AllAllocationOwners(config))
             == RenderOwners(config, context, project, entries, AllocationOwners(config, names[i..]))
    {
      var allocations := Sorted(config.resources[names[i]].allocations.Keys);
      ghost var later := AllocationOwners(config, names[i + 1..]);
      AllocationOwnersAt(config, names, i);
      var j := 0;
      while j < |allocations|
        invariant 0 <= j <= |allocations|
        invariant RenderOwners(config, context, project, map[], AllAllocationOwners(config))
               == RenderOwners(config, context, project, entries, OwnersIn(names[i], allocations[j..]) + later)
      {
        OwnersInAt(names[i], allocations, j, later);
        RenderOwnersCons(config, context, project, entries, AllocationOwner(names[i], allocations[j]),
                         OwnersIn(names[i], allocations[j + 1..]) + later);
        var added := AddOwner(config, context, project, entries, AllocationOwner(names[i], allocations[j]));
        if added.Err? {
          return added;
        }
        entries := added.value;
        j := j + 1;
      }
      OwnersInAt(names[i], allocations, j, later);
      i := i + 1;
    }
    AllocationOwnersAt(config, names, i);
    RenderOwnersCons(config, context, project, entries, RootOwner, []);
    return Ok(entries);
  }
}
