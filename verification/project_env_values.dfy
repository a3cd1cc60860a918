/** Where the value of a placeholder comes from, end to end, and what the errors of renderer and
    shape check tell about the configuration. */
module ProjectEnvValues {
  import opened Text
  import opened Config
  import opened Ordered
  import opened Placeholders
  import opened PlaceholderForms
  import opened ProjectEnv
  import opened ProjectEnvLaws

  // ------------------------------------------------------------------
  // The values offered
  // ------------------------------------------------------------------

  function NotEmpty(value: string): Option<string> {
    if value == "" then None else Some(value)
  }

  /** A project offers its address and the three paths of its certificates, as far as it has
      them. */
  function OfProject(context: ProjectContext, name: string): Option<string> {
    if name == "project_url" then
      if context.primaryHostname == "" then None else Some("https://" + context.primaryHostname)
    else if name == "tls_ca" then NotEmpty(context.tlsCaPath)
    else if name == "tls_cert" then NotEmpty(context.tlsCertPath)
    else if name == "tls_key" then NotEmpty(context.tlsKeyPath)
    else None
  }

  function Lookup(values: EnvMap, name: string): Option<string> {
    if name in values then Some(values[name]) else None
  }

  function OrElse(first: Option<string>, second: Option<string>): Option<string> {
    if first.Some? then first else second
  }

  /** What an owner's templates read under a name: the project's value, or else the allocation's,
      or else its generated name, or else the resource's. */
  function Offered(context: ProjectContext, owner: Owner, name: string): Option<string> {
    match owner
    case RootOwner => OfProject(context, name)
    case ResourceOwner(r) =>
      if r !in context.resources then None
      else OrElse(OfProject(context, name), Lookup(context.resources[r].values, name))
    case AllocationOwner(r, a) =>
      if r !in context.resources || a !in context.resources[r].allocations then None
      else
        var allocation := context.resources[r].allocations[a];
        var generated := if name == "generated_name" then NotEmpty(allocation.generatedName) else None;
        OrElse(OfProject(context, name),
          OrElse(Lookup(allocation.values, name), OrElse(generated, Lookup(context.resources[r].values, name))))
  }

  lemma ProjectOffers(context: ProjectContext, serve: bool, name: string)
    requires ProjectValues(context, serve).Ok?
    ensures Lookup(ProjectValues(context, serve).value, name) == OfProject(context, name)
  {
  }

  /** The maps the renderer lays over each other offer exactly these values. */
  lemma ContextOffers(context: ProjectContext, serve: bool, owner: Owner, name: string)
    requires ProjectValues(context, serve).Ok?
    requires ContextOf(context, ProjectValues(context, serve).value, owner).Ok?
    ensures Lookup(ContextOf(context, ProjectValues(context, serve).value, owner).value, name)
      == Offered(context, owner, name)
  {
    ProjectOffers(context, serve, name);
    hide ProjectValues, OfProject;
  }

  /** What the renderer asks for beforehand: an address if the project serves, and the contexts of
      the resource and the allocation. */
  lemma ContextExact(context: ProjectContext, serve: bool, project: EnvMap, owner: Owner)
    ensures ProjectValues(context, serve).Err? <==> serve && context.primaryHostname == ""
    ensures ProjectValues(context, serve).Err? ==>
      ProjectValues(context, serve).error == MissingEnvContext("project.primary_hostname", "project_url")
    ensures !owner.RootOwner? && owner.resource !in context.resources ==>
      ContextOf(context, project, owner) == Err(MissingResourceEnvContext(owner.resource))
    ensures
      && owner.AllocationOwner? && owner.resource in context.resources
      && owner.allocation !in context.resources[owner.resource].allocations ==>
        ContextOf(context, project, owner) == Err(MissingAllocationEnvContext(owner.resource, owner.allocation))
    ensures ContextOf(context, project, owner).Ok? <==>
      && (owner.RootOwner? || owner.resource in context.resources)
      && (owner.AllocationOwner? ==> owner.allocation in context.resources[owner.resource].allocations)
  {
  }

  /** End to end: where the deepest owner of a key puts a placeholder between plain characters,
      the rendered environment has the value offered to that owner between those characters. */
  lemma PlaceholderEndToEnd(config: ProjectConfig, context: ProjectContext, owner: Owner, key: string,
                            s: string, name: string, t: string)
    requires RenderConfig(config, context).Ok? && Wins(config, owner, key) && '}' !in name
    requires EnvOf(config, owner)[key] == DoubleDollars(s) + "${" + name + "}" + DoubleDollars(t)
    ensures key in RenderConfig(config, context).value
    ensures Offered(context, owner, name).Some?
    ensures RenderConfig(config, context).value[key] == s + Offered(context, owner, name).value + t
  {
    RenderRefinesLookup(config, context);
    hide RenderConfig, RenderValue, Wins, ContextOf, ProjectValues, Offered, Source;
    var project := ProjectValues(context, config.serve).value;
    var values := ContextOf(context, project, owner).value;
    ContextOffers(context, config.serve, owner, name);
    EscapeRoundTrip(t, Source(owner, key), Registry(map[], map[]), Project, values);
    PlaceholderRenders(Source(owner, key), s, name, DoubleDollars(t), values);
  }

  /** Plain characters come through as they are. */
  lemma PlainEndToEnd(config: ProjectConfig, context: ProjectContext, owner: Owner, key: string, s: string)
    requires RenderConfig(config, context).Ok? && Wins(config, owner, key)
    requires EnvOf(config, owner)[key] == DoubleDollars(s)
    ensures key in RenderConfig(config, context).value && RenderConfig(config, context).value[key] == s
  {
    RenderRefinesLookup(config, context);
    hide RenderConfig, RenderValue, Wins, ContextOf, ProjectValues, Source;
    var values := ContextOf(context, ProjectValues(context, config.serve).value, owner).value;
    EscapeRoundTrip(s, Source(owner, key), Registry(map[], map[]), Project, values);
  }

  /** A project that serves nothing leaves a key out of its environment where every entry for it
      names a serving value, and no other one. */
  lemma ServingLeftOut(config: ProjectConfig, context: ProjectContext, key: string)
    requires RenderConfig(config, context).Ok?
    ensures key in RenderConfig(config, context).value <==>
      exists o :: key in EnvOf(config, o) && (config.serve || !NamesServing(EnvOf(config, o)[key]))
  {
    hide RenderConfig, EnvOf, NamesServing, GivenBy, Wins, ProjectValues, Binds;
    RenderRefinesLookup(config, context);
    forall o
      ensures Binds(config, o, key) <==>
        key in EnvOf(config, o) && (config.serve || !NamesServing(EnvOf(config, o)[key]))
    {
      BindsByForm(config, o, key);
    }
  }

  lemma BindsByForm(config: ProjectConfig, o: Owner, key: string)
    ensures Binds(config, o, key) <==>
      key in EnvOf(config, o) && (config.serve || !NamesServing(EnvOf(config, o)[key]))
  {
    hide EnvOf, UsesServing, NamesServing;
    if key in EnvOf(config, o) {
      ServingByForm(EnvOf(config, o)[key]);
    }
  }

  /** One of the four serving names stands in a placeholder of the text; what comes before it may
      be anything, as long as the placeholder is one of the text's tokens. */
  ghost predicate NamesServing(value: string) {
    exists i :: 0 <= i < |LenientTokens(value)|
      && LenientTokens(value)[i] in {Placeholder("project_url"), Placeholder("tls_ca"), Placeholder("tls_cert"),
                                     Placeholder("tls_key")}
  }

  lemma ServingByForm(value: string)
    ensures UsesServing(value) <==> NamesServing(value)
  {
    hide LenientTokensFrom;
    var tokens := LenientTokens(value);
    HasPlaceholderExact(tokens, SERVING_PLACEHOLDERS);
    if name :| name in SERVING_PLACEHOLDERS && Names(tokens, name) {
      var i :| 0 <= i < |tokens| && tokens[i] == Placeholder(name);
    }
    if NamesServing(value) {
      var i :| 0 <= i < |tokens|
        && tokens[i] in {Placeholder("project_url"), Placeholder("tls_ca"), Placeholder("tls_cert"),
                         Placeholder("tls_key")};
      assert Names(tokens, tokens[i].name);
    }
  }

  // ------------------------------------------------------------------
  // What a duplicate tells
  // ------------------------------------------------------------------

  /** How the entries are named in errors. */
  lemma SourceTexts(r: string, a: string, key: string)
    ensures Source(RootOwner, key) == "env." + key
    ensures Source(ResourceOwner(r), key) == r + ".env." + key
    ensures Source(AllocationOwner(r, a), key) == r + ".allocations." + a + ".env." + key
  {
    assert "env" + "." == "env." && ".env" + "." == ".env.";
    assert (r + ".env") + "." + key == r + (".env" + ".") + key;
    assert (r + ".allocations." + a + ".env") + "." + key == r + ".allocations." + a + (".env" + ".") + key;
  }

  /** The order owners are visited in: by resource, then by allocation. */
  predicate Visited(a: Owner, b: Owner) {
    match (a, b)
    case (ResourceOwner(r), ResourceOwner(q)) => Below(r, q)
    case (AllocationOwner(r, n), AllocationOwner(q, m)) => Below(r, q) || (r == q && Below(n, m))
    case _ => false
  }

  ghost predicate InOrder(owners: seq<Owner>) {
    forall i, j :: 0 <= i < j < |owners| ==> Visited(owners[i], owners[j])
  }

  lemma ResourcesInOrder(config: ProjectConfig)
    ensures InOrder(AllResourceOwners(config))
  {
    ResourceOwnersListed(Sorted(config.resources.Keys));
  }

  lemma {:induction false} AllocationsInOrder(config: ProjectConfig, names: seq<string>)
    requires forall r :: r in names ==> r in config.resources
    requires forall i, j :: 0 <= i < j < |names| ==> Below(names[i], names[j])
    ensures InOrder(AllocationOwners(config, names))
  {
    hide Sorted, OwnersIn, Below;
    if names != [] {
      var allocations := Sorted(config.resources[names[0]].allocations.Keys);
      OwnersInListed(names[0], allocations);
      SortedDistinct(config.resources[names[0]].allocations.Keys);
      AllocationsInOrder(config, names[1..]);
      DistinctNames(names[1..]);
      AllocationOwnersListed(config, names[1..]);
      var first, rest := OwnersIn(names[0], allocations), AllocationOwners(config, names[1..]);
      forall i, j | 0 <= i < |first| && 0 <= j < |rest| ensures Visited(first[i], rest[j]) {
        assert rest[j] in rest;
      }
    }
  }

  lemma AllAllocationsInOrder(config: ProjectConfig)
    ensures InOrder(AllAllocationOwners(config))
  {
    AllocationsInOrder(config, Sorted(config.resources.Keys));
  }

  lemma DistinctNames(names: seq<string>)
    requires forall i, j :: 0 <= i < j < |names| ==> Below(names[i], names[j])
    ensures Distinct(names)
  {
    forall i, j | 0 <= i < j < |names| ensures names[i] != names[j] {
      BelowTrichotomy(names[i], names[j]);
    }
  }

  /** Every source recorded is that of one of the first n owners. */
  ghost predicate Owned(config: ProjectConfig, sources: Sources, owners: seq<Owner>, n: nat) {
    n <= |owners| && forall k :: k in sources ==>
      exists i :: 0 <= i < n && Binds(config, owners[i], k) && sources[k] == Source(owners[i], k)
  }

  lemma {:induction false} SlotsError(serve: bool, owner: Owner, env: EnvMap, keys: seq<string>, sources: Sources)
    requires forall k :: k in keys ==> k in env
    requires Distinct(keys)
    ensures var checked := CheckSlots(sources, SlotsFor(serve, owner, env, keys));
      && (checked.Err? ==> exists k ::
           k in keys && Kept(serve, env[k]) && k in sources
           && checked.error == DuplicateRenderedEnvKey(k, sources[k], Source(owner, k)))
      && (checked.Ok? ==> forall k :: k in checked.value ==>
           || (k in sources && checked.value[k] == sources[k])
           || (k in keys && Kept(serve, env[k]) && checked.value[k] == Source(owner, k)))
    decreases |keys|
  {
    hide Kept, Source;
    if keys != [] {
      var key := keys[0];
      CheckSlotsAt(serve, owner, env, keys, 0, sources);
      assert keys[0..] == keys;
      assert keys == [key] + keys[1..] && key !in keys[1..];
      var more := if Kept(serve, env[key]) then sources[key := Source(owner, key)] else sources;
      SlotsError(serve, owner, env, keys[1..], more);
    }
  }

  lemma OwnerError(config: ProjectConfig, sources: Sources, owner: Owner)
    ensures var checked := CheckSlots(sources, SlotsOf(config, owner));
      && (checked.Err? ==> exists k ::
           Binds(config, owner, k) && k in sources
           && checked.error == DuplicateRenderedEnvKey(k, sources[k], Source(owner, k)))
      && (checked.Ok? ==> forall k :: k in checked.value ==>
           || (k in sources && checked.value[k] == sources[k])
           || (Binds(config, owner, k) && checked.value[k] == Source(owner, k)))
  {
    hide Kept, Source, CheckSlots, SlotsFor;
    var env := EnvOf(config, owner);
    SortedDistinct(env.Keys);
    SlotsError(config.serve, owner, env, Sorted(env.Keys), sources);
  }

  /** Two owners of one depth, visited in this order, give the key the error names. */
  ghost predicate Clash(config: ProjectConfig, a: Owner, b: Owner, error: ConfigError) {
    && error.DuplicateRenderedEnvKey?
    && Visited(a, b) && Binds(config, a, error.key) && Binds(config, b, error.key)
    && error.first == Source(a, error.key) && error.second == Source(b, error.key)
  }

  lemma {:induction false} OwnersError(config: ProjectConfig, sources: Sources, owners: seq<Owner>, n: nat)
    requires Owned(config, sources, owners, n) && InOrder(owners)
    requires CheckOwners(config, sources, owners[n..]).Err?
    ensures exists a, b ::
      a in owners && b in owners && Clash(config, a, b, CheckOwners(config, sources, owners[n..]).error)
    decreases |owners| - n
  {
    hide Binds, CheckSlots, SlotsOf, Source, Visited;
    OwnerError(config, sources, owners[n]);
    var checked := CheckSlots(sources, SlotsOf(config, owners[n]));
    assert owners[n..][0] == owners[n] && owners[n..][1..] == owners[n + 1..];
    if checked.Ok? {
      forall k | k in checked.value
        ensures exists i :: 0 <= i < n + 1 && Binds(config, owners[i], k) && checked.value[k] == Source(owners[i], k)
      {
        if k in sources && checked.value[k] == sources[k] {
          var i :| 0 <= i < n && Binds(config, owners[i], k) && sources[k] == Source(owners[i], k);
        }
      }
      OwnersError(config, checked.value, owners, n + 1);
    } else {
      var k :| Binds(config, owners[n], k) && k in sources
        && checked.error == DuplicateRenderedEnvKey(k, sources[k], Source(owners[n], k));
      var i :| 0 <= i < n && Binds(config, owners[i], k) && sources[k] == Source(owners[i], k);
      assert Clash(config, owners[i], owners[n], checked.error);
    }
  }

  /** The shape check, when it fails, names a key two owners of one depth give, and both of them
      in the order they are visited in. */
  lemma DuplicateTold(config: ProjectConfig)
    requires CheckShape(config).Err?
    ensures exists a, b :: Clash(config, a, b, CheckShape(config).error)
  {
    hide CheckOwners, Clash, AllResourceOwners, AllAllocationOwners;
    var resources, allocations := AllResourceOwners(config), AllAllocationOwners(config);
    assert resources[0..] == resources && allocations[0..] == allocations;
    if CheckOwners(config, map[], resources).Err? {
      ResourcesInOrder(config);
      OwnersError(config, map[], resources, 0);
    } else {
      AllAllocationsInOrder(config);
      OwnersError(config, map[], allocations, 0);
    }
  }

  // ------------------------------------------------------------------
  // What the other errors tell
  // ------------------------------------------------------------------

  /** An owner with entries lacks its context, or one of its kept entries does not render. */
  ghost predicate OwnerFails(config: ProjectConfig, context: ProjectContext, project: EnvMap, owner: Owner,
                             error: ConfigError)
  {
    && EnvOf(config, owner) != map[]
    && (|| ContextOf(context, project, owner) == Err(error)
        || (ContextOf(context, project, owner).Ok? && exists key ::
             Binds(config, owner, key)
             && RenderValue(Source(owner, key), EnvOf(config, owner)[key], ContextOf(context, project, owner).value)
               == Err(error)))
  }

  lemma {:induction false} RenderSlotsError(serve: bool, owner: Owner, env: EnvMap, keys: seq<string>, values: EnvMap)
    requires forall k :: k in keys ==> k in env
    requires RenderSlots(SlotsFor(serve, owner, env, keys), values).Err?
    ensures exists k ::
      k in keys && Kept(serve, env[k])
      && RenderValue(Source(owner, k), env[k], values)
        == Err(RenderSlots(SlotsFor(serve, owner, env, keys), values).error)
    decreases |keys|
  {
    hide RenderValue, Kept, Source;
    var key := keys[0];
    assert keys == [key] + keys[1..];
    if !Kept(serve, env[key]) {
      RenderSlotsError(serve, owner, env, keys[1..], values);
    } else {
      assert SlotsFor(serve, owner, env, keys)[1..] == SlotsFor(serve, owner, env, keys[1..]);
      if RenderValue(Source(owner, key), env[key], values).Ok? {
        RenderSlotsError(serve, owner, env, keys[1..], values);
      }
    }
  }

  lemma SlotsOfError(config: ProjectConfig, owner: Owner, values: EnvMap)
    requires RenderSlots(SlotsOf(config, owner), values).Err?
    ensures exists key ::
      Binds(config, owner, key)
      && RenderValue(Source(owner, key), EnvOf(config, owner)[key], values)
        == Err(RenderSlots(SlotsOf(config, owner), values).error)
  {
    hide RenderValue, Kept, Source, RenderSlots, SlotsFor, Sorted;
    var env := EnvOf(config, owner);
    RenderSlotsError(config.serve, owner, env, Sorted(env.Keys), values);
  }

  lemma {:induction false} InsertError(entries: Entries, more: seq<Rendered>)
    ensures InsertEntries(entries, more).Err? ==> InsertEntries(entries, more).error.DuplicateRenderedEnvKey?
    decreases |more|
  {
    if more != [] && more[0].key !in entries {
      InsertError(entries[more[0].key := more[0]], more[1..]);
    }
  }

  lemma {:induction false} OwnersFail(config: ProjectConfig, context: ProjectContext, project: EnvMap,
                                      entries: Entries, owners: seq<Owner>)
    requires RenderOwners(config, context, project, entries, owners).Err?
    requires !RenderOwners(config, context, project, entries, owners).error.DuplicateRenderedEnvKey?
    ensures exists o ::
      o in owners
      && OwnerFails(config, context, project, o, RenderOwners(config, context, project, entries, owners).error)
    decreases |owners|
  {
    hide Binds, RenderValue, Source, RenderSlots, SlotsOf, InsertEntries, ContextOf, EnvOf;
    var owner := owners[0];
    assert owners == [owner] + owners[1..];
    var added := RenderOwner(config, context, project, entries, owner);
    if added.Ok? {
      OwnersFail(config, context, project, added.value, owners[1..]);
    } else {
      var values := ContextOf(context, project, owner);
      if values.Ok? {
        var rendered := RenderSlots(SlotsOf(config, owner), values.value);
        if rendered.Err? {
          SlotsOfError(config, owner, values.value);
        } else {
          InsertError(entries, rendered.value);
        }
      }
      assert OwnerFails(config, context, project, owner, added.error);
    }
  }

  /** A project that serves without an address is reported before anything else; any other
      error but a duplicate is that of an owner whose context is missing or of a kept entry that
      does not render. */
  lemma ErrorTold(config: ProjectConfig, context: ProjectContext)
    requires RenderConfig(config, context).Err?
    ensures config.serve && context.primaryHostname == "" ==>
      RenderConfig(config, context).error == MissingEnvContext("project.primary_hostname", "project_url")
    ensures !(config.serve && context.primaryHostname == "") ==>
      var error := RenderConfig(config, context).error;
      error.DuplicateRenderedEnvKey?
      || exists o :: OwnerFails(config, context, ProjectValues(context, config.serve).value, o, error)
  {
    hide RenderSlots, RenderOwners, AllResourceOwners, AllAllocationOwners, EntryMap, SlotsOf, OwnerFails;
    if ProjectValues(context, config.serve).Ok? {
      var project := ProjectValues(context, config.serve).value;
      var error := RenderConfig(config, context).error;
      if RenderSlots(SlotsOf(config, RootOwner), project).Err? {
        RootFails(config, context, project);
      } else if !error.DuplicateRenderedEnvKey? {
        if RenderOwners(config, context, project, map[], AllResourceOwners(config)).Err? {
          OwnersFail(config, context, project, map[], AllResourceOwners(config));
        } else {
          OwnersFail(config, context, project, map[], AllAllocationOwners(config));
        }
      }
    }
  }

  lemma RootFails(config: ProjectConfig, context: ProjectContext, project: EnvMap)
    requires RenderSlots(SlotsOf(config, RootOwner), project).Err?
    ensures OwnerFails(config, context, project, RootOwner, RenderSlots(SlotsOf(config, RootOwner), project).error)
  {
    hide RenderSlots, SlotsOf, RenderValue, Source, Kept;
    SlotsOfError(config, RootOwner, project);
  }
}
