/** What the layered renderer and the shape check mean: the renderer refines a lookup of
    the deepest owner, and it and the checker agree on duplicate keys. */
module ProjectEnvLaws {
  import opened Text
  import opened Config
  import opened Ordered
  import opened Placeholders
  import opened ProjectEnv

  // ------------------------------------------------------------------
  // Renderer and checker agree on duplicates
  // ------------------------------------------------------------------

  function SourcesOf(entries: Entries): Sources {
    map key | key in entries :: entries[key].source
  }

  lemma {:induction false} RenderSlotsErrors(slots: seq<Slot>, values: EnvMap)
    ensures RenderSlots(slots, values).Err? ==> !RenderSlots(slots, values).error.DuplicateRenderedEnvKey?
    ensures RenderSlots(slots, values).Ok? ==> |RenderSlots(slots, values).value| == |slots|
  {
    if slots != [] {
      RenderSlotsErrors(slots[1..], values);
      RenderTokensErrors(Source(slots[0].owner, slots[0].key), Tokens(slots[0].template), values);
    }
  }

  lemma {:induction false} RenderTokensErrors(field: string, tokens: seq<Token>, values: EnvMap)
    ensures RenderTokens(field, tokens, values).Err? ==>
      !RenderTokens(field, tokens, values).error.DuplicateRenderedEnvKey?
  {
    if tokens != [] {
      RenderTokensErrors(field, tokens[1..], values);
    }
  }

  /** Inserting rendered entries succeeds or fails exactly as inserting their keys. */
  lemma {:induction false} InsertAgrees(entries: Entries, slots: seq<Slot>, values: EnvMap)
    requires RenderSlots(slots, values).Ok?
    ensures var inserted := InsertEntries(entries, RenderSlots(slots, values).value);
      CheckSlots(SourcesOf(entries), slots) ==
        if inserted.Ok? then Ok(SourcesOf(inserted.value)) else Err(inserted.error)
    decreases |slots|
  {
    if slots != [] {
      hide RenderValue, Source;
      var rendered := RenderSlots(slots, values).value;
      assert rendered[1..] == RenderSlots(slots[1..], values).value;
      if rendered[0].key !in entries {
        var more := entries[rendered[0].key := rendered[0]];
        InsertAgrees(more, slots[1..], values);
        assert SourcesOf(more) == SourcesOf(entries)[rendered[0].key := rendered[0].source];
      }
    }
  }

  lemma OwnerAgrees(config: ProjectConfig, context: ProjectContext, project: EnvMap, entries: Entries, owner: Owner)
    ensures var rendered := RenderOwner(config, context, project, entries, owner);
      var checked := CheckSlots(SourcesOf(entries), SlotsOf(config, owner));
      && (rendered.Ok? ==> checked == Ok(SourcesOf(rendered.value)))
      && (rendered.Err? && rendered.error.DuplicateRenderedEnvKey? ==> checked == Err(rendered.error))
  {
    hide RenderSlots, InsertEntries, CheckSlots, SlotsOf;
    if EnvOf(config, owner) == map[] {
      NoSlots(config, owner, SourcesOf(entries));
    } else {
      var values := ContextOf(context, project, owner);
      if values.Ok? {
        var slots := SlotsOf(config, owner);
        RenderSlotsErrors(slots, values.value);
        if RenderSlots(slots, values.value).Ok? {
          InsertAgrees(entries, slots, values.value);
        }
      }
    }
  }

  lemma {:induction false} OwnersAgree(config: ProjectConfig, context: ProjectContext, project: EnvMap,
                                       entries: Entries, owners: seq<Owner>)
    ensures var rendered := RenderOwners(config, context, project, entries, owners);
      var checked := CheckOwners(config, SourcesOf(entries), owners);
      && (rendered.Ok? ==> checked == Ok(SourcesOf(rendered.value)))
      && (rendered.Err? && rendered.error.DuplicateRenderedEnvKey? ==> checked == Err(rendered.error))
    decreases |owners|
  {
    hide RenderOwner, CheckSlots, SlotsOf, SourcesOf;
    if owners != [] {
      OwnerAgrees(config, context, project, entries, owners[0]);
      var added := RenderOwner(config, context, project, entries, owners[0]);
      if added.Ok? {
        OwnersAgree(config, context, project, added.value, owners[1..]);
      }
    }
  }

  lemma NoSlots(config: ProjectConfig, owner: Owner, sources: Sources)
    requires EnvOf(config, owner) == map[]
    ensures CheckSlots(sources, SlotsOf(config, owner)) == Ok(sources)
  {
    assert Sorted(EnvOf(config, owner).Keys) == [];
  }

  /** A successful render implies the shape check passes; a passing shape check excludes
      duplicate-key errors; and a duplicate the renderer reports is the checker's own:
      the same key with the same two sources. */
  lemma RendererAndCheckerAgree(config: ProjectConfig, context: ProjectContext)
    ensures RenderConfig(config, context).Ok? ==> CheckShape(config).Ok?
    ensures RenderConfig(config, context).Err? && RenderConfig(config, context).error.DuplicateRenderedEnvKey? ==>
      CheckShape(config) == Err(RenderConfig(config, context).error)
  {
    hide RenderOwners, CheckOwners, RenderSlots;
    assert SourcesOf(map[]) == map[];
    var project := ProjectValues(context, config.serve);
    if project.Ok? {
      RenderSlotsErrors(SlotsOf(config, RootOwner), project.value);
      OwnersAgree(config, context, project.value, map[], AllResourceOwners(config));
      OwnersAgree(config, context, project.value, map[], AllAllocationOwners(config));
    }
  }

  // ------------------------------------------------------------------
  // The shape check, declaratively
  // ------------------------------------------------------------------

  /** One owner's keys are inserted exactly when none is present already. */
  lemma {:induction false} CheckSlotsExact(serve: bool, owner: Owner, env: EnvMap, keys: seq<string>, sources: Sources)
    requires forall k :: k in keys ==> k in env
    requires forall i, j :: 0 <= i < j < |keys| ==> keys[i] != keys[j]
    ensures var checked := CheckSlots(sources, SlotsFor(serve, owner, env, keys));
      && (checked.Ok? <==> forall k :: k in keys && Kept(serve, env[k]) ==> k !in sources)
      && (checked.Ok? ==> forall k :: k in checked.value <==> k in sources || (k in keys && Kept(serve, env[k])))
    decreases |keys|
  {
    hide UsesServing, Source;
    if keys != [] {
      var key := keys[0];
      CheckSlotsAt(serve, owner, env, keys, 0, sources);
      assert keys[0..] == keys;
      assert keys == [key] + keys[1..] && key !in keys[1..];
      if Kept(serve, env[key]) {
        CheckSlotsExact(serve, owner, env, keys[1..], sources[key := Source(owner, key)]);
      } else {
        CheckSlotsExact(serve, owner, env, keys[1..], sources);
      }
    }
  }

  lemma CheckOwnerExact(config: ProjectConfig, owner: Owner, sources: Sources)
    ensures var checked := CheckSlots(sources, SlotsOf(config, owner));
      && (checked.Ok? <==> forall k :: Binds(config, owner, k) ==> k !in sources)
      && (checked.Ok? ==> forall k :: k in checked.value <==> k in sources || Binds(config, owner, k))
  {
    hide UsesServing, CheckSlots, SlotsFor;
    var env := EnvOf(config, owner);
    SortedDistinct(env.Keys);
    CheckSlotsExact(config.serve, owner, env, Sorted(env.Keys), sources);
  }

  /** No key is given by two owners of the list or is present already. */
  ghost predicate OwnersDisjoint(config: ProjectConfig, sources: Sources, owners: seq<Owner>) {
    && (forall i, k :: 0 <= i < |owners| && Binds(config, owners[i], k) ==> k !in sources)
    && (forall i, j, k :: 0 <= i < |owners| && 0 <= j < |owners| && i != j && Binds(config, owners[i], k) ==>
          !Binds(config, owners[j], k))
  }

  lemma {:induction false} CheckOwnersExact(config: ProjectConfig, sources: Sources, owners: seq<Owner>)
    ensures CheckOwners(config, sources, owners).Ok? <==> OwnersDisjoint(config, sources, owners)
    decreases |owners|
  {
    hide Binds, CheckSlots, SlotsOf;
    if owners != [] {
      CheckOwnerExact(config, owners[0], sources);
      var checked := CheckSlots(sources, SlotsOf(config, owners[0]));
      if checked.Ok? {
        CheckOwnersExact(config, checked.value, owners[1..]);
        DisjointTail(config, sources, checked.value, owners);
      } else {
        var k :| Binds(config, owners[0], k) && k in sources;
      }
    }
  }

  lemma DisjointTail(config: ProjectConfig, sources: Sources, more: Sources, owners: seq<Owner>)
    requires owners != []
    requires forall k :: Binds(config, owners[0], k) ==> k !in sources
    requires forall k :: k in more <==> k in sources || Binds(config, owners[0], k)
    ensures OwnersDisjoint(config, more, owners[1..]) <==> OwnersDisjoint(config, sources, owners)
  {
    hide Binds;
    var tail := owners[1..];
    if OwnersDisjoint(config, more, tail) {
      forall i, j, k | 0 <= i < |owners| && 0 <= j < |owners| && i != j && Binds(config, owners[i], k)
        ensures !Binds(config, owners[j], k)
      {
        if j > 0 {
          assert owners[j] == tail[j - 1];
        }
        if i > 0 {
          assert owners[i] == tail[i - 1];
        }
      }
      forall i, k | 0 <= i < |owners| && Binds(config, owners[i], k) ensures k !in sources {
        if i > 0 {
          assert owners[i] == tail[i - 1];
        }
      }
    }
    if OwnersDisjoint(config, sources, owners) {
      forall i, k | 0 <= i < |tail| && Binds(config, tail[i], k) ensures k !in more {
        assert tail[i] == owners[i + 1];
      }
    }
  }

  lemma {:induction false} ResourceOwnersListed(names: seq<string>)
    ensures |ResourceOwners(names)| == |names|
    ensures forall i :: 0 <= i < |names| ==> ResourceOwners(names)[i] == ResourceOwner(names[i])
  {
    if names != [] {
      ResourceOwnersListed(names[1..]);
    }
  }

  lemma {:induction false} OwnersInListed(resource: string, allocations: seq<string>)
    ensures |OwnersIn(resource, allocations)| == |allocations|
    ensures forall i :: 0 <= i < |allocations| ==>
      OwnersIn(resource, allocations)[i] == AllocationOwner(resource, allocations[i])
  {
    if allocations != [] {
      OwnersInListed(resource, allocations[1..]);
    }
  }

  lemma AllResourceOwnersListed(config: ProjectConfig)
    ensures forall o: Owner :: o in AllResourceOwners(config) <==> o.ResourceOwner? && o.resource in config.resources
    ensures Distinct(AllResourceOwners(config))
  {
    var names := Sorted(config.resources.Keys);
    ResourceOwnersListed(names);
    SortedDistinct(config.resources.Keys);
    var owners := AllResourceOwners(config);
    forall o: Owner | o.ResourceOwner? && o.resource in config.resources ensures o in owners {
      var i :| 0 <= i < |names| && names[i] == o.resource;
      assert owners[i] == o;
    }
  }

  ghost predicate Distinct<T(!new)>(s: seq<T>) {
    forall i, j :: 0 <= i < j < |s| ==> s[i] != s[j]
  }

  lemma DistinctConcat<T(!new)>(a: seq<T>, b: seq<T>)
    requires Distinct(a) && Distinct(b)
    requires forall x :: x in a ==> x !in b
    ensures Distinct(a + b)
  {
    var s := a + b;
    forall i, j | 0 <= i < j < |s| ensures s[i] != s[j] {
      if i < |a| <= j {
        assert s[i] in a && s[j] == b[j - |a|];
      }
    }
  }

  lemma OwnersInExact(resource: string, allocations: seq<string>)
    requires Distinct(allocations)
    ensures Distinct(OwnersIn(resource, allocations))
    ensures forall o: Owner :: o in OwnersIn(resource, allocations) <==>
      o.AllocationOwner? && o.resource == resource && o.allocation in allocations
  {
    OwnersInListed(resource, allocations);
    hide OwnersIn;
    var owners := OwnersIn(resource, allocations);
    forall o: Owner | o.AllocationOwner? && o.resource == resource && o.allocation in allocations
      ensures o in owners
    {
      var i :| 0 <= i < |allocations| && allocations[i] == o.allocation;
      assert owners[i] == o;
    }
  }

  lemma {:induction false} AllocationOwnersListed(config: ProjectConfig, names: seq<string>)
    requires forall r :: r in names ==> r in config.resources
    requires Distinct(names)
    ensures Distinct(AllocationOwners(config, names))
    ensures forall o: Owner :: o in AllocationOwners(config, names) <==>
      o.AllocationOwner? && o.resource in names && o.allocation in config.resources[o.resource].allocations
  {
    hide Sorted, OwnersIn;
    if names != [] {
      var r := names[0];
      var keys := config.resources[r].allocations.Keys;
      SortedDistinct(keys);
      OwnersInExact(r, Sorted(keys));
      AllocationOwnersListed(config, names[1..]);
      assert r !in names[1..] && names == [r] + names[1..];
      DistinctConcat(OwnersIn(r, Sorted(keys)), AllocationOwners(config, names[1..]));
    }
  }

  lemma AllAllocationOwnersListed(config: ProjectConfig)
    ensures var owners := AllAllocationOwners(config);
      && (forall o: Owner :: o in owners <==>
            o.AllocationOwner? && o.resource in config.resources
            && o.allocation in config.resources[o.resource].allocations)
      && Distinct(owners)
  {
    SortedDistinct(config.resources.Keys);
    AllocationOwnersListed(config, Sorted(config.resources.Keys));
  }

  /** A list of all owners that can bind at a depth decides the depth. */
  lemma DepthDisjoint(config: ProjectConfig, owners: seq<Owner>)
    requires Distinct(owners)
    ensures OwnersDisjoint(config, map[], owners) <==>
      forall a, b, k :: a in owners && b in owners && a != b && Binds(config, a, k) ==> !Binds(config, b, k)
  {
    hide Binds;
    if OwnersDisjoint(config, map[], owners) {
      forall a, b, k | a in owners && b in owners && a != b && Binds(config, a, k)
        ensures !Binds(config, b, k)
      {
        var i :| 0 <= i < |owners| && owners[i] == a;
        var j :| 0 <= j < |owners| && owners[j] == b;
      }
    }
  }

  lemma BinderListed(config: ProjectConfig, owner: Owner, key: string)
    requires Binds(config, owner, key)
    ensures owner.RootOwner? || owner in AllResourceOwners(config) || owner in AllAllocationOwners(config)
  {
    hide UsesServing, AllResourceOwners, AllAllocationOwners;
    AllResourceOwnersListed(config);
    AllAllocationOwnersListed(config);
  }

  /** The shape check passes exactly when no key has two owners at one depth. */
  lemma ShapeExact(config: ProjectConfig)
    ensures CheckShape(config).Ok? <==> ShapeValid(config)
  {
    hide CheckOwners, Binds, AllResourceOwners, AllAllocationOwners, OwnersDisjoint;
    var resources, allocations := AllResourceOwners(config), AllAllocationOwners(config);
    AllResourceOwnersListed(config);
    AllAllocationOwnersListed(config);
    CheckOwnersExact(config, map[], resources);
    CheckOwnersExact(config, map[], allocations);
    DepthDisjoint(config, resources);
    DepthDisjoint(config, allocations);
    forall o, key | Binds(config, o, key) ensures o.RootOwner? || o in resources || o in allocations {
      BinderListed(config, o, key);
    }
  }

  // ------------------------------------------------------------------
  // Rendering refines a lookup of the deepest owner
  // ------------------------------------------------------------------

  lemma {:induction false} RenderSlotsExact(serve: bool, owner: Owner, env: EnvMap, keys: seq<string>, values: EnvMap)
    requires forall k :: k in keys ==> k in env
    requires RenderSlots(SlotsFor(serve, owner, env, keys), values).Ok?
    ensures var rendered := RenderSlots(SlotsFor(serve, owner, env, keys), values).value;
      && (forall k :: k in keys && Kept(serve, env[k]) ==> exists i :: 0 <= i < |rendered| && rendered[i].key == k)
      && (forall i :: 0 <= i < |rendered| ==>
            && rendered[i].key in keys && Kept(serve, env[rendered[i].key])
            && RenderValue(Source(owner, rendered[i].key), env[rendered[i].key], values) == Ok(rendered[i].value))
    decreases |keys|
  {
    hide RenderValue, UsesServing, Source;
    if keys != [] {
      var key := keys[0];
      var slots := SlotsFor(serve, owner, env, keys);
      var rendered := RenderSlots(slots, values).value;
      assert keys == [key] + keys[1..];
      if Kept(serve, env[key]) {
        assert slots[1..] == SlotsFor(serve, owner, env, keys[1..]);
        RenderSlotsExact(serve, owner, env, keys[1..], values);
        var rest := RenderSlots(slots[1..], values).value;
        assert rendered == [rendered[0]] + rest;
        forall k | k in keys && Kept(serve, env[k]) ensures exists i :: 0 <= i < |rendered| && rendered[i].key == k {
          if k == key {
            assert rendered[0].key == k;
          } else {
            var i :| 0 <= i < |rest| && rest[i].key == k;
            assert rendered[i + 1].key == k;
          }
        }
      } else {
        RenderSlotsExact(serve, owner, env, keys[1..], values);
      }
    }
  }

  lemma {:induction false} InsertEntriesExact(entries: Entries, more: seq<Rendered>)
    requires InsertEntries(entries, more).Ok?
    ensures var inserted := InsertEntries(entries, more).value;
      && (forall k :: k in inserted <==> k in entries || exists i :: 0 <= i < |more| && more[i].key == k)
      && (forall k :: k in entries ==> inserted[k] == entries[k])
      && (forall i :: 0 <= i < |more| ==> more[i].key in inserted && inserted[more[i].key] == more[i])
    decreases |more|
  {
    if more != [] {
      InsertStep(entries, more);
      var first, rest := more[0], more[1..];
      var inserted := InsertEntries(entries, more).value;
      InsertEntriesExact(entries[first.key := first], rest);
      hide InsertEntries;
      forall k | k in inserted && k !in entries ensures exists i :: 0 <= i < |more| && more[i].key == k {
        if k == first.key {
          assert more[0].key == k;
        } else {
          var i :| 0 <= i < |rest| && rest[i].key == k;
          assert more[i + 1].key == k;
        }
      }
      forall i | 0 <= i < |more| ensures more[i].key in inserted && inserted[more[i].key] == more[i] {
        if i == 0 {
          assert first.key in entries[first.key := first];
        } else {
          assert more[i] == rest[i - 1];
        }
      }
    }
  }

  lemma InsertStep(entries: Entries, more: seq<Rendered>)
    requires more != [] && InsertEntries(entries, more).Ok?
    ensures more[0].key !in entries
    ensures InsertEntries(entries, more) == InsertEntries(entries[more[0].key := more[0]], more[1..])
  {
  }

  /** `value` is what `owner`'s entry for `key` renders to in `owner`'s own context. */
  ghost predicate GivenBy(config: ProjectConfig, context: ProjectContext, project: EnvMap,
                          owner: Owner, key: string, value: string)
  {
    && Binds(config, owner, key)
    && ContextOf(context, project, owner).Ok?
    && RenderValue(Source(owner, key), EnvOf(config, owner)[key], ContextOf(context, project, owner).value) == Ok(value)
  }

  lemma RenderOwnerExact(config: ProjectConfig, context: ProjectContext, project: EnvMap, entries: Entries,
                         owner: Owner)
    requires RenderOwner(config, context, project, entries, owner).Ok?
    ensures var more := RenderOwner(config, context, project, entries, owner).value;
      && (forall k :: k in more <==> k in entries || Binds(config, owner, k))
      && (forall k :: k in entries ==> more[k] == entries[k])
      && (forall k :: Binds(config, owner, k) ==> GivenBy(config, context, project, owner, k, more[k].value))
  {
    hide RenderValue, UsesServing, Source, RenderSlots, SlotsFor, InsertEntries, ContextOf;
    var env := EnvOf(config, owner);
    if env != map[] {
      var values := ContextOf(context, project, owner).value;
      var rendered := RenderSlots(SlotsOf(config, owner), values).value;
      RenderSlotsExact(config.serve, owner, env, Sorted(env.Keys), values);
      InsertEntriesExact(entries, rendered);
    }
  }

  lemma {:induction false} RenderOwnersExact(config: ProjectConfig, context: ProjectContext, project: EnvMap,
                                             entries: Entries, owners: seq<Owner>)
    requires RenderOwners(config, context, project, entries, owners).Ok?
    ensures var all := RenderOwners(config, context, project, entries, owners).value;
      && (forall k :: k in all <==> k in entries || exists o :: o in owners && Binds(config, o, k))
      && (forall k :: k in entries ==> all[k] == entries[k])
      && (forall o, k :: o in owners && Binds(config, o, k) ==> GivenBy(config, context, project, o, k, all[k].value))
    decreases |owners|
  {
    hide Binds, GivenBy, RenderOwner;
    if owners != [] {
      RenderOwnerExact(config, context, project, entries, owners[0]);
      var more := RenderOwner(config, context, project, entries, owners[0]).value;
      RenderOwnersExact(config, context, project, more, owners[1..]);
      assert forall o :: o in owners <==> o == owners[0] || o in owners[1..];
    }
  }

  lemma {:induction false} EntryMapExact(rendered: seq<Rendered>)
    ensures forall k :: k in EntryMap(rendered) <==> exists i :: 0 <= i < |rendered| && rendered[i].key == k
    ensures forall k :: k in EntryMap(rendered) ==>
      exists i :: 0 <= i < |rendered| && rendered[i].key == k && rendered[i].value == EntryMap(rendered)[k]
  {
    if rendered != [] {
      var last := |rendered| - 1;
      EntryMapExact(rendered[..last]);
      assert rendered[last].key == rendered[last].key;
      forall k | k in EntryMap(rendered)
        ensures exists i :: 0 <= i < |rendered| && rendered[i].key == k && rendered[i].value == EntryMap(rendered)[k]
      {
        if k == rendered[last].key {
          assert rendered[last].value == EntryMap(rendered)[k];
        } else {
          assert k in EntryMap(rendered[..last]);
          var i :| 0 <= i < last && rendered[..last][i].key == k
            && rendered[..last][i].value == EntryMap(rendered[..last])[k];
          assert rendered[i].key == k;
        }
      }
      forall i | 0 <= i < |rendered| ensures rendered[i].key in EntryMap(rendered) {
        if i < last {
          assert rendered[..last][i].key in EntryMap(rendered[..last]);
        }
      }
    }
  }

  lemma RootExact(config: ProjectConfig, context: ProjectContext, project: EnvMap)
    requires RenderSlots(SlotsOf(config, RootOwner), project).Ok?
    ensures var root := EntryMap(RenderSlots(SlotsOf(config, RootOwner), project).value);
      && (forall k :: k in root <==> Binds(config, RootOwner, k))
      && (forall k :: Binds(config, RootOwner, k) ==> GivenBy(config, context, project, RootOwner, k, root[k]))
  {
    hide RenderValue, UsesServing, Source, RenderSlots, SlotsFor, EntryMap;
    RenderSlotsExact(config.serve, RootOwner, config.env, Sorted(config.env.Keys), project);
    EntryMapExact(RenderSlots(SlotsOf(config, RootOwner), project).value);
  }

  /** A successful render holds exactly the keys some owner gives, each with the value the
      deepest owner of that key gives it: allocation over resource over root. */
  lemma RenderRefinesLookup(config: ProjectConfig, context: ProjectContext)
    requires RenderConfig(config, context).Ok?
    ensures ProjectValues(context, config.serve).Ok?
    ensures var values := RenderConfig(config, context).value;
      && (forall key :: key in values <==> exists owner :: Binds(config, owner, key))
      && (forall owner, key :: Wins(config, owner, key) ==>
            && key in values
            && GivenBy(config, context, ProjectValues(context, config.serve).value, owner, key, values[key]))
  {
    hide RenderSlots, RenderOwners, EntryMap, Binds, GivenBy, AllResourceOwners, AllAllocationOwners, ProjectValues;
    var project := ProjectValues(context, config.serve).value;
    var resourceOwners, allocationOwners := AllResourceOwners(config), AllAllocationOwners(config);
    AllResourceOwnersListed(config);
    AllAllocationOwnersListed(config);
    RootExact(config, context, project);
    RenderOwnersExact(config, context, project, map[], resourceOwners);
    RenderOwnersExact(config, context, project, map[], allocationOwners);
    forall o, key | Binds(config, o, key)
      ensures o.RootOwner? || o in resourceOwners || o in allocationOwners
    {
      BinderListed(config, o, key);
    }
    LayersRefineLookup(config, context, project, EntryMap(RenderSlots(SlotsOf(config, RootOwner), project).value),
      RenderOwners(config, context, project, map[], resourceOwners).value,
      RenderOwners(config, context, project, map[], allocationOwners).value);
  }

  /** Overlaying the three depths keeps, for each key, the deepest owner's value. */
  lemma LayersRefineLookup(config: ProjectConfig, context: ProjectContext, project: EnvMap,
                           root: EnvMap, resources: Entries, allocations: Entries)
    requires forall k :: k in root <==> Binds(config, RootOwner, k)
    requires forall k :: k in resources <==> exists o: Owner :: o.ResourceOwner? && Binds(config, o, k)
    requires forall k :: k in allocations <==> exists o: Owner :: o.AllocationOwner? && Binds(config, o, k)
    requires forall k :: k in root ==> GivenBy(config, context, project, RootOwner, k, root[k])
    requires forall o: Owner, k :: o.ResourceOwner? && Binds(config, o, k) ==>
      GivenBy(config, context, project, o, k, resources[k].value)
    requires forall o: Owner, k :: o.AllocationOwner? && Binds(config, o, k) ==>
      GivenBy(config, context, project, o, k, allocations[k].value)
    ensures var values := root + ValuesOf(resources) + ValuesOf(allocations);
      && (forall key :: key in values <==> exists owner :: Binds(config, owner, key))
      && (forall owner, key :: Wins(config, owner, key) ==>
            key in values && GivenBy(config, context, project, owner, key, values[key]))
  {
    hide Binds, GivenBy;
  }

  // ------------------------------------------------------------------
  // When rendering succeeds
  // ------------------------------------------------------------------

  /** An owner with entries has its context, and its kept entries render in it. */
  ghost predicate OwnerRenders(config: ProjectConfig, context: ProjectContext, project: EnvMap, owner: Owner) {
    EnvOf(config, owner) != map[] ==>
      && ContextOf(context, project, owner).Ok?
      && forall key :: Binds(config, owner, key) ==>
           RenderValue(Source(owner, key), EnvOf(config, owner)[key], ContextOf(context, project, owner).value).Ok?
  }

  lemma {:induction false} RenderSlotsOk(serve: bool, owner: Owner, env: EnvMap, keys: seq<string>, values: EnvMap)
    requires forall k :: k in keys ==> k in env
    ensures RenderSlots(SlotsFor(serve, owner, env, keys), values).Ok? <==>
      forall k :: k in keys && Kept(serve, env[k]) ==> RenderValue(Source(owner, k), env[k], values).Ok?
    decreases |keys|
  {
    hide RenderValue, Kept, Source;
    if keys != [] {
      assert keys == [keys[0]] + keys[1..];
      RenderSlotsOk(serve, owner, env, keys[1..], values);
      if Kept(serve, env[keys[0]]) {
        assert SlotsFor(serve, owner, env, keys)[1..] == SlotsFor(serve, owner, env, keys[1..]);
      }
    }
  }

  lemma SlotsOfOk(config: ProjectConfig, owner: Owner, values: EnvMap)
    ensures RenderSlots(SlotsOf(config, owner), values).Ok? <==>
      forall key :: Binds(config, owner, key) ==> RenderValue(Source(owner, key), EnvOf(config, owner)[key], values).Ok?
  {
    hide RenderValue, Kept, Source, RenderSlots, SlotsFor, Sorted;
    var env := EnvOf(config, owner);
    RenderSlotsOk(config.serve, owner, env, Sorted(env.Keys), values);
  }

  lemma OwnerOk(config: ProjectConfig, context: ProjectContext, project: EnvMap, entries: Entries, owner: Owner)
    ensures RenderOwner(config, context, project, entries, owner).Ok? <==>
      OwnerRenders(config, context, project, owner) && CheckSlots(SourcesOf(entries), SlotsOf(config, owner)).Ok?
  {
    hide RenderSlots, InsertEntries, CheckSlots, SlotsOf, Binds, ContextOf, RenderValue, Source;
    if EnvOf(config, owner) == map[] {
      NoSlots(config, owner, SourcesOf(entries));
    } else {
      var values := ContextOf(context, project, owner);
      if values.Ok? {
        SlotsOfOk(config, owner, values.value);
        if RenderSlots(SlotsOf(config, owner), values.value).Ok? {
          InsertAgrees(entries, SlotsOf(config, owner), values.value);
        }
      }
    }
  }

  lemma {:induction false} OwnersOk(config: ProjectConfig, context: ProjectContext, project: EnvMap,
                                    entries: Entries, owners: seq<Owner>)
    ensures RenderOwners(config, context, project, entries, owners).Ok? <==>
      && (forall o :: o in owners ==> OwnerRenders(config, context, project, o))
      && CheckOwners(config, SourcesOf(entries), owners).Ok?
    decreases |owners|
  {
    hide RenderOwner, CheckSlots, SlotsOf, SourcesOf, OwnerRenders;
    if owners != [] {
      assert owners == [owners[0]] + owners[1..];
      OwnerOk(config, context, project, entries, owners[0]);
      var added := RenderOwner(config, context, project, entries, owners[0]);
      if added.Ok? {
        OwnerAgrees(config, context, project, entries, owners[0]);
        OwnersOk(config, context, project, added.value, owners[1..]);
      }
    }
  }

  /** Rendering succeeds if and only if the project has its values, no key has two owners at one
      depth, every owner with entries has its context, and every kept entry renders in it. */
  lemma RenderSucceedsExactly(config: ProjectConfig, context: ProjectContext)
    ensures RenderConfig(config, context).Ok? <==>
      && ProjectValues(context, config.serve).Ok?
      && ShapeValid(config)
      && forall o :: OwnerRenders(config, context, ProjectValues(context, config.serve).value, o)
  {
    hide RenderSlots, RenderOwners, CheckOwners, AllResourceOwners, AllAllocationOwners, ProjectValues, OwnerRenders,
      EntryMap, ShapeValid, SlotsOf;
    var project := ProjectValues(context, config.serve);
    if project.Ok? {
      assert SourcesOf(map[]) == map[];
      ShapeExact(config);
      RootOk(config, context, project.value);
      OwnersOk(config, context, project.value, map[], AllResourceOwners(config));
      OwnersOk(config, context, project.value, map[], AllAllocationOwners(config));
      forall o: Owner | !(o.RootOwner? || o in AllResourceOwners(config) || o in AllAllocationOwners(config))
        ensures OwnerRenders(config, context, project.value, o)
      {
        UnlistedEmpty(config, context, project.value, o);
      }
    }
  }

  lemma RootOk(config: ProjectConfig, context: ProjectContext, project: EnvMap)
    ensures RenderSlots(SlotsOf(config, RootOwner), project).Ok? <==> OwnerRenders(config, context, project, RootOwner)
  {
    hide RenderSlots, SlotsOf, RenderValue, Source;
    SlotsOfOk(config, RootOwner, project);
  }

  lemma UnlistedEmpty(config: ProjectConfig, context: ProjectContext, project: EnvMap, o: Owner)
    requires !(o.RootOwner? || o in AllResourceOwners(config) || o in AllAllocationOwners(config))
    ensures OwnerRenders(config, context, project, o)
  {
    hide AllResourceOwners, AllAllocationOwners;
    AllResourceOwnersListed(config);
    AllAllocationOwnersListed(config);
    assert EnvOf(config, o) == map[];
  }
}
