/** Reading a written configuration back: its env mappings and allocations are parsed again,
    entry by entry in the order in which they were written. */
module ReadBack {
  import opened Text
  import opened Config
  import opened Ordered
  import opened Parser
  import P = Placeholders

  const SQL: set<string> := {"host", "password", "port", "url", "username"}

  const RUSTFS: set<string> := {"access_key", "endpoint", "host", "port", "secret_key", "url"}

  /** The backing services and the placeholders they offer at their two depths. */
  const PV_REGISTRY: P.Registry := P.Registry(
    map["mysql" := SQL, "postgres" := SQL, "redis" := {"host", "port", "url"}, "rustfs" := RUSTFS,
        "mailpit" := {"dashboard_url", "smtp_host", "smtp_port"}],
    map["mysql" := SQL + {"database"}, "postgres" := SQL + {"database"}, "redis" := {"host", "port", "prefix", "url"},
        "rustfs" := RUSTFS + {"bucket"}, "mailpit" := {}])

  /** What a template may name, by scope: the four names of the project everywhere, and those of
      the service. */
  lemma OffersExact(name: string)
    ensures var project := {"project_url", "tls_ca", "tls_cert", "tls_key"};
      P.AllowsPlaceholder(PV_REGISTRY, P.Project, name) == Ok(name in project)
    ensures var project := {"project_url", "tls_ca", "tls_cert", "tls_key"};
      forall r :: r in {"mysql", "postgres"} ==>
        && P.AllowsPlaceholder(PV_REGISTRY, P.Resource(r), name)
          == Ok(name in project + {"host", "password", "port", "url", "username"})
        && P.AllowsPlaceholder(PV_REGISTRY, P.Allocation(r), name)
          == Ok(name in project + {"database", "host", "password", "port", "url", "username"})
    ensures var project := {"project_url", "tls_ca", "tls_cert", "tls_key"};
      && P.AllowsPlaceholder(PV_REGISTRY, P.Resource("redis"), name) == Ok(name in project + {"host", "port", "url"})
      && P.AllowsPlaceholder(PV_REGISTRY, P.Allocation("redis"), name)
        == Ok(name in project + {"host", "port", "prefix", "url"})
    ensures var project := {"project_url", "tls_ca", "tls_cert", "tls_key"};
      && P.AllowsPlaceholder(PV_REGISTRY, P.Resource("rustfs"), name)
        == Ok(name in project + {"access_key", "endpoint", "host", "port", "secret_key", "url"})
      && P.AllowsPlaceholder(PV_REGISTRY, P.Allocation("rustfs"), name)
        == Ok(name in project + {"access_key", "bucket", "endpoint", "host", "port", "secret_key", "url"})
    ensures var project := {"project_url", "tls_ca", "tls_cert", "tls_key"};
      P.AllowsPlaceholder(PV_REGISTRY, P.Resource("mailpit"), name)
        == Ok(name in project + {"dashboard_url", "smtp_host", "smtp_port"})
    ensures name !in {"project_url", "tls_ca", "tls_cert", "tls_key"} ==>
      forall r :: r !in {"mysql", "postgres", "redis", "rustfs", "mailpit"} ==>
        && P.AllowsPlaceholder(PV_REGISTRY, P.Resource(r), name) == Err(EnvPlaceholderContract(r))
        && P.AllowsPlaceholder(PV_REGISTRY, P.Allocation(r), name) == Err(EnvPlaceholderContract(r))
    ensures HasAllocations(name) <==> name in {"mysql", "postgres", "redis", "rustfs"}
  {
  }

  predicate IsBackingService(registry: P.Registry, resource: string) {
    resource in registry.ofResource
  }

  // ------------------------------------------------------------------
  // What is accepted
  // ------------------------------------------------------------------

  /** Legal names that stay apart when they are normalised. */
  ghost predicate NamesFit(resource: string, names: set<string>) {
    && (forall a :: a in names ==> IsAllocationName(a))
    && forall a, b :: a in names && b in names && a != b ==>
         NormalizedAllocationName(resource, a) != NormalizedAllocationName(resource, b)
  }

  ghost predicate EachAccepted(registry: P.Registry, resource: string, allocations: map<string, AllocationConfig>) {
    forall a :: a in allocations ==>
      Accepted(AllocationField(resource, a), registry, P.Allocation(resource), allocations[a].env)
  }

  ghost predicate AllocationsAccepted(registry: P.Registry, resource: string,
                                      allocations: map<string, AllocationConfig>) {
    && (allocations != map[] ==> HasAllocations(resource))
    && NamesFit(resource, allocations.Keys)
    && EachAccepted(registry, resource, allocations)
  }

  ghost predicate ResourceAccepted(registry: P.Registry, resource: string, config: ResourceConfig) {
    && IsBackingService(registry, resource)
    && Accepted(resource + ".env", registry, P.Resource(resource), config.env)
    && AllocationsAccepted(registry, resource, config.allocations)
  }

  ghost predicate EntriesAccepted(registry: P.Registry, config: ProjectConfig) {
    && Accepted("env", registry, P.Project, config.env)
    && forall r :: r in config.resources ==> ResourceAccepted(registry, r, config.resources[r])
  }

  // ------------------------------------------------------------------
  // Entries as they are written
  // ------------------------------------------------------------------

  function EntriesFor(env: EnvMap, keys: seq<string>): (entries: seq<Entry>)
    requires forall k :: k in keys ==> k in env
    ensures |entries| == |keys|
    ensures forall i :: 0 <= i < |keys| ==> entries[i] == Entry(keys[i], env[keys[i]])
  {
    if keys == [] then [] else EntriesFor(env, keys[..|keys| - 1]) + [Entry(keys[|keys| - 1], env[keys[|keys| - 1]])]
  }

  function Written(env: EnvMap): seq<Entry> {
    EntriesFor(env, Sorted(env.Keys))
  }

  lemma {:induction false} CollectedFor(env: EnvMap, keys: seq<string>)
    requires forall k :: k in keys ==> k in env
    ensures forall k :: k in Collected(EntriesFor(env, keys)) <==> k in keys
    ensures forall k :: k in keys ==> Collected(EntriesFor(env, keys))[k] == env[k]
    decreases |keys|
  {
    if keys != [] {
      var n := |keys| - 1;
      CollectedFor(env, keys[..n]);
      assert EntriesFor(env, keys)[..n] == EntriesFor(env, keys[..n]);
      assert forall k :: k in keys <==> k in keys[..n] || k == keys[n];
    }
  }

  /** Writing loses nothing, and what is read is accepted exactly if the entries are. */
  lemma WrittenReads(registry: P.Registry, field: string, scope: P.Scope, env: EnvMap)
    ensures Collected(Written(env)) == env
    ensures EntriesOk(field, registry, scope, Written(env)) <==> Accepted(field, registry, scope, env)
  {
    hide P.Validate, IsEnvKey, Collected, Sorted, Accepted, EntriesOk;
    CollectedWritten(env);
    KeysAccepted(registry, field, scope, env, Sorted(env.Keys));
  }

  lemma KeysAccepted(registry: P.Registry, field: string, scope: P.Scope, env: EnvMap, keys: seq<string>)
    requires forall k :: k in keys <==> k in env
    ensures EntriesOk(field, registry, scope, EntriesFor(env, keys)) <==> Accepted(field, registry, scope, env)
  {
    hide P.Validate, IsEnvKey;
    var entries := EntriesFor(env, keys);
    if EntriesOk(field, registry, scope, entries) {
      forall key | key in env ensures IsEnvKey(key) && P.Validate(field + "." + key, registry, scope, env[key]).Ok? {
        var i :| 0 <= i < |keys| && keys[i] == key;
        assert CheckEntry(field, registry, scope, entries[i]).Ok?;
      }
    }
    if Accepted(field, registry, scope, env) {
      forall i | 0 <= i < |keys| ensures CheckEntry(field, registry, scope, entries[i]).Ok? {
        assert keys[i] in env;
      }
    }
  }

  method ReadEnv(registry: P.Registry, field: string, scope: P.Scope, env: EnvMap)
    returns (r: Result<EnvMap, ConfigError>)
    ensures r.Ok? <==> Accepted(field, registry, scope, env)
    ensures r.Ok? ==> r.value == env
  {
    hide EntriesOk, Collected, FirstError, Written, Accepted;
    WrittenReads(registry, field, scope, env);
    r := ParseEnvMapping(field, registry, scope, Written(env));
  }

  function AllocationsFor(allocations: map<string, AllocationConfig>, names: seq<string>)
    : (entries: seq<AllocationEntry>)
    requires forall a :: a in names ==> a in allocations
    ensures |entries| == |names|
    ensures forall i :: 0 <= i < |names| ==>
      entries[i] == AllocationEntry(names[i], Written(allocations[names[i]].env))
  {
    seq(|names|, i requires 0 <= i < |names| =>
      assert names[i] in names; AllocationEntry(names[i], Written(allocations[names[i]].env)))
  }

  /** One allocation, as written and as it is. */
  lemma EntryReads(registry: P.Registry, resource: string, name: string, env: EnvMap)
    ensures var entry := AllocationEntry(name, Written(env));
      && (AllocationOk(resource, registry, entry) <==>
            && IsAllocationName(name)
            && Accepted(AllocationField(resource, name), registry, P.Allocation(resource), env))
      && Collected(entry.env) == env
  {
    hide IsAllocationName, Accepted, EntriesOk, Written, AllocationField, Collected;
    WrittenReads(registry, AllocationField(resource, name), P.Allocation(resource), env);
  }

  lemma EachOk(registry: P.Registry, resource: string, allocations: map<string, AllocationConfig>, names: seq<string>,
               entries: seq<AllocationEntry>)
    requires forall a :: a in names <==> a in allocations
    requires |entries| == |names|
    requires forall i :: 0 <= i < |names| ==>
      entries[i] == AllocationEntry(names[i], Written(allocations[names[i]].env))
    ensures (forall i :: 0 <= i < |entries| ==> AllocationOk(resource, registry, entries[i])) <==>
      (forall a :: a in allocations ==> IsAllocationName(a)) && EachAccepted(registry, resource, allocations)
  {
    hide IsAllocationName, Accepted, Written, AllocationField, AllocationOk;
    if forall i :: 0 <= i < |entries| ==> AllocationOk(resource, registry, entries[i]) {
      forall a | a in allocations
        ensures IsAllocationName(a)
        ensures Accepted(AllocationField(resource, a), registry, P.Allocation(resource), allocations[a].env)
      {
        var i :| 0 <= i < |names| && names[i] == a;
        assert AllocationOk(resource, registry, entries[i]);
        EntryReads(registry, resource, a, allocations[a].env);
      }
    }
    if (forall a :: a in allocations ==> IsAllocationName(a)) && EachAccepted(registry, resource, allocations) {
      forall i | 0 <= i < |entries| ensures AllocationOk(resource, registry, entries[i]) {
        assert names[i] in names;
        EntryReads(registry, resource, names[i], allocations[names[i]].env);
      }
    }
  }

  lemma HoldsWritten(read: map<string, AllocationConfig>, allocations: map<string, AllocationConfig>,
                     names: seq<string>, entries: seq<AllocationEntry>)
    requires forall a :: a in names <==> a in allocations
    requires |entries| == |names| && Holds(read, entries)
    requires forall i :: 0 <= i < |names| ==>
      entries[i] == AllocationEntry(names[i], Written(allocations[names[i]].env))
    ensures read == allocations
  {
    hide Collected, Written;
    forall a | a in allocations ensures a in read && read[a] == allocations[a] {
      var i :| 0 <= i < |names| && names[i] == a;
      assert entries[i].name == a;
      CollectedWritten(allocations[a].env);
    }
    forall a | a in read ensures a in allocations {
      var i :| 0 <= i < |entries| && entries[i].name == a;
      assert names[i] == a;
    }
  }

  lemma WrittenAllocationsRead(registry: P.Registry, resource: string, allocations: map<string, AllocationConfig>)
    ensures var entries := AllocationsFor(allocations, Sorted(allocations.Keys));
      && (AllocationsOk(resource, registry, entries) <==>
            NamesFit(resource, allocations.Keys) && EachAccepted(registry, resource, allocations))
      && forall read :: Holds(read, entries) ==> read == allocations
  {
    SortedDistinct(allocations.Keys);
    var names := Sorted(allocations.Keys);
    WrittenAsNamed(registry, resource, allocations, names, AllocationsFor(allocations, names));
  }

  lemma WrittenAsNamed(registry: P.Registry, resource: string, allocations: map<string, AllocationConfig>,
                       names: seq<string>, entries: seq<AllocationEntry>)
    requires forall i, j :: 0 <= i < j < |names| ==> names[i] != names[j]
    requires forall a :: a in names <==> a in allocations
    requires |entries| == |names|
    requires forall i :: 0 <= i < |names| ==>
      entries[i] == AllocationEntry(names[i], Written(allocations[names[i]].env))
    ensures AllocationsOk(resource, registry, entries) <==>
      NamesFit(resource, allocations.Keys) && EachAccepted(registry, resource, allocations)
    ensures forall read :: Holds(read, entries) ==> read == allocations
  {
    hide IsAllocationName, NormalizedAllocationName, EachAccepted, AllocationOk, Written, Holds;
    ApartFits(resource, entries, names, allocations.Keys);
    EachOk(registry, resource, allocations, names, entries);
    hide NormalizedApart;
    forall read | Holds(read, entries) ensures read == allocations {
      HoldsWritten(read, allocations, names, entries);
    }
  }

  lemma CollectedWritten(env: EnvMap)
    ensures Collected(Written(env)) == env
  {
    hide Collected, Sorted;
    CollectedFor(env, Sorted(env.Keys));
  }

  lemma ApartFits(resource: string, entries: seq<AllocationEntry>, names: seq<string>, keys: set<string>)
    requires |entries| == |names| && forall i :: 0 <= i < |names| ==> entries[i].name == names[i]
    requires forall i, j :: 0 <= i < j < |names| ==> names[i] != names[j]
    requires forall a :: a in keys <==> a in names
    ensures NormalizedApart(resource, entries) <==> forall a, b :: a in keys && b in keys && a != b ==>
      NormalizedAllocationName(resource, a) != NormalizedAllocationName(resource, b)
  {
    hide NormalizedAllocationName;
    if NormalizedApart(resource, entries) {
      forall a, b | a in keys && b in keys && a != b
        ensures NormalizedAllocationName(resource, a) != NormalizedAllocationName(resource, b)
      {
        var i :| 0 <= i < |names| && names[i] == a;
        var j :| 0 <= j < |names| && names[j] == b;
        assert entries[i].name == a && entries[j].name == b;
      }
    } else {
      var i, j :| 0 <= i < j < |entries|
        && NormalizedAllocationName(resource, entries[i].name) == NormalizedAllocationName(resource, entries[j].name);
      assert names[i] in keys && names[j] in keys && names[i] != names[j];
    }
  }

  // ------------------------------------------------------------------
  // Reading
  // ------------------------------------------------------------------

  method ReadResource(registry: P.Registry, resource: string, config: ResourceConfig)
    returns (r: Result<ResourceConfig, ConfigError>)
    ensures r.Ok? <==> ResourceAccepted(registry, resource, config)
    ensures r.Ok? ==> r.value == config
  {
    hide Accepted, AllocationsOk, NamesFit, Holds, AllocationsFor, FirstBadAllocation;
    if !IsBackingService(registry, resource) {
      return Err(UnknownTopLevelKey(resource));
    }
    var env := ReadEnv(registry, resource + ".env", P.Resource(resource), config.env);
    if env.Err? {
      return Err(env.error);
    }
    WrittenAllocationsRead(registry, resource, config.allocations);
    var allocations := map[];
    if config.allocations != map[] {
      if !HasAllocations(resource) {
        return Err(UnsupportedResourceAllocations(resource));
      }
      var entries := AllocationsFor(config.allocations, Sorted(config.allocations.Keys));
      var read := ParseAllocations(resource, registry, entries);
      if read.Err? {
        return Err(read.error);
      }
      allocations := read.value;
    } else {
      NoAllocations(registry, resource);
    }
    r := Ok(ResourceConfig(config.track, env.value, allocations));
  }

  lemma NoAllocations(registry: P.Registry, resource: string)
    ensures AllocationsAccepted(registry, resource, map[])
  {
  }

  method ReadResources(registry: P.Registry, written: map<string, ResourceConfig>, names: seq<string>)
    returns (r: Result<map<string, ResourceConfig>, ConfigError>)
    requires forall name :: name in names <==> name in written
    ensures r.Ok? <==> forall name :: name in written ==> ResourceAccepted(registry, name, written[name])
    ensures r.Ok? ==> r.value == written
  {
    hide ResourceAccepted;
    var resources: map<string, ResourceConfig> := map[];
    for i := 0 to |names|
      invariant forall name :: name in names[..i] ==> ResourceAccepted(registry, name, written[name])
      invariant forall name :: name in resources <==> name in names[..i]
      invariant forall name :: name in resources ==> resources[name] == written[name]
    {
      assert names[..i + 1] == names[..i] + [names[i]];
      var read := ReadResource(registry, names[i], written[names[i]]);
      if read.Err? {
        return Err(read.error);
      }
      resources := resources[names[i] := read.value];
    }
    assert names[..|names|] == names;
    assert resources == written;
    r := Ok(resources);
  }

  /** The configuration read back is the one written, if it is accepted at all. */
  method ReadConfig(registry: P.Registry, config: ProjectConfig) returns (r: Result<ProjectConfig, ConfigError>)
    ensures r.Ok? <==> EntriesAccepted(registry, config)
    ensures r.Ok? ==> r.value == config
  {
    hide Accepted, ResourceAccepted;
    var env := ReadEnv(registry, "env", P.Project, config.env);
    if env.Err? {
      return Err(env.error);
    }
    var resources := ReadResources(registry, config.resources, Sorted(config.resources.Keys));
    if resources.Err? {
      return Err(resources.error);
    }
    r := Ok(config.(env := env.value, resources := resources.value));
  }
}
