/** Reading env mappings and allocations out of an already decoded configuration: which are
    accepted, what comes of them, and what the other modules may rely on. */
module Parser {
  import opened Text
  import opened Config
  import opened InitMerge
  import P = Placeholders

  datatype Entry = Entry(key: string, value: string)

  datatype AllocationEntry = AllocationEntry(name: string, env: seq<Entry>)

  // ------------------------------------------------------------------
  // Env mappings
  // ------------------------------------------------------------------

  function ValidateEnvKey(key: string): Result<(), ConfigError> {
    if IsEnvKey(key) then Ok(()) else Err(InvalidEnvKey(key))
  }

  function CheckEntry(field: string, registry: P.Registry, scope: P.Scope, entry: Entry): Result<(), ConfigError> {
    if ValidateEnvKey(entry.key).Err? then ValidateEnvKey(entry.key)
    else P.Validate(field + "." + entry.key, registry, scope, entry.value)
  }

  predicate EntriesOk(field: string, registry: P.Registry, scope: P.Scope, entries: seq<Entry>) {
    forall i :: 0 <= i < |entries| ==> CheckEntry(field, registry, scope, entries[i]).Ok?
  }

  /** The mapping as a map. */
  function Collected(entries: seq<Entry>): EnvMap {
    if entries == [] then map[]
    else Collected(entries[..|entries| - 1])[entries[|entries| - 1].key := entries[|entries| - 1].value]
  }

  /** Every key of the mapping has its last value. */
  lemma {:induction false} CollectedExact(entries: seq<Entry>, i: nat)
    requires i < |entries| && forall j :: i < j < |entries| ==> entries[j].key != entries[i].key
    ensures entries[i].key in Collected(entries) && Collected(entries)[entries[i].key] == entries[i].value
    ensures forall k :: k in Collected(entries) ==> exists j :: 0 <= j < |entries| && entries[j].key == k
    decreases |entries|
  {
    CollectedKeys(entries);
    var n := |entries| - 1;
    if i < n {
      CollectedExact(entries[..n], i);
    }
  }

  lemma {:induction false} CollectedKeys(entries: seq<Entry>)
    ensures forall k :: k in Collected(entries) ==> exists j :: 0 <= j < |entries| && entries[j].key == k
  {
    if entries != [] {
      var n := |entries| - 1;
      CollectedKeys(entries[..n]);
      forall k | k in Collected(entries) ensures exists j :: 0 <= j < |entries| && entries[j].key == k {
        if k != entries[n].key {
          assert k in Collected(entries[..n]);
          var j :| 0 <= j < n && entries[..n][j].key == k;
          assert entries[j].key == k;
        }
      }
    }
  }

  /** The error is that of the first entry that is not accepted. */
  predicate FirstError(field: string, registry: P.Registry, scope: P.Scope, entries: seq<Entry>, error: ConfigError) {
    exists i :: 0 <= i < |entries| && CheckEntry(field, registry, scope, entries[i]) == Err(error)
      && EntriesOk(field, registry, scope, entries[..i])
  }

  method ParseEnvMapping(field: string, registry: P.Registry, scope: P.Scope, entries: seq<Entry>)
    returns (r: Result<EnvMap, ConfigError>)
    ensures r.Ok? <==> EntriesOk(field, registry, scope, entries)
    ensures r.Ok? ==> r.value == Collected(entries)
    ensures r.Err? ==> FirstError(field, registry, scope, entries, r.error)
  {
    hide P.Validate, IsEnvKey;
    var env: EnvMap := map[];
    for i := 0 to |entries|
      invariant EntriesOk(field, registry, scope, entries[..i])
      invariant env == Collected(entries[..i])
    {
      var key, value := entries[i].key, entries[i].value;
      assert entries[..i + 1][..i] == entries[..i];
      var legal := ValidateEnvKey(key);
      if legal.Err? {
        return Err(legal.error);
      }
      var valid := P.ValidateEnvPlaceholders(field + "." + key, registry, scope, value);
      if valid.Err? {
        return Err(valid.error);
      }
      env := env[key := value];
    }
    assert entries[..|entries|] == entries;
    r := Ok(env);
  }

  /** What acceptance means for each entry of the resulting map. */
  ghost predicate Accepted(field: string, registry: P.Registry, scope: P.Scope, env: EnvMap) {
    forall key :: key in env ==> IsEnvKey(key) && P.Validate(field + "." + key, registry, scope, env[key]).Ok?
  }

  lemma {:induction false} CollectedAccepted(field: string, registry: P.Registry, scope: P.Scope, entries: seq<Entry>)
    requires EntriesOk(field, registry, scope, entries)
    ensures Accepted(field, registry, scope, Collected(entries))
    decreases |entries|
  {
    hide P.Validate, IsEnvKey;
    if entries != [] {
      var n := |entries| - 1;
      CollectedAccepted(field, registry, scope, entries[..n]);
      assert CheckEntry(field, registry, scope, entries[n]).Ok?;
    }
  }

  // ------------------------------------------------------------------
  // Allocations
  // ------------------------------------------------------------------

  function Replace(text: string, from: char, to: char): (r: string)
    ensures |r| == |text|
    ensures forall i :: 0 <= i < |text| ==> r[i] == if text[i] == from then to else text[i]
  {
    if text == "" then "" else [if text[0] == from then to else text[0]] + Replace(text[1..], from, to)
  }

  function NormalizedAllocationName(resource: string, allocation: string): string {
    if resource == "mysql" || resource == "postgres" then Replace(allocation, '-', '_')
    else if resource == "redis" || resource == "rustfs" then Replace(allocation, '_', '-')
    else allocation
  }

  /** Databases may not have a hyphen in a name, the stores no underscore: these are replaced,
      and nothing else. */
  lemma NormalizedExact(resource: string, allocation: string)
    ensures |NormalizedAllocationName(resource, allocation)| == |allocation|
    ensures forall i :: 0 <= i < |allocation| ==>
      NormalizedAllocationName(resource, allocation)[i] ==
        if allocation[i] == '-' && resource in {"mysql", "postgres"} then '_'
        else if allocation[i] == '_' && resource in {"redis", "rustfs"} then '-'
        else allocation[i]
  {
  }

  function ValidateAllocationName(name: string): Result<(), ConfigError> {
    if IsAllocationName(name) then Ok(()) else Err(InvalidAllocationName(name))
  }

  function AllocationField(resource: string, name: string): string {
    resource + ".allocations." + name + ".env"
  }

  predicate AllocationOk(resource: string, registry: P.Registry, entry: AllocationEntry) {
    IsAllocationName(entry.name)
    && EntriesOk(AllocationField(resource, entry.name), registry, P.Allocation(resource), entry.env)
  }

  predicate NormalizedApart(resource: string, entries: seq<AllocationEntry>) {
    forall i, j :: 0 <= i < j < |entries| ==>
      NormalizedAllocationName(resource, entries[i].name) != NormalizedAllocationName(resource, entries[j].name)
  }

  predicate AllocationsOk(resource: string, registry: P.Registry, entries: seq<AllocationEntry>) {
    && NormalizedApart(resource, entries)
    && forall i :: 0 <= i < |entries| ==> AllocationOk(resource, registry, entries[i])
  }

  /** The allocations read, by name. */
  ghost predicate Holds(allocations: map<string, AllocationConfig>, entries: seq<AllocationEntry>) {
    && (forall i :: 0 <= i < |entries| ==>
      entries[i].name in allocations && allocations[entries[i].name] == AllocationConfig(Collected(entries[i].env)))
    && (forall name :: name in allocations ==> exists i :: 0 <= i < |entries| && entries[i].name == name)
  }

  /** What is wrong with an entry after accepted ones: its name, else that it normalises like
      an earlier one, else its environment. */
  predicate ErrorAt(resource: string, registry: P.Registry, entries: seq<AllocationEntry>, i: nat, error: ConfigError)
    requires i < |entries|
  {
    var name, normalized := entries[i].name, NormalizedAllocationName(resource, entries[i].name);
    if !IsAllocationName(name) then error == InvalidAllocationName(name)
    else if exists j :: 0 <= j < i && NormalizedAllocationName(resource, entries[j].name) == normalized then
      error == DuplicateNormalizedAllocation(resource, name, normalized)
    else FirstError(AllocationField(resource, name), registry, P.Allocation(resource), entries[i].env, error)
  }

  predicate FirstBadAllocation(resource: string, registry: P.Registry, entries: seq<AllocationEntry>,
                               error: ConfigError) {
    exists i ::
      && 0 <= i < |entries| && AllocationsOk(resource, registry, entries[..i])
      && ErrorAt(resource, registry, entries, i, error)
  }

  /** Accepted are exactly the mappings of legal names that differ even when normalised, with
      accepted environments. */
  method ParseAllocations(resource: string, registry: P.Registry, entries: seq<AllocationEntry>)
    returns (r: Result<map<string, AllocationConfig>, ConfigError>)
    ensures r.Ok? <==> AllocationsOk(resource, registry, entries)
    ensures r.Ok? ==> Holds(r.value, entries)
    ensures r.Err? ==> FirstBadAllocation(resource, registry, entries, r.error)
  {
    hide EntriesOk, IsAllocationName, NormalizedAllocationName, Collected, FirstError, AllocationField;
    var allocations: map<string, AllocationConfig> := map[];
    var normalizedAllocations: map<string, string> := map[];
    for i := 0 to |entries|
      invariant AllocationsOk(resource, registry, entries[..i])
      invariant Holds(allocations, entries[..i])
      invariant forall n :: n in normalizedAllocations <==>
        exists j :: 0 <= j < i && NormalizedAllocationName(resource, entries[j].name) == n
    {
      var allocation := entries[i].name;
      var legal := ValidateAllocationName(allocation);
      if legal.Err? {
        return Err(legal.error);
      }
      var normalized := NormalizedAllocationName(resource, allocation);
      if normalized in normalizedAllocations {
        return Err(DuplicateNormalizedAllocation(resource, allocation, normalized));
      }
      normalizedAllocations := normalizedAllocations[normalized := allocation];
      var field := AllocationField(resource, allocation);
      var env := ParseEnvMapping(field, registry, P.Allocation(resource), entries[i].env);
      if env.Err? {
        return Err(env.error);
      }
      assert forall j :: 0 <= j < i ==> entries[j].name != allocation;
      ghost var before := allocations;
      allocations := allocations[allocation := AllocationConfig(env.value)];
      assert entries[..i + 1] == entries[..i] + [entries[i]];
      HoldsSnoc(before, allocations, entries, i);
    }
    assert entries[..|entries|] == entries;
    r := Ok(allocations);
  }

  lemma HoldsSnoc(before: map<string, AllocationConfig>, after: map<string, AllocationConfig>,
                  entries: seq<AllocationEntry>, i: nat)
    requires i < |entries| && Holds(before, entries[..i])
    requires after == before[entries[i].name := AllocationConfig(Collected(entries[i].env))]
    requires forall j :: 0 <= j < i ==> entries[j].name != entries[i].name
    ensures Holds(after, entries[..i + 1])
  {
    hide Collected;
    var read, now := entries[..i], entries[..i + 1];
    assert now == read + [entries[i]];
    forall name | name in after ensures exists j :: 0 <= j < |now| && now[j].name == name {
      if name == entries[i].name {
        assert now[i].name == name;
      } else {
        var j :| 0 <= j < |read| && read[j].name == name;
        assert now[j].name == name;
      }
    }
  }

  // ------------------------------------------------------------------
  // What the merge may rely on
  // ------------------------------------------------------------------

  predicate HasAllocations(resource: string) {
    resource == "mysql" || resource == "postgres" || resource == "redis" || resource == "rustfs"
  }

  lemma LegalChar(name: string, i: nat)
    requires IsAllocationName(name) && i < |name|
    ensures IsLower(name[i]) || IsDigit(name[i]) || name[i] == '_' || name[i] == '-'
  {
  }

  /** Two legal allocation names lead to the same env prefix exactly when they normalise alike,
      so the allocations that a configuration may hold have different prefixes. */
  lemma SamePrefixSameNormal(resource: string, a: string, b: string)
    requires HasAllocations(resource) && IsAllocationName(a) && IsAllocationName(b)
    ensures AllocationEnvPrefix(a) == AllocationEnvPrefix(b) <==>
      NormalizedAllocationName(resource, a) == NormalizedAllocationName(resource, b)
  {
    hide AllocationEnvPrefix, Replace, IsAllocationName;
    var pa, pb := AllocationEnvPrefix(a), AllocationEnvPrefix(b);
    var na, nb := NormalizedAllocationName(resource, a), NormalizedAllocationName(resource, b);
    if |a| == |b| {
      forall i | 0 <= i < |a| ensures pa[i] == pb[i] <==> na[i] == nb[i] {
        LegalChar(a, i);
        LegalChar(b, i);
      }
      assert pa == pb <==> forall i :: 0 <= i < |a| ==> pa[i] == pb[i];
      assert na == nb <==> forall i :: 0 <= i < |a| ==> na[i] == nb[i];
    } else {
      assert |pa| != |pb| && |na| != |nb|;
    }
  }

  lemma AcceptedPrefixesApart(resource: string, registry: P.Registry, entries: seq<AllocationEntry>, i: nat, j: nat)
    requires HasAllocations(resource) && AllocationsOk(resource, registry, entries) && i < j < |entries|
    ensures AllocationEnvPrefix(entries[i].name) != AllocationEnvPrefix(entries[j].name)
  {
    hide EntriesOk, AllocationEnvPrefix, NormalizedAllocationName, IsAllocationName;
    assert AllocationOk(resource, registry, entries[i]) && AllocationOk(resource, registry, entries[j]);
    SamePrefixSameNormal(resource, entries[i].name, entries[j].name);
  }
}
