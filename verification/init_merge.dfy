/** Merging generated environment defaults into a project configuration that may already
    hold user entries at any of its three depths. */
module InitMerge {
  import opened Text
  import opened Config
  import opened ProjectEnv
  import opened ProjectEnvLaws

  datatype ResourceName = Mailpit | Mysql | Postgres | Redis | Rustfs

  datatype ResourceSelection = ResourceSelection(selected: bool, track: string, allocations: seq<string>)

  datatype Selection = Selection(
    php: string,
    documentRoot: Option<string>,
    includeAppUrl: bool,
    includeViteTls: bool,
    resources: map<ResourceName, ResourceSelection>)

  datatype Default = Default(key: string, template: string)

  /** The order in which a selection lists its resources. */
  const NAMES: seq<ResourceName> := [Mailpit, Mysql, Postgres, Redis, Rustfs]

  function ConfigKey(name: ResourceName): string {
    match name
    case Mailpit => "mailpit"
    case Mysql => "mysql"
    case Postgres => "postgres"
    case Redis => "redis"
    case Rustfs => "rustfs"
  }

  const MAILPIT_DEFAULTS: seq<Default> :=
    [Default("MAIL_MAILER", "smtp"), Default("MAIL_HOST", "${smtp_host}"), Default("MAIL_PORT", "${smtp_port}")]

  /** The defaults generated for each allocation of a resource. */
  function AllocationDefaults(name: ResourceName): seq<Default> {
    match name
    case Mailpit => []
    case Mysql =>
      [Default("DB_CONNECTION", "mysql"), Default("DB_HOST", "${host}"), Default("DB_PORT", "${port}"),
       Default("DB_DATABASE", "${database}"), Default("DB_USERNAME", "${username}"),
       Default("DB_PASSWORD", "${password}")]
    case Postgres =>
      [Default("DB_CONNECTION", "pgsql"), Default("DB_HOST", "${host}"), Default("DB_PORT", "${port}"),
       Default("DB_DATABASE", "${database}"), Default("DB_USERNAME", "${username}"),
       Default("DB_PASSWORD", "${password}")]
    case Redis =>
      [Default("REDIS_HOST", "${host}"), Default("REDIS_PORT", "${port}"), Default("REDIS_PREFIX", "${prefix}")]
    case Rustfs =>
      [Default("AWS_ENDPOINT", "${endpoint}"), Default("AWS_BUCKET", "${bucket}"),
       Default("AWS_ACCESS_KEY_ID", "${access_key}"), Default("AWS_SECRET_ACCESS_KEY", "${secret_key}")]
  }

  // ------------------------------------------------------------------
  // Prefixes and generated keys
  // ------------------------------------------------------------------

  function ToUpper(c: char): char {
    if IsLower(c) then 'A' + (c - 'a') else c
  }

  function AllocationEnvPrefix(name: string): (prefix: string)
    ensures |prefix| == |name|
    ensures forall i :: 0 <= i < |name| ==> prefix[i] == if name[i] == '-' then '_' else ToUpper(name[i])
  {
    if name == "" then ""
    else [if name[0] == '-' then '_' else ToUpper(name[0])] + AllocationEnvPrefix(name[1..])
  }

  function GeneratedKey(prefix: Option<string>, key: string): string {
    if prefix.Some? then prefix.value + "_" + key else key
  }

  function ResourcePrefix(resource: string, allocation: string): string {
    AllocationEnvPrefix(resource) + "_" + AllocationEnvPrefix(allocation)
  }

  function SuffixedPrefix(resourcePrefix: string, suffix: nat): string {
    resourcePrefix + "_" + Decimal(suffix)
  }

  /** The prefixes tried, in order: none, the allocation's, the resource's, then the
      resource's with the suffixes 2, 3, ... */
  function Candidate(resource: string, allocation: string, i: nat): Option<string> {
    if i == 0 then None
    else if i == 1 then Some(AllocationEnvPrefix(allocation))
    else if i == 2 then Some(ResourcePrefix(resource, allocation))
    else Some(SuffixedPrefix(ResourcePrefix(resource, allocation), i - 1))
  }

  /** Every default is already there, or its generated key is, or that key is unused. */
  predicate PrefixAvailable(prefix: Option<string>, env: EnvMap, ancestorKeys: set<string>,
                            allocationKeys: set<string>, defaults: seq<Default>)
  {
    forall i :: 0 <= i < |defaults| ==>
      || defaults[i].key in env
      || GeneratedKey(prefix, defaults[i].key) in env
      || (GeneratedKey(prefix, defaults[i].key) !in ancestorKeys
          && GeneratedKey(prefix, defaults[i].key) !in allocationKeys)
  }

  /** The i-th candidate is the first that is available. */
  ghost predicate FirstAvailable(resource: string, allocation: string, env: EnvMap, ancestorKeys: set<string>,
                                 allocationKeys: set<string>, defaults: seq<Default>, i: nat)
  {
    && PrefixAvailable(Candidate(resource, allocation, i), env, ancestorKeys, allocationKeys, defaults)
    && forall j :: 0 <= j < i ==>
         !PrefixAvailable(Candidate(resource, allocation, j), env, ancestorKeys, allocationKeys, defaults)
  }

  lemma SuffixPosition(a: string, k: string, b: string, l: string)
    requires forall i :: 0 <= i < |a| ==> IsDigit(a[i])
    requires forall i :: 0 <= i < |b| ==> IsDigit(b[i])
    requires a + "_" + k == b + "_" + l
    ensures |a| <= |b|
  {
    assert (b + "_" + l)[|b|] == '_';
    assert forall i :: 0 <= i < |a| ==> (a + "_" + k)[i] == a[i];
  }

  /** A generated key tells its suffix: distinct suffixes generate distinct keys, whatever
      defaults they are put before. */
  lemma SuffixDetermined(resourcePrefix: string, m: nat, k: string, n: nat, l: string)
    requires GeneratedKey(Some(SuffixedPrefix(resourcePrefix, m)), k)
          == GeneratedKey(Some(SuffixedPrefix(resourcePrefix, n)), l)
    ensures m == n
  {
    var a, b := Decimal(m), Decimal(n);
    var x, y := a + "_" + k, b + "_" + l;
    var head := resourcePrefix + "_";
    assert GeneratedKey(Some(SuffixedPrefix(resourcePrefix, m)), k) == head + x;
    assert GeneratedKey(Some(SuffixedPrefix(resourcePrefix, n)), l) == head + y;
    assert (head + x)[|head|..] == x && (head + y)[|head|..] == y;
    SuffixPosition(a, k, b, l);
    SuffixPosition(b, l, a, k);
    assert x[..|a|] == a && y[..|b|] == b;
    DecimalInjective(m, n);
  }

  /** The generated keys that rule out the suffixes below `bound`. */
  lemma {:induction false} BlockingKeys(resourcePrefix: string, bound: nat, env: EnvMap, ancestorKeys: set<string>,
                                        allocationKeys: set<string>, defaults: seq<Default>)
    returns (blocking: set<string>)
    requires bound >= 2
    requires forall n :: 2 <= n < bound ==>
      !PrefixAvailable(Some(SuffixedPrefix(resourcePrefix, n)), env, ancestorKeys, allocationKeys, defaults)
    ensures blocking <= ancestorKeys + allocationKeys && |blocking| == bound - 2
    ensures forall w :: w in blocking ==>
      exists n, k :: 2 <= n < bound && w == GeneratedKey(Some(SuffixedPrefix(resourcePrefix, n)), k)
  {
    if bound == 2 {
      blocking := {};
    } else {
      var last := bound - 1;
      var rest := BlockingKeys(resourcePrefix, last, env, ancestorKeys, allocationKeys, defaults);
      hide SuffixedPrefix, GeneratedKey;
      assert !PrefixAvailable(Some(SuffixedPrefix(resourcePrefix, last)), env, ancestorKeys, allocationKeys, defaults);
      var i :| 0 <= i < |defaults|
        && (var g := GeneratedKey(Some(SuffixedPrefix(resourcePrefix, last)), defaults[i].key);
            g in ancestorKeys || g in allocationKeys);
      var g := GeneratedKey(Some(SuffixedPrefix(resourcePrefix, last)), defaults[i].key);
      if g in rest {
        var n, k :| 2 <= n < last && g == GeneratedKey(Some(SuffixedPrefix(resourcePrefix, n)), k);
        SuffixDetermined(resourcePrefix, last, defaults[i].key, n, k);
      }
      blocking := rest + {g};
    }
  }

  lemma SubsetCardinality(a: set<string>, b: set<string>)
    requires a <= b
    ensures |a| <= |b|
  {
    assert b == a + (b - a);
  }

  /** The search for a free suffix is bounded: each key in use rules out at most one, so
      no more suffixes are blocked than there are keys in use. */
  lemma SuffixSearchBounded(resourcePrefix: string, bound: nat, env: EnvMap, ancestorKeys: set<string>,
                            allocationKeys: set<string>, defaults: seq<Default>)
    requires bound >= 2
    requires forall n :: 2 <= n < bound ==>
      !PrefixAvailable(Some(SuffixedPrefix(resourcePrefix, n)), env, ancestorKeys, allocationKeys, defaults)
    ensures bound - 2 <= |ancestorKeys + allocationKeys|
  {
    var blocking := BlockingKeys(resourcePrefix, bound, env, ancestorKeys, allocationKeys, defaults);
    SubsetCardinality(blocking, ancestorKeys + allocationKeys);
  }

  /** The open-ended search: it ends at the first available candidate, after at most one
      try more than there are keys in use. */
  method ChoosePrefix(resourceName: string, allocationName: string, env: EnvMap, ancestorKeys: set<string>,
                      allocationKeys: set<string>, defaults: seq<Default>)
    returns (prefix: Option<string>, ghost index: nat)
    ensures prefix == Candidate(resourceName, allocationName, index)
    ensures PrefixAvailable(prefix, env, ancestorKeys, allocationKeys, defaults)
    ensures FirstAvailable(resourceName, allocationName, env, ancestorKeys, allocationKeys, defaults, index)
    ensures index <= |ancestorKeys + allocationKeys| + 3
  {
    hide PrefixAvailable, AllocationEnvPrefix;
    var allocationPrefix := AllocationEnvPrefix(allocationName);
    var resourcePrefix := AllocationEnvPrefix(resourceName) + "_" + allocationPrefix;
    if PrefixAvailable(None, env, ancestorKeys, allocationKeys, defaults) {
      return None, 0;
    }
    if PrefixAvailable(Some(allocationPrefix), env, ancestorKeys, allocationKeys, defaults) {
      return Some(allocationPrefix), 1;
    }
    if PrefixAvailable(Some(resourcePrefix), env, ancestorKeys, allocationKeys, defaults) {
      return Some(resourcePrefix), 2;
    }
    var suffix := 2;
    while !PrefixAvailable(Some(resourcePrefix + "_" + Decimal(suffix)), env, ancestorKeys, allocationKeys, defaults)
      invariant 2 <= suffix <= |ancestorKeys + allocationKeys| + 2
      invariant forall n :: 2 <= n < suffix ==>
        !PrefixAvailable(Some(SuffixedPrefix(resourcePrefix, n)), env, ancestorKeys, allocationKeys, defaults)
      decreases |ancestorKeys + allocationKeys| + 2 - suffix
    {
      suffix := suffix + 1;
      SuffixSearchBounded(resourcePrefix, suffix, env, ancestorKeys, allocationKeys, defaults);
    }
    prefix, index := Some(resourcePrefix + "_" + Decimal(suffix)), suffix + 1;
    forall i | 0 <= i < index
      ensures !PrefixAvailable(Candidate(resourceName, allocationName, i), env, ancestorKeys, allocationKeys, defaults)
    {
      if i >= 3 {
        assert Candidate(resourceName, allocationName, i) == Some(SuffixedPrefix(resourcePrefix, i - 1));
      }
    }
  }

  // ------------------------------------------------------------------
  // Merging defaults into one environment
  // ------------------------------------------------------------------

  /** All entries of `before` are kept as they are. */
  ghost predicate Extends(before: EnvMap, after: EnvMap) {
    forall k :: k in before ==> k in after && after[k] == before[k]
  }

  ghost predicate IsGenerated(prefix: Option<string>, defaults: seq<Default>, key: string, template: string) {
    exists i :: 0 <= i < |defaults| && key == GeneratedKey(prefix, defaults[i].key) && template == defaults[i].template
  }

  /** A generated key of a default whose bare key was not there. */
  ghost predicate IsNewDefault(before: EnvMap, prefix: Option<string>, defaults: seq<Default>, key: string,
                               template: string)
  {
    exists i :: 0 <= i < |defaults| && defaults[i].key !in before && key == GeneratedKey(prefix, defaults[i].key)
      && template == defaults[i].template
  }

  /** Distinct keys, none of which is another with something and a `_` put before it. */
  ghost predicate Independent(defaults: seq<Default>) {
    forall i, j :: 0 <= i < |defaults| && 0 <= j < |defaults| && i != j ==>
      && defaults[i].key != defaults[j].key
      && !EndsWithKey(defaults[i].key, defaults[j].key)
  }

  predicate EndsWithKey(long: string, key: string) {
    |key| < |long| && long[|long| - |key|..] == key
  }

  lemma GeneratedKeyDistinct(prefix: Option<string>, defaults: seq<Default>, i: nat, j: nat)
    requires Independent(defaults) && i < |defaults| && j < |defaults| && i != j
    ensures GeneratedKey(prefix, defaults[i].key) != GeneratedKey(prefix, defaults[j].key)
    ensures GeneratedKey(prefix, defaults[i].key) != defaults[j].key
  {
    if prefix.Some? {
      var head, k, l := prefix.value + "_", defaults[i].key, defaults[j].key;
      assert (head + k)[|head|..] == k && (head + l)[|head|..] == l;
      assert GeneratedKey(prefix, k) == head + k;
      if head + k == l {
        assert l[|l| - |k|..] == k;
        assert EndsWithKey(l, k);
      }
    }
  }

  method MergeResourceEnvDefaults(before: EnvMap, rootKeys: set<string>, beforeKeys: set<string>,
                                  defaults: seq<Default>)
    returns (env: EnvMap, resourceKeys: set<string>)
    ensures Extends(before, env)
    ensures forall k :: k in env && k !in before ==>
      k !in rootKeys && k !in beforeKeys && IsGenerated(None, defaults, k, env[k])
    ensures forall i :: 0 <= i < |defaults| ==>
      defaults[i].key in env || defaults[i].key in rootKeys || defaults[i].key in beforeKeys
    ensures resourceKeys == beforeKeys + (env.Keys - before.Keys)
  {
    env, resourceKeys := before, beforeKeys;
    var i := 0;
    while i < |defaults|
      invariant 0 <= i <= |defaults|
      invariant Extends(before, env)
      invariant forall k :: k in env && k !in before ==>
        k !in rootKeys && k !in beforeKeys && IsGenerated(None, defaults, k, env[k])
      invariant forall j :: 0 <= j < i ==>
        defaults[j].key in env || defaults[j].key in rootKeys || defaults[j].key in beforeKeys
      invariant resourceKeys == beforeKeys + (env.Keys - before.Keys)
    {
      var key, value := defaults[i].key, defaults[i].template;
      if key in env || key in rootKeys || key in resourceKeys {
        i := i + 1;
        continue;
      }
      assert IsGenerated(None, defaults, key, value) by {
        assert key == GeneratedKey(None, defaults[i].key);
      }
      env := env[key := value];
      resourceKeys := resourceKeys + {key};
      i := i + 1;
    }
  }

  /** One allocation's environment after a merge under one prefix: old entries kept; every
      new key is a default's key under that prefix and was used nowhere before. */
  ghost predicate MergedEnv(before: EnvMap, env: EnvMap, prefix: Option<string>, ancestorKeys: set<string>,
                            beforeKeys: set<string>, defaults: seq<Default>)
  {
    && Extends(before, env)
    && forall k :: k in env && k !in before ==>
         k !in ancestorKeys && k !in beforeKeys && IsNewDefault(before, prefix, defaults, k, env[k])
  }

  /** Each default is there under its bare key, or under its prefixed key with the
      default's template unless the user already had that key. */
  ghost predicate Complete(before: EnvMap, env: EnvMap, prefix: Option<string>, defaults: seq<Default>) {
    forall i :: 0 <= i < |defaults| ==> HasDefault(before, env, prefix, defaults[i])
  }

  ghost predicate HasDefault(before: EnvMap, env: EnvMap, prefix: Option<string>, d: Default) {
    || d.key in before
    || (GeneratedKey(prefix, d.key) in env
        && (GeneratedKey(prefix, d.key) in before || env[GeneratedKey(prefix, d.key)] == d.template))
  }

  method MergePrefixedEnvDefaults(before: EnvMap, prefix: Option<string>, ancestorKeys: set<string>,
                                  beforeKeys: set<string>, defaults: seq<Default>)
    returns (env: EnvMap, allocationKeys: set<string>)
    ensures MergedEnv(before, env, prefix, ancestorKeys, beforeKeys, defaults)
    ensures allocationKeys == beforeKeys + (env.Keys - before.Keys)
    ensures Independent(defaults) && PrefixAvailable(prefix, before, ancestorKeys, beforeKeys, defaults) ==>
      Complete(before, env, prefix, defaults)
  {
    hide GeneratedKey, Independent;
    env, allocationKeys := before, beforeKeys;
    ghost var good := Independent(defaults) && PrefixAvailable(prefix, before, ancestorKeys, beforeKeys, defaults);
    var i := 0;
    while i < |defaults|
      invariant 0 <= i <= |defaults|
      invariant MergedEnv(before, env, prefix, ancestorKeys, beforeKeys, defaults)
      invariant allocationKeys == beforeKeys + (env.Keys - before.Keys)
      invariant good ==> forall j :: 0 <= j < i ==> HasDefault(before, env, prefix, defaults[j])
      invariant good ==> forall j :: i <= j < |defaults| ==>
        && (defaults[j].key in env ==> defaults[j].key in before)
        && (GeneratedKey(prefix, defaults[j].key) in env ==> GeneratedKey(prefix, defaults[j].key) in before)
    {
      var bare, value := defaults[i].key, defaults[i].template;
      if bare in env {
        i := i + 1;
        continue;
      }
      var key := GeneratedKey(prefix, bare);
      if key in env || key in ancestorKeys || key in allocationKeys {
        i := i + 1;
        continue;
      }
      assert IsNewDefault(before, prefix, defaults, key, value);
      if good {
        forall j | 0 <= j < |defaults| && j != i
          ensures defaults[j].key != key && GeneratedKey(prefix, defaults[j].key) != key
        {
          GeneratedKeyDistinct(prefix, defaults, i, j);
        }
      }
      env := env[key := value];
      allocationKeys := allocationKeys + {key};
      i := i + 1;
    }
  }

  // ------------------------------------------------------------------
  // Merging defaults into the allocations of one resource
  // ------------------------------------------------------------------

  /** The allocation gets its defaults under the first available of its prefixes: no default
      is missing, and nothing else is new. */
  ghost predicate MergedAllocation(before: EnvMap, after: EnvMap, resource: string, allocation: string,
                                   ancestorKeys: set<string>, allocationKeys: set<string>, defaults: seq<Default>)
  {
    exists i: nat ::
      && FirstAvailable(resource, allocation, before, ancestorKeys, allocationKeys, defaults, i)
      && MergedUnder(before, after, Candidate(resource, allocation, i), defaults)
  }

  ghost predicate MergedUnder(before: EnvMap, after: EnvMap, prefix: Option<string>, defaults: seq<Default>) {
    && Extends(before, after)
    && (forall k :: k in after && k !in before ==> IsNewDefault(before, prefix, defaults, k, after[k]))
    && Complete(before, after, prefix, defaults)
  }

  ghost predicate NewKey(before: map<string, AllocationConfig>, after: map<string, AllocationConfig>, a: string,
                         k: string) {
    a in before && a in after && k in after[a].env && k !in before[a].env
  }

  /** What a merge may do to the allocations of a resource. */
  ghost predicate AllocationsMerged(before: map<string, AllocationConfig>, after: map<string, AllocationConfig>,
                                    ancestorKeys: set<string>, beforeKeys: set<string>, allocationKeys: set<string>)
  {
    && after.Keys == before.Keys
    && (forall a :: a in before ==> Extends(before[a].env, after[a].env))
    && (forall a, k :: NewKey(before, after, a, k) ==>
          k !in ancestorKeys && k !in beforeKeys && k in allocationKeys)
    && (forall a, b, k :: NewKey(before, after, a, k) && NewKey(before, after, b, k) ==> a == b)
    && beforeKeys <= allocationKeys
    && (forall k :: k in allocationKeys && k !in beforeKeys ==> exists a :: NewKey(before, after, a, k))
  }

  /** The allocation keys in use once these allocations have been merged. */
  ghost function KeysInUse(before: map<string, AllocationConfig>, after: map<string, AllocationConfig>,
                           beforeKeys: set<string>, merged: seq<string>): set<string>
  {
    beforeKeys + set a, k | a in before && a in after && a in merged && k in after[a].env && k !in before[a].env :: k
  }

  /** What the j-th listed allocation has come to, if it is there and not listed before. */
  ghost predicate MergedAt(before: map<string, AllocationConfig>, after: map<string, AllocationConfig>,
                           resource: string, allocations: seq<string>, j: nat, ancestorKeys: set<string>,
                           beforeKeys: set<string>, defaults: seq<Default>)
    requires j < |allocations|
  {
    var a := allocations[j];
    a in before && a !in allocations[..j] ==>
      a in after && MergedAllocation(before[a].env, after[a].env, resource, a, ancestorKeys,
                                     KeysInUse(before, after, beforeKeys, allocations[..j]), defaults)
  }

  /** The keys in use do not change by merging another allocation, and then grow by its own. */
  lemma KeysInUseStep(before: map<string, AllocationConfig>, now: map<string, AllocationConfig>,
                      beforeKeys: set<string>, allocations: seq<string>, i: nat, env: EnvMap)
    requires i < |allocations| && allocations[i] !in allocations[..i] && allocations[i] in before
    requires allocations[i] in now && now[allocations[i]] == before[allocations[i]]
    ensures var a := allocations[i];
      var after := now[a := AllocationConfig(env)];
      && (forall j :: 0 <= j <= i ==>
            KeysInUse(before, after, beforeKeys, allocations[..j])
            == KeysInUse(before, now, beforeKeys, allocations[..j]))
      && KeysInUse(before, after, beforeKeys, allocations[..i + 1])
         == KeysInUse(before, now, beforeKeys, allocations[..i]) + (env.Keys - before[a].env.Keys)
  {
    var a := allocations[i];
    var after := now[a := AllocationConfig(env)];
    forall j | 0 <= j <= i
      ensures KeysInUse(before, after, beforeKeys, allocations[..j])
           == KeysInUse(before, now, beforeKeys, allocations[..j])
    {
      assert a !in allocations[..j];
    }
    assert allocations[..i + 1] == allocations[..i] + [a];
    var used := KeysInUse(before, after, beforeKeys, allocations[..i + 1]);
    forall k | k in env && k !in before[a].env ensures k in used {
      // The new keys are those of the allocation just merged.
      assert a in allocations[..i + 1] && k in after[a].env;
    }
  }

  lemma KeysInUseNone(before: map<string, AllocationConfig>, now: map<string, AllocationConfig>,
                      beforeKeys: set<string>)
    ensures KeysInUse(before, now, beforeKeys, []) == beforeKeys
  {
  }

  /** Nothing is used by an allocation listed again, or not there. */
  lemma KeysInUseSkip(before: map<string, AllocationConfig>, now: map<string, AllocationConfig>,
                      beforeKeys: set<string>, allocations: seq<string>, i: nat)
    requires i < |allocations| && (allocations[i] in allocations[..i] || allocations[i] !in before)
    ensures KeysInUse(before, now, beforeKeys, allocations[..i + 1])
         == KeysInUse(before, now, beforeKeys, allocations[..i])
  {
    assert allocations[..i + 1] == allocations[..i] + [allocations[i]];
  }

  /** Earlier allocations stay merged while another one is. */
  lemma MergedAtStep(before: map<string, AllocationConfig>, now: map<string, AllocationConfig>, resource: string,
                     allocations: seq<string>, i: nat, env: EnvMap, ancestorKeys: set<string>, beforeKeys: set<string>,
                     defaults: seq<Default>)
    requires i < |allocations| && allocations[i] !in allocations[..i] && allocations[i] in before
    requires allocations[i] in now && now[allocations[i]] == before[allocations[i]]
    requires forall j :: 0 <= j < i ==>
      MergedAt(before, now, resource, allocations, j, ancestorKeys, beforeKeys, defaults)
    requires MergedAllocation(before[allocations[i]].env, env, resource, allocations[i], ancestorKeys,
                              KeysInUse(before, now, beforeKeys, allocations[..i]), defaults)
    ensures var after := now[allocations[i] := AllocationConfig(env)];
      forall j :: 0 <= j <= i ==> MergedAt(before, after, resource, allocations, j, ancestorKeys, beforeKeys, defaults)
  {
    KeysInUseStep(before, now, beforeKeys, allocations, i, env);
    hide KeysInUse, MergedAllocation;
    var after := now[allocations[i] := AllocationConfig(env)];
    forall j | 0 <= j <= i
      ensures MergedAt(before, after, resource, allocations, j, ancestorKeys, beforeKeys, defaults)
    {
      assert KeysInUse(before, after, beforeKeys, allocations[..j])
          == KeysInUse(before, now, beforeKeys, allocations[..j]);
      if j < i {
        assert MergedAt(before, now, resource, allocations, j, ancestorKeys, beforeKeys, defaults);
        assert allocations[j] in allocations[..i];
      }
    }
  }

  /** Merging one more, so far untouched, allocation. */
  lemma AllocationsMergedStep(before: map<string, AllocationConfig>, now: map<string, AllocationConfig>, a: string,
                              env: EnvMap, prefix: Option<string>, ancestorKeys: set<string>, beforeKeys: set<string>,
                              nowKeys: set<string>, allocationKeys: set<string>, defaults: seq<Default>)
    requires AllocationsMerged(before, now, ancestorKeys, beforeKeys, nowKeys)
    requires a in before && a in now && now[a] == before[a]
    requires MergedEnv(now[a].env, env, prefix, ancestorKeys, nowKeys, defaults)
    requires allocationKeys == nowKeys + (env.Keys - now[a].env.Keys)
    ensures AllocationsMerged(before, now[a := AllocationConfig(env)], ancestorKeys, beforeKeys, allocationKeys)
  {
    hide IsNewDefault;
    var after := now[a := AllocationConfig(env)];
    forall b, k | b != a ensures NewKey(before, after, b, k) <==> NewKey(before, now, b, k) {
    }
    forall k | k in allocationKeys && k !in beforeKeys ensures exists b :: NewKey(before, after, b, k) {
      if k in nowKeys {
        var b :| NewKey(before, now, b, k);
        assert NewKey(before, after, b, k);
      } else {
        assert NewKey(before, after, a, k);
      }
    }
  }

  method MergeAllocationEnvDefaults(resourceName: string, before: ResourceConfig, allocations: seq<string>,
                                    ancestorKeys: set<string>, beforeKeys: set<string>, defaults: seq<Default>)
    returns (resource: ResourceConfig, allocationKeys: set<string>)
    ensures resource == before.(allocations := resource.allocations)
    ensures AllocationsMerged(before.allocations, resource.allocations, ancestorKeys, beforeKeys, allocationKeys)
    ensures forall a :: a in before.allocations && a !in allocations ==>
      resource.allocations[a] == before.allocations[a]
    ensures Independent(defaults) ==> forall j :: 0 <= j < |allocations| ==>
      MergedAt(before.allocations, resource.allocations, resourceName, allocations, j, ancestorKeys, beforeKeys,
               defaults)
  {
    hide PrefixAvailable, FirstAvailable, MergedEnv, Complete, Candidate, Independent, KeysInUse;
    resource, allocationKeys := before, beforeKeys;
    KeysInUseNone(before.allocations, before.allocations, beforeKeys);
    var seen: set<string> := {};
    var i := 0;
    assert allocations[..i] == [];
    while i < |allocations|
      invariant 0 <= i <= |allocations|
      invariant forall a :: a in seen <==> a in allocations[..i]
      invariant resource == before.(allocations := resource.allocations)
      invariant AllocationsMerged(before.allocations, resource.allocations, ancestorKeys, beforeKeys, allocationKeys)
      invariant forall a :: a in before.allocations && a !in seen ==> resource.allocations[a] == before.allocations[a]
      invariant allocationKeys == KeysInUse(before.allocations, resource.allocations, beforeKeys, allocations[..i])
      invariant Independent(defaults) ==> forall j :: 0 <= j < i ==>
        MergedAt(before.allocations, resource.allocations, resourceName, allocations, j, ancestorKeys, beforeKeys,
                 defaults)
    {
      var name := allocations[i];
      assert allocations[..i + 1] == allocations[..i] + [name];
      i := i + 1;
      if name in seen {
        KeysInUseSkip(before.allocations, resource.allocations, beforeKeys, allocations, i - 1);
        continue;
      }
      seen := seen + {name};
      if name !in resource.allocations {
        KeysInUseSkip(before.allocations, resource.allocations, beforeKeys, allocations, i - 1);
        continue;
      }
      var env := resource.allocations[name].env;
      var prefix, index := ChoosePrefix(resourceName, name, env, ancestorKeys, allocationKeys, defaults);
      var mergedEnv, keys := MergePrefixedEnvDefaults(env, prefix, ancestorKeys, allocationKeys, defaults);
      AllocationsMergedStep(before.allocations, resource.allocations, name, mergedEnv, prefix,
                            ancestorKeys, beforeKeys, allocationKeys, keys, defaults);
      KeysInUseStep(before.allocations, resource.allocations, beforeKeys, allocations, i - 1, mergedEnv);
      if Independent(defaults) {
        MergedUnderCandidate(env, mergedEnv, resourceName, name, index, ancestorKeys, allocationKeys, defaults);
        MergedAtStep(before.allocations, resource.allocations, resourceName, allocations, i - 1, mergedEnv,
                     ancestorKeys, beforeKeys, defaults);
      }
      hide AllocationsMerged, MergedAllocation, MergedAt;
      resource := resource.(allocations := resource.allocations[name := AllocationConfig(mergedEnv)]);
      allocationKeys := keys;
    }
    assert allocations[..i] == allocations;
  }

  lemma MergedUnderCandidate(before: EnvMap, after: EnvMap, resource: string, allocation: string, index: nat,
                             ancestorKeys: set<string>, allocationKeys: set<string>, defaults: seq<Default>)
    requires FirstAvailable(resource, allocation, before, ancestorKeys, allocationKeys, defaults, index)
    requires MergedEnv(before, after, Candidate(resource, allocation, index), ancestorKeys, allocationKeys, defaults)
    requires Complete(before, after, Candidate(resource, allocation, index), defaults)
    ensures MergedAllocation(before, after, resource, allocation, ancestorKeys, allocationKeys, defaults)
  {
    hide Candidate, FirstAvailable, Complete, IsNewDefault;
    assert MergedUnder(before, after, Candidate(resource, allocation, index), defaults);
  }

  // ------------------------------------------------------------------
  // What a merge may do to a configuration
  // ------------------------------------------------------------------

  /** No entry is removed or overwritten, at any depth. */
  ghost predicate Preserved(before: ProjectConfig, after: ProjectConfig) {
    && after.serve == before.serve
    && forall o: Owner :: Extends(EnvOf(before, o), EnvOf(after, o))
  }

  ghost predicate Added(before: ProjectConfig, after: ProjectConfig, o: Owner, k: string) {
    k in EnvOf(after, o) && k !in EnvOf(before, o)
  }

  /** A key added at one depth is given by no other owner at that depth or a shallower one. */
  ghost predicate AddsFreshKeys(before: ProjectConfig, after: ProjectConfig) {
    forall o, other, k :: Added(before, after, o, k) && other != o && !Deeper(other, o) ==> k !in EnvOf(after, other)
  }

  /** Every key wins after the merge for the owner, and with the template, it won before. */
  ghost predicate KeepsMeaning(before: ProjectConfig, after: ProjectConfig) {
    forall o, k :: Wins(before, o, k) ==> Wins(after, o, k) && EnvOf(after, o)[k] == EnvOf(before, o)[k]
  }

  /** Keeping entries and adding only fresh keys keeps the meaning of every key and
      neither creates nor removes a duplicate. */
  lemma FreshAdditionsKeepMeaning(before: ProjectConfig, after: ProjectConfig)
    requires Preserved(before, after) && AddsFreshKeys(before, after)
    ensures KeepsMeaning(before, after)
    ensures ShapeValid(after) <==> ShapeValid(before)
  {
    hide EnvOf;
    forall o, k | Binds(after, o, k) && !Binds(before, o, k) ensures Added(before, after, o, k) {
    }
    forall o, k | Wins(before, o, k) ensures Wins(after, o, k) {
    }
    if ShapeValid(before) {
      forall a, b, key | a != b && SameDepth(a, b) && Binds(after, a, key) ensures !Binds(after, b, key) {
      }
    }
    if ShapeValid(after) {
      forall a, b, key | a != b && SameDepth(a, b) && Binds(before, a, key) ensures !Binds(before, b, key) {
        assert Binds(after, a, key);
      }
    }
  }

  /** Two merges in a row, the second adding at the same depths or deeper ones. */
  lemma AdditionsCompose(a: ProjectConfig, b: ProjectConfig, c: ProjectConfig)
    requires Preserved(a, b) && AddsFreshKeys(a, b)
    requires Preserved(b, c) && AddsFreshKeys(b, c)
    requires forall o, p, k, l :: Added(a, b, o, k) && Added(b, c, p, l) ==> !Deeper(o, p)
    ensures Preserved(a, c) && AddsFreshKeys(a, c)
    ensures forall o, k :: Added(a, c, o, k) ==> Added(a, b, o, k) || Added(b, c, o, k)
  {
    hide EnvOf;
    forall o: Owner ensures Extends(EnvOf(a, o), EnvOf(c, o)) {
      assert Extends(EnvOf(a, o), EnvOf(b, o)) && Extends(EnvOf(b, o), EnvOf(c, o));
    }
    forall o, k | Added(a, c, o, k) ensures Added(a, b, o, k) || Added(b, c, o, k) {
    }
    forall o, other, k | Added(a, c, o, k) && other != o && !Deeper(other, o) ensures k !in EnvOf(c, other) {
      assert Extends(EnvOf(b, other), EnvOf(c, other));
      assert k in EnvOf(c, other) ==> k in EnvOf(b, other) || Added(b, c, other, k);
    }
  }

  // ------------------------------------------------------------------
  // Merging the allocations of the selected resources
  // ------------------------------------------------------------------

  function AncestorKeys(config: ProjectConfig): set<string> {
    config.env.Keys + (set r, k | r in config.resources && k in config.resources[r].env :: k)
  }

  function AllocationKeys(config: ProjectConfig): set<string> {
    set r, a, k | r in config.resources && a in config.resources[r].allocations
                  && k in config.resources[r].allocations[a].env :: k
  }

  ghost predicate AddsAtAllocations(before: ProjectConfig, after: ProjectConfig) {
    forall o, k :: Added(before, after, o, k) ==> o.AllocationOwner?
  }

  lemma EntryKeysCollected(config: ProjectConfig, o: Owner, k: string)
    requires k in EnvOf(config, o)
    ensures if o.AllocationOwner? then k in AllocationKeys(config) else k in AncestorKeys(config)
  {
  }

  function WithAllocations(config: ProjectConfig, r: string, allocations: map<string, AllocationConfig>): ProjectConfig
    requires r in config.resources
  {
    config.(resources := config.resources[r := config.resources[r].(allocations := allocations)])
  }

  lemma ReplaceKeepsAncestors(config: ProjectConfig, r: string, allocations: map<string, AllocationConfig>)
    requires r in config.resources
    ensures AncestorKeys(WithAllocations(config, r, allocations)) == AncestorKeys(config)
  {
    var after := WithAllocations(config, r, allocations);
    assert after.resources.Keys == config.resources.Keys;
    assert forall s :: s in config.resources ==> after.resources[s].env == config.resources[s].env;
    forall k ensures k in AncestorKeys(after) <==> k in AncestorKeys(config) {
      assert k in AncestorKeys(after) <==>
        k in after.env || exists s :: s in after.resources && k in after.resources[s].env;
      assert k in AncestorKeys(config) <==>
        k in config.env || exists s :: s in config.resources && k in config.resources[s].env;
    }
  }

  /** Replacing one resource's allocations by their merge, seen from the configuration. */
  lemma ReplaceAddsFreshKeys(config: ProjectConfig, r: string, allocations: map<string, AllocationConfig>,
                             allocationKeys: set<string>)
    requires r in config.resources
    requires AllocationsMerged(config.resources[r].allocations, allocations, AncestorKeys(config),
                               AllocationKeys(config), allocationKeys)
    ensures var after := WithAllocations(config, r, allocations);
      Preserved(config, after) && AddsFreshKeys(config, after) && AddsAtAllocations(config, after)
  {
    var after := WithAllocations(config, r, allocations);
    var before := config.resources[r].allocations;
    hide AncestorKeys, AllocationKeys;
    forall o, k | Added(config, after, o, k)
      ensures o.AllocationOwner? && o.resource == r && NewKey(before, allocations, o.allocation, k)
    {
    }
    forall o, k | k in EnvOf(config, o)
      ensures if o.AllocationOwner? then k in AllocationKeys(config) else k in AncestorKeys(config)
    {
      EntryKeysCollected(config, o, k);
    }
    hide EnvOf;
    forall o, other, k | Added(config, after, o, k) && other != o && !Deeper(other, o)
      ensures k !in EnvOf(after, other)
    {
      assert k in EnvOf(after, other) ==> k in EnvOf(config, other) || Added(config, after, other, k);
    }
  }

  lemma ReplaceCollectsKeys(config: ProjectConfig, r: string, allocations: map<string, AllocationConfig>,
                            allocationKeys: set<string>)
    requires r in config.resources
    requires AllocationsMerged(config.resources[r].allocations, allocations, AncestorKeys(config),
                               AllocationKeys(config), allocationKeys)
    ensures AllocationKeys(WithAllocations(config, r, allocations)) == allocationKeys
  {
    var after := WithAllocations(config, r, allocations);
    var before := config.resources[r].allocations;
    forall k | k in allocationKeys ensures k in AllocationKeys(after) {
      if k in AllocationKeys(config) {
        var s, a :| s in config.resources && a in config.resources[s].allocations
          && k in config.resources[s].allocations[a].env;
        assert k in after.resources[s].allocations[a].env;
      } else {
        var a :| NewKey(before, allocations, a, k);
        assert k in after.resources[r].allocations[a].env;
      }
    }
    forall k | k in AllocationKeys(after) ensures k in allocationKeys {
      var s, a :| s in after.resources && a in after.resources[s].allocations
        && k in after.resources[s].allocations[a].env;
      if !(k in config.resources[s].allocations[a].env) {
        assert NewKey(before, allocations, a, k);
      } else {
        assert k in AllocationKeys(config);
      }
    }
  }

  /** The place of a resource in the order of the merge. */
  function Turn(name: ResourceName): nat {
    match name case Mailpit => 0 case Mysql => 1 case Postgres => 2 case Redis => 3 case Rustfs => 4
  }

  /** The allocation is merged before those of `name` that come after `earlier`. */
  ghost predicate EarlierTurn(r: string, a: string, name: ResourceName, earlier: seq<string>) {
    (exists n :: Turn(n) < Turn(name) && ConfigKey(n) == r) || (r == ConfigKey(name) && a in earlier)
  }

  /** An allocation key in use at a turn: one of before, or added at an earlier turn. */
  ghost predicate InUse(before: ProjectConfig, after: ProjectConfig, name: ResourceName, earlier: seq<string>,
                        r: string, a: string, k: string)
  {
    && k in EnvOf(after, AllocationOwner(r, a))
    && (k in EnvOf(before, AllocationOwner(r, a)) || EarlierTurn(r, a, name, earlier))
  }

  ghost function KeysAtTurn(before: ProjectConfig, after: ProjectConfig, name: ResourceName, earlier: seq<string>)
    : set<string>
  {
    set r, a, k | r in after.resources && a in after.resources[r].allocations
                  && k in after.resources[r].allocations[a].env && InUse(before, after, name, earlier, r, a, k) :: k
  }

  lemma KeyAtTurn(before: ProjectConfig, after: ProjectConfig, name: ResourceName, earlier: seq<string>, k: string)
    ensures k in KeysAtTurn(before, after, name, earlier) <==>
      exists r, a :: InUse(before, after, name, earlier, r, a, k)
  {
    hide EarlierTurn;
    if r, a :| InUse(before, after, name, earlier, r, a, k) {
      assert k in after.resources[r].allocations[a].env;
    }
  }

  lemma AllocationKeyOwned(config: ProjectConfig, k: string)
    ensures k in AllocationKeys(config) <==> exists r, a :: k in EnvOf(config, AllocationOwner(r, a))
  {
    if r, a :| k in EnvOf(config, AllocationOwner(r, a)) {
      assert k in config.resources[r].allocations[a].env;
    }
    if k in AllocationKeys(config) {
      var r, a :| r in config.resources && a in config.resources[r].allocations
        && k in config.resources[r].allocations[a].env;
      assert k in EnvOf(config, AllocationOwner(r, a));
    }
  }

  /** Each listed allocation of a resource that is there is complete. */
  ghost predicate AllocationsComplete(before: ProjectConfig, after: ProjectConfig, name: ResourceName,
                                      allocations: seq<string>)
  {
    name != Mailpit && ConfigKey(name) in before.resources ==>
      forall j :: 0 <= j < |allocations| && allocations[j] !in allocations[..j]
                  && allocations[j] in before.resources[ConfigKey(name)].allocations ==>
        AllocationComplete(before, after, name, allocations, j)
  }

  /** An allocation has its defaults under the first prefix available at its turn. */
  ghost predicate AllocationComplete(before: ProjectConfig, after: ProjectConfig, name: ResourceName,
                                     allocations: seq<string>, j: nat)
    requires j < |allocations|
  {
    var o := AllocationOwner(ConfigKey(name), allocations[j]);
    MergedAllocation(EnvOf(before, o), EnvOf(after, o), ConfigKey(name), allocations[j], AncestorKeys(after),
                     KeysAtTurn(before, after, name, allocations[..j]), AllocationDefaults(name))
  }

  lemma SuffixStart(long: string, key: string)
    requires |key| >= 2
    ensures EndsWithKey(long, key) ==>
      |key| < |long| && long[|long| - |key|] == key[0] && long[|long| - |key| + 1] == key[1]
  {
    if |key| < |long| {
      assert long[|long| - |key|..][0] == long[|long| - |key|];
      assert long[|long| - |key|..][1] == long[|long| - |key| + 1];
    }
  }

  predicate StartsOnceWithDb(key: string) {
    |key| >= 5 && key[0] == 'D' && key[1] == 'B' && forall p :: 1 <= p < |key| - 1 ==>
      !(key[p] == 'D' && key[p + 1] == 'B')
  }

  lemma DatabaseKeys()
    ensures StartsOnceWithDb("DB_CONNECTION") && StartsOnceWithDb("DB_HOST") && StartsOnceWithDb("DB_PORT")
    ensures StartsOnceWithDb("DB_DATABASE") && StartsOnceWithDb("DB_USERNAME") && StartsOnceWithDb("DB_PASSWORD")
  {
  }

  lemma DatabaseKeysIndependent(a: string, b: string)
    requires StartsOnceWithDb(a) && StartsOnceWithDb(b) && (a[3] != b[3] || a[4] != b[4])
    ensures a != b && !EndsWithKey(a, b)
  {
    SuffixStart(a, b);
  }

  /** The fourth and fifth characters tell the database keys apart. */
  lemma DatabaseKeysDiffer(name: ResourceName, i: nat, j: nat)
    requires name == Mysql || name == Postgres
    requires i < j < |AllocationDefaults(name)|
    ensures var a, b := AllocationDefaults(name)[i].key, AllocationDefaults(name)[j].key;
      StartsOnceWithDb(a) && StartsOnceWithDb(b) && (a[3] != b[3] || a[4] != b[4])
  {
    DatabaseKeys();
    hide StartsOnceWithDb;
    var a := AllocationDefaults(name)[i].key;
    match i
    case 0 => assert a == "DB_CONNECTION";
    case 1 => assert a == "DB_HOST";
    case 2 => assert a == "DB_PORT";
    case 3 => assert a == "DB_DATABASE";
    case _ => assert a == "DB_USERNAME";
  }

  lemma DatabaseDefaultsIndependent(name: ResourceName)
    requires name == Mysql || name == Postgres
    ensures Independent(AllocationDefaults(name))
  {
    hide EndsWithKey, StartsOnceWithDb, AllocationDefaults;
    var defaults := AllocationDefaults(name);
    forall i, j | 0 <= i < |defaults| && 0 <= j < |defaults| && i != j
      ensures defaults[i].key != defaults[j].key && !EndsWithKey(defaults[i].key, defaults[j].key)
    {
      if i < j {
        DatabaseKeysDiffer(name, i, j);
      } else {
        DatabaseKeysDiffer(name, j, i);
      }
      DatabaseKeysIndependent(defaults[i].key, defaults[j].key);
    }
  }

  predicate KeysApart(a: string, b: string) {
    a != b && !EndsWithKey(a, b) && !EndsWithKey(b, a)
  }

  /** The third character from where a suffix would have to begin tells these apart. */
  lemma RedisKeysApart()
    ensures KeysApart("REDIS_HOST", "REDIS_PORT")
    ensures KeysApart("REDIS_HOST", "REDIS_PREFIX") && KeysApart("REDIS_PORT", "REDIS_PREFIX")
  {
    SuffixStart("REDIS_PREFIX", "REDIS_HOST");
    SuffixStart("REDIS_PREFIX", "REDIS_PORT");
    SuffixStart("REDIS_HOST", "REDIS_PORT");
    SuffixStart("REDIS_PORT", "REDIS_HOST");
    SuffixStart("REDIS_HOST", "REDIS_PREFIX");
    SuffixStart("REDIS_PORT", "REDIS_PREFIX");
    hide EndsWithKey;
    assert "REDIS_HOST"[6] == 'H' && "REDIS_PORT"[6] == 'P' && "REDIS_PREFIX"[2] == 'D';
  }

  lemma EndpointKeysApart()
    ensures KeysApart("AWS_ENDPOINT", "AWS_BUCKET")
    ensures KeysApart("AWS_ENDPOINT", "AWS_ACCESS_KEY_ID") && KeysApart("AWS_ENDPOINT", "AWS_SECRET_ACCESS_KEY")
  {
    SuffixStart("AWS_ENDPOINT", "AWS_BUCKET");
    SuffixStart("AWS_BUCKET", "AWS_ENDPOINT");
    SuffixStart("AWS_ENDPOINT", "AWS_ACCESS_KEY_ID");
    SuffixStart("AWS_ACCESS_KEY_ID", "AWS_ENDPOINT");
    SuffixStart("AWS_ENDPOINT", "AWS_SECRET_ACCESS_KEY");
    SuffixStart("AWS_SECRET_ACCESS_KEY", "AWS_ENDPOINT");
    hide EndsWithKey;
    assert "AWS_ENDPOINT"[2] == 'S' && "AWS_ACCESS_KEY_ID"[5] == 'C' && "AWS_SECRET_ACCESS_KEY"[9] == 'T';
  }

  lemma BucketKeysApart()
    ensures KeysApart("AWS_BUCKET", "AWS_ACCESS_KEY_ID") && KeysApart("AWS_BUCKET", "AWS_SECRET_ACCESS_KEY")
    ensures KeysApart("AWS_ACCESS_KEY_ID", "AWS_SECRET_ACCESS_KEY")
  {
    SuffixStart("AWS_BUCKET", "AWS_ACCESS_KEY_ID");
    SuffixStart("AWS_ACCESS_KEY_ID", "AWS_BUCKET");
    SuffixStart("AWS_BUCKET", "AWS_SECRET_ACCESS_KEY");
    SuffixStart("AWS_SECRET_ACCESS_KEY", "AWS_BUCKET");
    SuffixStart("AWS_ACCESS_KEY_ID", "AWS_SECRET_ACCESS_KEY");
    SuffixStart("AWS_SECRET_ACCESS_KEY", "AWS_ACCESS_KEY_ID");
    hide EndsWithKey;
    assert "AWS_ACCESS_KEY_ID"[7] == 'E' && "AWS_SECRET_ACCESS_KEY"[11] == 'A' && "AWS_SECRET_ACCESS_KEY"[12] == 'C';
    assert "AWS_SECRET_ACCESS_KEY"[4] == 'S';
  }

  lemma FewApart(defaults: seq<Default>)
    requires |defaults| <= 4
    requires forall i, j :: 0 <= i < j < |defaults| ==> KeysApart(defaults[i].key, defaults[j].key)
    ensures Independent(defaults)
  {
    hide EndsWithKey;
    forall i, j | 0 <= i < |defaults| && 0 <= j < |defaults| && i != j
      ensures defaults[i].key != defaults[j].key && !EndsWithKey(defaults[i].key, defaults[j].key)
    {
      assert if i < j then KeysApart(defaults[i].key, defaults[j].key) else KeysApart(defaults[j].key, defaults[i].key);
    }
  }

  lemma RedisDefaultsIndependent()
    ensures Independent(AllocationDefaults(Redis))
  {
    hide KeysApart, Independent;
    RedisKeysApart();
    FewApart(AllocationDefaults(Redis));
  }

  lemma RustfsDefaultsIndependent()
    ensures Independent(AllocationDefaults(Rustfs))
  {
    hide KeysApart, Independent;
    EndpointKeysApart();
    BucketKeysApart();
    FewApart(AllocationDefaults(Rustfs));
  }

  /** No default key of a resource ends another behind an underscore. */
  lemma DefaultsIndependent(name: ResourceName)
    ensures Independent(AllocationDefaults(name))
  {
    hide EndsWithKey;
    if name == Mysql || name == Postgres {
      DatabaseDefaultsIndependent(name);
    } else if name == Redis {
      RedisDefaultsIndependent();
    } else if name == Rustfs {
      RustfsDefaultsIndependent();
    }
  }

  predicate IsSelected(selection: Selection, name: ResourceName) {
    name in selection.resources && selection.resources[name].selected
  }

  /** The allocations a selection lists for a resource. */
  function Listed(selection: Selection, name: ResourceName): seq<string> {
    if name in selection.resources then selection.resources[name].allocations else []
  }

  /** Nothing but allocation environments differs. */
  ghost predicate SameStructure(before: ProjectConfig, after: ProjectConfig) {
    && after == before.(resources := after.resources)
    && after.resources.Keys == before.resources.Keys
    && forall r :: r in before.resources ==>
         && after.resources[r].track == before.resources[r].track
         && after.resources[r].env == before.resources[r].env
         && after.resources[r].allocations.Keys == before.resources[r].allocations.Keys
  }

  /** A resource, present or not, is as it was. */
  ghost predicate SameResource(before: ProjectConfig, after: ProjectConfig, r: string) {
    && (r in after.resources <==> r in before.resources)
    && (r in before.resources ==> after.resources[r] == before.resources[r])
  }

  /** Only resources of these names differ. */
  ghost predicate OnlyResources(before: ProjectConfig, after: ProjectConfig, names: set<ResourceName>) {
    forall r :: (forall n :: n in names ==> ConfigKey(n) != r) ==> SameResource(before, after, r)
  }

  /** A resource's allocations that are not listed are as they were. */
  ghost predicate OnlyListed(before: ProjectConfig, after: ProjectConfig, name: ResourceName, listed: seq<string>) {
    ConfigKey(name) in before.resources && ConfigKey(name) in after.resources ==>
      var was, now := before.resources[ConfigKey(name)].allocations, after.resources[ConfigKey(name)].allocations;
      forall a :: a in was && a !in listed ==> a in now && now[a] == was[a]
  }

  lemma OnlyResourcesMore(before: ProjectConfig, now: ProjectConfig, names: set<ResourceName>, name: ResourceName,
                          resource: ResourceConfig)
    requires OnlyResources(before, now, names)
    ensures OnlyResources(before, now.(resources := now.resources[ConfigKey(name) := resource]), names + {name})
  {
    hide ConfigKey;
    var after := now.(resources := now.resources[ConfigKey(name) := resource]);
    forall r | forall n :: n in names + {name} ==> ConfigKey(n) != r ensures SameResource(before, after, r) {
      assert name in names + {name};
      assert forall n :: n in names ==> n in names + {name};
      assert SameResource(before, now, r);
    }
  }

  lemma OnlyListedStep(before: ProjectConfig, now: ProjectConfig, names: set<ResourceName>, name: ResourceName,
                       resource: ResourceConfig, selection: Selection)
    requires name !in names
    requires forall n :: n in names ==> OnlyListed(before, now, n, Listed(selection, n))
    ensures forall n :: n in names ==>
      OnlyListed(before, now.(resources := now.resources[ConfigKey(name) := resource]), n, Listed(selection, n))
  {
    hide ConfigKey;
    forall n | n in names
      ensures OnlyListed(before, now.(resources := now.resources[ConfigKey(name) := resource]), n, Listed(selection, n))
    {
      ConfigKeyInjective(n, name);
    }
  }

  ghost predicate Untouched(before: ProjectConfig, after: ProjectConfig, name: ResourceName) {
    ConfigKey(name) in before.resources ==>
      ConfigKey(name) in after.resources && after.resources[ConfigKey(name)] == before.resources[ConfigKey(name)]
  }

  /** Only resources of earlier turns differ. */
  ghost predicate OnlyEarlier(before: ProjectConfig, now: ProjectConfig, name: ResourceName) {
    forall r :: (forall n :: Turn(n) < Turn(name) ==> ConfigKey(n) != r) ==> SameResource(before, now, r)
  }

  function EnvIn(allocations: map<string, AllocationConfig>, a: string): EnvMap {
    if a in allocations then allocations[a].env else map[]
  }

  /** What replacing one resource's allocations makes of the allocation environments. */
  lemma ReplacedEnvs(config: ProjectConfig, previous: ProjectConfig, r: string,
                     allocations: map<string, AllocationConfig>)
    requires SameStructure(config, previous) && r in config.resources
    requires allocations.Keys == config.resources[r].allocations.Keys
    ensures forall o: Owner :: o.AllocationOwner? && o.resource != r ==>
      EnvOf(WithAllocations(previous, r, allocations), o) == EnvOf(previous, o)
    ensures forall a ::
      EnvOf(WithAllocations(previous, r, allocations), AllocationOwner(r, a)) == EnvIn(allocations, a)
    ensures forall a :: EnvOf(config, AllocationOwner(r, a)) == EnvIn(config.resources[r].allocations, a)
  {
  }

  /** Within the configuration, a resource's own account of the keys in use is the global one. */
  lemma KeysAtOwnTurn(config: ProjectConfig, previous: ProjectConfig, name: ResourceName,
                      allocations: map<string, AllocationConfig>, earlier: seq<string>)
    requires SameStructure(config, previous) && OnlyEarlier(config, previous, name)
    requires ConfigKey(name) in config.resources
    requires MergedFrom(config.resources[ConfigKey(name)].allocations, allocations)
    ensures KeysAtTurn(config, WithAllocations(previous, ConfigKey(name), allocations), name, earlier)
      == KeysInUse(config.resources[ConfigKey(name)].allocations, allocations, AllocationKeys(previous), earlier)
  {
    var key := ConfigKey(name);
    var after := WithAllocations(previous, key, allocations);
    var was := config.resources[key].allocations;
    ReplacedEnvs(config, previous, key, allocations);
    hide AllocationKeys, KeysAtTurn, SameStructure, WithAllocations;
    forall k ensures k in KeysAtTurn(config, after, name, earlier)
      <==> k in KeysInUse(was, allocations, AllocationKeys(previous), earlier)
    {
      KeyAtTurn(config, after, name, earlier, k);
      AllocationKeyOwned(previous, k);
      if r, a :| InUse(config, after, name, earlier, r, a, k) {
        OwnUse(config, previous, name, allocations, earlier, r, a, k);
      }
      if k in KeysInUse(was, allocations, AllocationKeys(previous), earlier) {
        OwnKey(config, previous, name, allocations, earlier, k);
      }
    }
  }

  /** The allocations of a resource, some with more entries. */
  ghost predicate MergedFrom(was: map<string, AllocationConfig>, allocations: map<string, AllocationConfig>) {
    allocations.Keys == was.Keys && forall a :: a in allocations ==> Extends(was[a].env, allocations[a].env)
  }

  lemma OwnUse(config: ProjectConfig, previous: ProjectConfig, name: ResourceName,
               allocations: map<string, AllocationConfig>, earlier: seq<string>, r: string, a: string, k: string)
    requires SameStructure(config, previous) && OnlyEarlier(config, previous, name)
    requires ConfigKey(name) in config.resources
    requires MergedFrom(config.resources[ConfigKey(name)].allocations, allocations)
    requires InUse(config, WithAllocations(previous, ConfigKey(name), allocations), name, earlier, r, a, k)
    ensures k in KeysInUse(config.resources[ConfigKey(name)].allocations, allocations, AllocationKeys(previous),
                           earlier)
  {
    ReplacedEnvs(config, previous, ConfigKey(name), allocations);
    AllocationKeyOwned(previous, k);
    OwnBefore(config, previous, name);
    hide AllocationKeys, OnlyEarlier, ConfigKey, SameStructure, WithAllocations;
    if r == ConfigKey(name) && k in EnvOf(config, AllocationOwner(r, a)) {
      assert k in EnvOf(previous, AllocationOwner(r, a));
    }
  }

  /** Before its turn, a resource is as it was, and not one of earlier turns. */
  lemma OwnBefore(config: ProjectConfig, previous: ProjectConfig, name: ResourceName)
    requires OnlyEarlier(config, previous, name)
    ensures SameResource(config, previous, ConfigKey(name))
    ensures forall a ::
      EnvOf(previous, AllocationOwner(ConfigKey(name), a)) == EnvOf(config, AllocationOwner(ConfigKey(name), a))
    ensures forall a, earlier :: EarlierTurn(ConfigKey(name), a, name, earlier) <==> a in earlier
  {
    forall n | Turn(n) < Turn(name) ensures ConfigKey(n) != ConfigKey(name) {
      ConfigKeyInjective(n, name);
    }
    hide ConfigKey;
    assert SameResource(config, previous, ConfigKey(name));
  }

  lemma OwnKey(config: ProjectConfig, previous: ProjectConfig, name: ResourceName,
               allocations: map<string, AllocationConfig>, earlier: seq<string>, k: string)
    requires SameStructure(config, previous) && OnlyEarlier(config, previous, name)
    requires ConfigKey(name) in config.resources
    requires MergedFrom(config.resources[ConfigKey(name)].allocations, allocations)
    requires k in KeysInUse(config.resources[ConfigKey(name)].allocations, allocations, AllocationKeys(previous),
                            earlier)
    ensures exists r, a ::
      InUse(config, WithAllocations(previous, ConfigKey(name), allocations), name, earlier, r, a, k)
  {
    var key := ConfigKey(name);
    var after := WithAllocations(previous, key, allocations);
    var was := config.resources[key].allocations;
    ReplacedEnvs(config, previous, key, allocations);
    AllocationKeyOwned(previous, k);
    OwnBefore(config, previous, name);
    hide AllocationKeys, ConfigKey, SameStructure, WithAllocations;
    if k in AllocationKeys(previous) {
      var r, a :| k in EnvOf(previous, AllocationOwner(r, a));
      if !EarlierTurn(r, a, name, earlier) {
        assert SameResource(config, previous, r);
      }
      assert InUse(config, after, name, earlier, r, a, k);
    } else {
      var a :| a in was && a in allocations && a in earlier && k in allocations[a].env && k !in was[a].env;
      assert InUse(config, after, name, earlier, key, a, k);
    }
  }

  /** Merging a later resource does not change the keys in use at an earlier turn. */
  lemma KeysAtEarlierTurn(config: ProjectConfig, previous: ProjectConfig, name: ResourceName,
                          allocations: map<string, AllocationConfig>, other: ResourceName, earlier: seq<string>)
    requires SameStructure(config, previous) && ConfigKey(name) in config.resources
    requires Untouched(config, previous, name) && Turn(other) < Turn(name)
    requires MergedFrom(config.resources[ConfigKey(name)].allocations, allocations)
    ensures KeysAtTurn(config, WithAllocations(previous, ConfigKey(name), allocations), other, earlier)
      == KeysAtTurn(config, previous, other, earlier)
  {
    var after := WithAllocations(previous, ConfigKey(name), allocations);
    ReplacedEnvs(config, previous, ConfigKey(name), allocations);
    forall a ensures !EarlierTurn(ConfigKey(name), a, other, earlier) {
      LaterResource(name, other);
    }
    hide KeysAtTurn, ConfigKey, WithAllocations, EarlierTurn;
    forall r, a, k
      ensures InUse(config, after, other, earlier, r, a, k) <==> InUse(config, previous, other, earlier, r, a, k)
    {
    }
    forall k
      ensures k in KeysAtTurn(config, after, other, earlier) <==> k in KeysAtTurn(config, previous, other, earlier)
    {
      KeyAtTurn(config, after, other, earlier, k);
      KeyAtTurn(config, previous, other, earlier, k);
    }
  }

  lemma LaterResource(name: ResourceName, other: ResourceName)
    requires Turn(other) < Turn(name)
    ensures forall n :: Turn(n) <= Turn(other) ==> ConfigKey(n) != ConfigKey(name)
  {
    forall n | Turn(n) <= Turn(other) ensures ConfigKey(n) != ConfigKey(name) {
      ConfigKeyInjective(n, name);
    }
  }

  /** The resource whose turn it is has become complete. */
  lemma AllocationsCompleteNow(config: ProjectConfig, previous: ProjectConfig, name: ResourceName,
                               allocations: map<string, AllocationConfig>, listed: seq<string>)
    requires SameStructure(config, previous) && OnlyEarlier(config, previous, name)
    requires ConfigKey(name) in config.resources
    requires MergedFrom(config.resources[ConfigKey(name)].allocations, allocations)
    requires forall j :: 0 <= j < |listed| ==>
      MergedAt(config.resources[ConfigKey(name)].allocations, allocations, ConfigKey(name), listed, j,
               AncestorKeys(previous), AllocationKeys(previous), AllocationDefaults(name))
    ensures AllocationsComplete(config, WithAllocations(previous, ConfigKey(name), allocations), name, listed)
  {
    hide MergedAllocation, AllocationDefaults, AncestorKeys, AllocationKeys, OnlyEarlier, KeysInUse, KeysAtTurn,
      ConfigKey;
    var after := WithAllocations(previous, ConfigKey(name), allocations);
    ReplaceKeepsAncestors(previous, ConfigKey(name), allocations);
    forall j | 0 <= j < |listed| && listed[j] !in listed[..j]
               && listed[j] in config.resources[ConfigKey(name)].allocations
      ensures AllocationComplete(config, after, name, listed, j)
    {
      KeysAtOwnTurn(config, previous, name, allocations, listed[..j]);
      assert MergedAt(config.resources[ConfigKey(name)].allocations, allocations, ConfigKey(name), listed, j,
                      AncestorKeys(previous), AllocationKeys(previous), AllocationDefaults(name));
    }
  }

  /** Those of earlier turns stay complete, and those of later ones untouched. */
  lemma AllocationsCompleteStep(config: ProjectConfig, previous: ProjectConfig, name: ResourceName,
                                allocations: map<string, AllocationConfig>)
    requires SameStructure(config, previous) && ConfigKey(name) in config.resources && Untouched(config, previous, name)
    requires MergedFrom(config.resources[ConfigKey(name)].allocations, allocations)
    ensures var after := WithAllocations(previous, ConfigKey(name), allocations);
      && (forall other, l :: Turn(other) < Turn(name) && AllocationsComplete(config, previous, other, l) ==>
            AllocationsComplete(config, after, other, l))
      && (forall other :: other != name && Untouched(config, previous, other) ==> Untouched(config, after, other))
  {
    hide MergedAllocation, AllocationDefaults, AncestorKeys, KeysAtTurn;
    var after := WithAllocations(previous, ConfigKey(name), allocations);
    ReplaceKeepsAncestors(previous, ConfigKey(name), allocations);
    forall other, l | Turn(other) < Turn(name) && AllocationsComplete(config, previous, other, l)
      ensures AllocationsComplete(config, after, other, l)
    {
      ConfigKeyInjective(name, other);
      if other != Mailpit && ConfigKey(other) in config.resources {
        forall j | 0 <= j < |l| && l[j] !in l[..j] && l[j] in config.resources[ConfigKey(other)].allocations
          ensures AllocationComplete(config, after, other, l, j)
        {
          KeysAtEarlierTurn(config, previous, name, allocations, other, l[..j]);
          assert AllocationComplete(config, previous, other, l, j);
        }
      }
    }
    forall other | other != name && Untouched(config, previous, other) ensures Untouched(config, after, other) {
      ConfigKeyInjective(name, other);
    }
  }

  lemma ConfigKeyInjective(a: ResourceName, b: ResourceName)
    requires a != b
    ensures ConfigKey(a) != ConfigKey(b)
  {
    assert |ConfigKey(a)| != |ConfigKey(b)| || ConfigKey(a)[2] != ConfigKey(b)[2];
  }

  /** The stage after the first i resources, of which those in `touched` had something to
      complete. */
  ghost predicate StageAt(config: ProjectConfig, merged: ProjectConfig, selection: Selection,
                          touched: set<ResourceName>, i: nat)
    requires i <= |NAMES|
  {
    && SameStructure(config, merged)
    && Preserved(config, merged) && AddsFreshKeys(config, merged) && AddsAtAllocations(config, merged)
    && (forall j :: 0 <= j < i && IsSelected(selection, NAMES[j]) ==>
          AllocationsComplete(config, merged, NAMES[j], Listed(selection, NAMES[j])))
    && (forall j :: i <= j < |NAMES| ==> Untouched(config, merged, NAMES[j]) && NAMES[j] !in touched)
    && OnlyResources(config, merged, touched)
    && (forall n :: n in touched ==> IsSelected(selection, n) && n != Mailpit)
    && (forall n :: n in touched ==> OnlyListed(config, merged, n, Listed(selection, n)))
  }

  lemma StageStart(config: ProjectConfig, selection: Selection)
    ensures StageAt(config, config, selection, {}, 0)
  {
    NothingChanged(config);
  }

  lemma StageSkip(config: ProjectConfig, merged: ProjectConfig, selection: Selection, touched: set<ResourceName>,
                  i: nat)
    requires i < |NAMES| && StageAt(config, merged, selection, touched, i)
    requires !IsSelected(selection, NAMES[i]) || NAMES[i] == Mailpit || ConfigKey(NAMES[i]) !in merged.resources
    ensures StageAt(config, merged, selection, touched, i + 1)
  {
    hide AllocationsComplete, Untouched, OnlyResources, OnlyListed, Preserved, AddsFreshKeys, AddsAtAllocations,
      ConfigKey;
    NothingToComplete(config, merged, NAMES[i]);
  }

  /** What the merge of the resource whose turn it is comes to. */
  ghost predicate TurnResult(previous: ProjectConfig, selection: Selection, name: ResourceName,
                             resource: ResourceConfig, keys: set<string>)
    requires ConfigKey(name) in previous.resources
  {
    var was, listed := previous.resources[ConfigKey(name)], Listed(selection, name);
    && resource == was.(allocations := resource.allocations)
    && AllocationsMerged(was.allocations, resource.allocations, AncestorKeys(previous), AllocationKeys(previous), keys)
    && (forall a :: a in was.allocations && a !in listed ==> resource.allocations[a] == was.allocations[a])
    && forall j :: 0 <= j < |listed| ==>
         MergedAt(was.allocations, resource.allocations, ConfigKey(name), listed, j, AncestorKeys(previous),
                  AllocationKeys(previous), AllocationDefaults(name))
  }

  function WithMerged(previous: ProjectConfig, name: ResourceName, resource: ResourceConfig): ProjectConfig {
    previous.(resources := previous.resources[ConfigKey(name) := resource])
  }

  lemma SameReplacement(previous: ProjectConfig, name: ResourceName, resource: ResourceConfig)
    requires ConfigKey(name) in previous.resources
    requires resource == previous.resources[ConfigKey(name)].(allocations := resource.allocations)
    ensures WithMerged(previous, name, resource) == WithAllocations(previous, ConfigKey(name), resource.allocations)
  {
  }

  lemma StageKeeps(config: ProjectConfig, previous: ProjectConfig, selection: Selection, touched: set<ResourceName>,
                   i: nat, resource: ResourceConfig, keys: set<string>)
    requires i < |NAMES| && StageAt(config, previous, selection, touched, i)
    requires ConfigKey(NAMES[i]) in previous.resources && TurnResult(previous, selection, NAMES[i], resource, keys)
    ensures var after := WithMerged(previous, NAMES[i], resource);
      && AncestorKeys(after) == AncestorKeys(previous) && AllocationKeys(after) == keys
      && SameStructure(config, after)
      && Preserved(config, after) && AddsFreshKeys(config, after) && AddsAtAllocations(config, after)
      && OnlyResources(config, after, touched + {NAMES[i]})
      && forall n :: n in touched + {NAMES[i]} ==> OnlyListed(config, after, n, Listed(selection, n))
  {
    var name := NAMES[i];
    hide OnlyResources, OnlyListed, AncestorKeys, AllocationKeys, AllocationDefaults, AllocationsMerged, ConfigKey,
      Preserved, AddsFreshKeys, AddsAtAllocations, AllocationsComplete, Untouched, MergedFrom, MergedAt;
    UntouchedResource(config, previous, name);
    ReplaceKeeps(config, previous, ConfigKey(name), resource.allocations, keys);
    SameReplacement(previous, name, resource);
    TouchedMore(config, previous, touched, name, resource, selection);
  }

  lemma StageCompletes(config: ProjectConfig, previous: ProjectConfig, selection: Selection, touched: set<ResourceName>,
                       i: nat, resource: ResourceConfig, keys: set<string>)
    requires i < |NAMES| && StageAt(config, previous, selection, touched, i)
    requires ConfigKey(NAMES[i]) in previous.resources && TurnResult(previous, selection, NAMES[i], resource, keys)
    requires MergedFrom(previous.resources[ConfigKey(NAMES[i])].allocations, resource.allocations)
    ensures var after := WithMerged(previous, NAMES[i], resource);
      && (forall j :: 0 <= j <= i && IsSelected(selection, NAMES[j]) ==>
            AllocationsComplete(config, after, NAMES[j], Listed(selection, NAMES[j])))
      && forall j :: i < j < |NAMES| ==> Untouched(config, after, NAMES[j])
  {
    var name := NAMES[i];
    hide OnlyResources, OnlyListed, AncestorKeys, AllocationKeys, AllocationDefaults, AllocationsMerged, ConfigKey,
      Preserved, AddsFreshKeys, AddsAtAllocations, AllocationsComplete, Untouched, MergedFrom, MergedAt, OnlyEarlier;
    UntouchedResource(config, previous, name);
    EarlierOnly(config, previous, touched, name);
    AllocationsCompleteNow(config, previous, name, resource.allocations, Listed(selection, name));
    AllocationsCompleteStep(config, previous, name, resource.allocations);
    SameReplacement(previous, name, resource);
    hide WithAllocations, WithMerged, SameStructure, Turn;
    TurnOfName();
  }

  /** Merging the resource whose turn it is. */
  lemma StageStep(config: ProjectConfig, previous: ProjectConfig, selection: Selection, touched: set<ResourceName>,
                  i: nat, resource: ResourceConfig, keys: set<string>)
    requires i < |NAMES| && StageAt(config, previous, selection, touched, i)
    requires IsSelected(selection, NAMES[i]) && NAMES[i] != Mailpit
    requires ConfigKey(NAMES[i]) in previous.resources && TurnResult(previous, selection, NAMES[i], resource, keys)
    ensures var after := WithMerged(previous, NAMES[i], resource);
      && StageAt(config, after, selection, touched + {NAMES[i]}, i + 1)
      && AncestorKeys(after) == AncestorKeys(previous) && AllocationKeys(after) == keys
  {
    MergedIsFrom(previous, selection, NAMES[i], resource, keys);
    StageKeeps(config, previous, selection, touched, i, resource, keys);
    StageCompletes(config, previous, selection, touched, i, resource, keys);
    hide OnlyResources, OnlyListed, AncestorKeys, AllocationKeys, Preserved, AddsFreshKeys, AddsAtAllocations,
      AllocationsComplete, Untouched, SameStructure, WithMerged, TurnResult, MergedFrom, ConfigKey, Turn;
    TurnOfName();
  }

  lemma TurnOfName()
    ensures forall j :: 0 <= j < |NAMES| ==> Turn(NAMES[j]) == j
  {
  }

  lemma MergedIsFrom(previous: ProjectConfig, selection: Selection, name: ResourceName, resource: ResourceConfig,
                     keys: set<string>)
    requires ConfigKey(name) in previous.resources && TurnResult(previous, selection, name, resource, keys)
    ensures MergedFrom(previous.resources[ConfigKey(name)].allocations, resource.allocations)
  {
    hide AncestorKeys, AllocationKeys, MergedAt, ConfigKey, AllocationDefaults;
  }

  /** `touched` are the resources whose allocations were completed. */
  method MergeGeneratedAllocationEnv(config: ProjectConfig, selection: Selection)
    returns (merged: ProjectConfig, ghost touched: set<ResourceName>)
    ensures Preserved(config, merged) && AddsFreshKeys(config, merged) && AddsAtAllocations(config, merged)
    ensures SameStructure(config, merged)
    ensures forall name :: IsSelected(selection, name) ==>
      AllocationsComplete(config, merged, name, selection.resources[name].allocations)
    ensures OnlyResources(config, merged, touched)
    ensures forall n :: n in touched ==> IsSelected(selection, n) && n != Mailpit
    ensures forall n :: n in touched ==> OnlyListed(config, merged, n, Listed(selection, n))
  {
    hide OnlyResources, OnlyListed, AncestorKeys, AllocationKeys, AllocationDefaults, AllocationsMerged, ConfigKey,
      Preserved, AddsFreshKeys, AddsAtAllocations, AllocationsComplete, SameStructure, MergedAt, Independent, StageAt;
    merged := config;
    var ancestorKeys := AncestorKeys(config);
    var allocationKeys := AllocationKeys(config);
    touched := {};
    StageStart(config, selection);
    var i := 0;
    while i < |NAMES|
      invariant 0 <= i <= |NAMES|
      invariant StageAt(config, merged, selection, touched, i)
      invariant ancestorKeys == AncestorKeys(merged) && allocationKeys == AllocationKeys(merged)
    {
      var name := NAMES[i];
      i := i + 1;
      if name !in selection.resources || !selection.resources[name].selected || name == Mailpit {
        StageSkip(config, merged, selection, touched, i - 1);
        continue;
      }
      var allocations := selection.resources[name].allocations;
      var key := ConfigKey(name);
      if key !in merged.resources {
        StageSkip(config, merged, selection, touched, i - 1);
        continue;
      }
      DefaultsIndependent(name);
      var resource, keys := MergeAllocationEnvDefaults(
        key, merged.resources[key], allocations, ancestorKeys, allocationKeys, AllocationDefaults(name));
      StageStep(config, merged, selection, touched, i - 1, resource, keys);
      merged := merged.(resources := merged.resources[key := resource]);
      touched := touched + {name};
      allocationKeys := keys;
    }
    StageEnd(config, merged, selection, touched);
  }

  lemma StageEnd(config: ProjectConfig, merged: ProjectConfig, selection: Selection, touched: set<ResourceName>)
    requires StageAt(config, merged, selection, touched, |NAMES|)
    ensures Preserved(config, merged) && AddsFreshKeys(config, merged) && AddsAtAllocations(config, merged)
    ensures SameStructure(config, merged) && OnlyResources(config, merged, touched)
    ensures forall name :: IsSelected(selection, name) ==>
      AllocationsComplete(config, merged, name, selection.resources[name].allocations)
    ensures forall n :: n in touched ==> IsSelected(selection, n) && n != Mailpit
    ensures forall n :: n in touched ==> OnlyListed(config, merged, n, Listed(selection, n))
  {
    hide OnlyResources, OnlyListed, Preserved, AddsFreshKeys, AddsAtAllocations, AllocationsComplete, SameStructure,
      Untouched;
    forall name | IsSelected(selection, name)
      ensures AllocationsComplete(config, merged, name, selection.resources[name].allocations)
    {
      assert NAMES[Turn(name)] == name;
    }
  }

  /** All that a merge of one resource keeps of the stage. */
  lemma ReplaceKeeps(config: ProjectConfig, previous: ProjectConfig, r: string,
                     allocations: map<string, AllocationConfig>, keys: set<string>)
    requires SameStructure(config, previous) && r in previous.resources
    requires Preserved(config, previous) && AddsFreshKeys(config, previous) && AddsAtAllocations(config, previous)
    requires AllocationsMerged(previous.resources[r].allocations, allocations, AncestorKeys(previous),
                               AllocationKeys(previous), keys)
    ensures var after := WithAllocations(previous, r, allocations);
      && AncestorKeys(after) == AncestorKeys(previous) && AllocationKeys(after) == keys
      && SameStructure(config, after) && MergedFrom(previous.resources[r].allocations, allocations)
      && Preserved(config, after) && AddsFreshKeys(config, after) && AddsAtAllocations(config, after)
  {
    ReplaceKeepsAncestors(previous, r, allocations);
    ReplaceAddsFreshKeys(previous, r, allocations, keys);
    ReplaceCollectsKeys(previous, r, allocations, keys);
    SameStructureStep(config, previous, r, allocations, AncestorKeys(previous), AllocationKeys(previous), keys);
    hide AncestorKeys, AllocationKeys, AllocationsMerged, MergedFrom, SameStructure, Preserved, AddsFreshKeys,
      WithAllocations, EnvOf;
    AdditionsCompose(config, previous, WithAllocations(previous, r, allocations));
  }

  lemma TouchedMore(config: ProjectConfig, previous: ProjectConfig, touched: set<ResourceName>, name: ResourceName,
                    resource: ResourceConfig, selection: Selection)
    requires name !in touched && OnlyResources(config, previous, touched)
    requires forall n :: n in touched ==> OnlyListed(config, previous, n, Listed(selection, n))
    requires ConfigKey(name) in config.resources
    requires MergedFrom(config.resources[ConfigKey(name)].allocations, resource.allocations)
    requires forall a :: a in config.resources[ConfigKey(name)].allocations && a !in Listed(selection, name) ==>
      resource.allocations[a] == config.resources[ConfigKey(name)].allocations[a]
    ensures var after := previous.(resources := previous.resources[ConfigKey(name) := resource]);
      && OnlyResources(config, after, touched + {name})
      && forall n :: n in touched + {name} ==> OnlyListed(config, after, n, Listed(selection, n))
  {
    var after := previous.(resources := previous.resources[ConfigKey(name) := resource]);
    OnlyResourcesMore(config, previous, touched, name, resource);
    OnlyListedStep(config, previous, touched, name, resource, selection);
    OnlyListedNow(config, after, name, resource, Listed(selection, name));
    hide ConfigKey, OnlyResources, OnlyListed, Listed;
  }

  lemma EarlierOnly(config: ProjectConfig, previous: ProjectConfig, touched: set<ResourceName>, name: ResourceName)
    requires OnlyResources(config, previous, touched)
    requires forall j :: Turn(name) <= j < |NAMES| ==> NAMES[j] !in touched
    ensures OnlyEarlier(config, previous, name)
  {
    hide ConfigKey;
    forall n | n in touched ensures Turn(n) < Turn(name) {
      assert NAMES[Turn(n)] == n;
    }
    hide Turn;
  }

  lemma SameStructureStep(config: ProjectConfig, previous: ProjectConfig, r: string,
                          allocations: map<string, AllocationConfig>, ancestorKeys: set<string>,
                          beforeKeys: set<string>, allocationKeys: set<string>)
    requires SameStructure(config, previous) && r in previous.resources
    requires AllocationsMerged(previous.resources[r].allocations, allocations, ancestorKeys, beforeKeys, allocationKeys)
    ensures SameStructure(config, WithAllocations(previous, r, allocations))
    ensures MergedFrom(previous.resources[r].allocations, allocations)
  {
  }

  lemma OnlyListedNow(config: ProjectConfig, merged: ProjectConfig, name: ResourceName, resource: ResourceConfig,
                      listed: seq<string>)
    requires ConfigKey(name) in config.resources
    requires ConfigKey(name) in merged.resources && merged.resources[ConfigKey(name)] == resource
    requires resource.allocations.Keys == config.resources[ConfigKey(name)].allocations.Keys
    requires forall a :: a in config.resources[ConfigKey(name)].allocations && a !in listed ==>
      resource.allocations[a] == config.resources[ConfigKey(name)].allocations[a]
    ensures OnlyListed(config, merged, name, listed)
  {
  }

  lemma NothingChanged(config: ProjectConfig)
    ensures Preserved(config, config) && AddsFreshKeys(config, config)
    ensures forall name :: Untouched(config, config, name)
    ensures OnlyResources(config, config, {})
  {
  }

  lemma NothingToComplete(config: ProjectConfig, merged: ProjectConfig, name: ResourceName)
    ensures name == Mailpit || ConfigKey(name) !in config.resources ==>
      forall allocations :: AllocationsComplete(config, merged, name, allocations)
  {
  }

  lemma UntouchedResource(config: ProjectConfig, merged: ProjectConfig, name: ResourceName)
    requires Untouched(config, merged, name) && ConfigKey(name) in config.resources
    ensures ConfigKey(name) in merged.resources
    ensures merged.resources[ConfigKey(name)] == config.resources[ConfigKey(name)]
  {
  }

  // ------------------------------------------------------------------
  // Root entries, resource structure and resource entries
  // ------------------------------------------------------------------

  function OrInsert(env: EnvMap, key: string, template: string): EnvMap {
    if key in env then env else env[key := template]
  }

  function RootDefaults(env: EnvMap, selection: Selection): EnvMap {
    var url := if selection.includeAppUrl then OrInsert(env, "APP_URL", "${project_url}") else env;
    if selection.includeViteTls then
      OrInsert(OrInsert(url, "VITE_DEV_SERVER_CERT", "${tls_cert}"), "VITE_DEV_SERVER_KEY", "${tls_key}")
    else url
  }

  function WithRootDefaults(config: ProjectConfig, selection: Selection): ProjectConfig {
    var php := if config.php.Some? then config.php.value else PhpConfig(None, []);
    config.(php := Some(php.(version := Some(selection.php))), documentRoot := selection.documentRoot,
            env := RootDefaults(config.env, selection))
  }

  /** The resource a selection asks for: its track set, its allocations present. */
  function StructuredResource(config: ProjectConfig, name: ResourceName, selection: ResourceSelection): ResourceConfig {
    var existing := if ConfigKey(name) in config.resources then config.resources[ConfigKey(name)]
                    else ResourceConfig(None, map[], map[]);
    WithAllocationNames(existing.(track := Some(selection.track)), selection.allocations)
  }

  function WithAllocationNames(resource: ResourceConfig, names: seq<string>): ResourceConfig {
    var all := resource.allocations.Keys + (set a | a in names);
    resource.(allocations := map a | a in all ::
      if a in resource.allocations then resource.allocations[a] else AllocationConfig(map[]))
  }

  function WithResource(config: ProjectConfig, name: ResourceName, resource: ResourceConfig): ProjectConfig {
    config.(resources := config.resources[ConfigKey(name) := resource])
  }

  lemma AddAllocationName(start: ResourceConfig, names: seq<string>, a: string)
    ensures var resource := WithAllocationNames(start, names);
      WithAllocationNames(start, names + [a]) ==
        if a in names then resource
        else resource.(allocations := resource.allocations[a :=
          if a in resource.allocations then resource.allocations[a] else AllocationConfig(map[])])
    ensures WithAllocationNames(start, []) == start
  {
    assert (set x | x in names + [a]) == (set x | x in names) + {a};
    var more := WithAllocationNames(start, names + [a]).allocations;
    if a in names {
      assert more == WithAllocationNames(start, names).allocations;
    }
    assert WithAllocationNames(start, []).allocations == start.allocations;
  }

  method MergeResourceStructure(config: ProjectConfig, name: ResourceName, selection: ResourceSelection)
    returns (merged: ProjectConfig)
    ensures merged == WithResource(config, name, StructuredResource(config, name, selection))
  {
    hide WithAllocationNames, ConfigKey;
    var existing := if ConfigKey(name) in config.resources then config.resources[ConfigKey(name)]
                    else ResourceConfig(None, map[], map[]);
    var resource := existing.(track := Some(selection.track));
    ghost var start := resource;
    var seen: set<string> := {};
    var i := 0;
    AddAllocationName(start, [], "");
    while i < |selection.allocations|
      invariant 0 <= i <= |selection.allocations|
      invariant forall a :: a in seen <==> a in selection.allocations[..i]
      invariant resource == WithAllocationNames(start, selection.allocations[..i])
    {
      var a := selection.allocations[i];
      AddAllocationName(start, selection.allocations[..i], a);
      assert selection.allocations[..i + 1] == selection.allocations[..i] + [a];
      i := i + 1;
      if a in seen {
        continue;
      }
      seen := seen + {a};
      var allocation := if a in resource.allocations then resource.allocations[a] else AllocationConfig(map[]);
      resource := resource.(allocations := resource.allocations[a := allocation]);
    }
    assert selection.allocations[..i] == selection.allocations;
    merged := config.(resources := config.resources[ConfigKey(name) := resource]);
  }

  ghost predicate SameEntries(before: ProjectConfig, after: ProjectConfig) {
    after.serve == before.serve && forall o: Owner :: EnvOf(after, o) == EnvOf(before, o)
  }

  /** The resource and the allocations a selection names are there, on the selected track. */
  ghost predicate StructurePresent(config: ProjectConfig, name: ResourceName, selection: ResourceSelection) {
    && ConfigKey(name) in config.resources
    && config.resources[ConfigKey(name)].track == Some(selection.track)
    && forall a :: a in selection.allocations ==> a in config.resources[ConfigKey(name)].allocations
  }

  lemma StructureStep(config: ProjectConfig, name: ResourceName, selection: ResourceSelection)
    ensures var after := WithResource(config, name, StructuredResource(config, name, selection));
      && SameEntries(config, after)
      && StructurePresent(after, name, selection)
      && (forall other, l :: other != name && StructurePresent(config, other, l) ==> StructurePresent(after, other, l))
  {
    hide ConfigKey;
    var after := config.(resources := config.resources[ConfigKey(name) := StructuredResource(config, name, selection)]);
    forall other, l | other != name && StructurePresent(config, other, l) ensures StructurePresent(after, other, l) {
      ConfigKeyInjective(name, other);
    }
  }

  /** Each of these resources is as the selection asks, and only these differ. */
  ghost predicate Structured(before: ProjectConfig, after: ProjectConfig, selection: Selection,
                             names: set<ResourceName>) {
    && OnlyResources(before, after, names)
    && forall n :: n in names ==>
         && IsSelected(selection, n)
         && ConfigKey(n) in after.resources
         && after.resources[ConfigKey(n)] == StructuredResource(before, n, selection.resources[n])
  }

  lemma StructuredStep(before: ProjectConfig, now: ProjectConfig, selection: Selection, names: set<ResourceName>,
                       name: ResourceName)
    requires Structured(before, now, selection, names) && name !in names && IsSelected(selection, name)
    ensures Structured(before, now.(resources := now.resources[ConfigKey(name) :=
                         StructuredResource(now, name, selection.resources[name])]), selection, names + {name})
  {
    hide ConfigKey, WithAllocationNames;
    forall n | n in names ensures ConfigKey(n) != ConfigKey(name) {
      ConfigKeyInjective(n, name);
    }
    assert SameResource(before, now, ConfigKey(name));
    OnlyResourcesMore(before, now, names, name, StructuredResource(now, name, selection.resources[name]));
    hide OnlyResources;
  }

  method MergeStructures(config: ProjectConfig, selection: Selection) returns (merged: ProjectConfig)
    ensures SameEntries(config, merged)
    ensures forall name :: IsSelected(selection, name) ==>
      StructurePresent(merged, name, selection.resources[name])
    ensures merged == config.(resources := merged.resources)
    ensures Structured(config, merged, selection, set n | n in NAMES && IsSelected(selection, n))
  {
    hide SameEntries, StructurePresent, StructuredResource, ConfigKey, Structured;
    merged := config;
    ghost var done: set<ResourceName> := {};
    StructuredNothing(config, selection);
    SameEntriesRefl(config);
    var i := 0;
    while i < |NAMES|
      invariant 0 <= i <= |NAMES|
      invariant SameEntries(config, merged)
      invariant merged == config.(resources := merged.resources)
      invariant forall j :: 0 <= j < i && IsSelected(selection, NAMES[j]) ==>
        StructurePresent(merged, NAMES[j], selection.resources[NAMES[j]])
      invariant Structured(config, merged, selection, done)
      invariant forall j :: 0 <= j < |NAMES| ==> (NAMES[j] in done <==> j < i && IsSelected(selection, NAMES[j]))
    {
      var name := NAMES[i];
      i := i + 1;
      if name in selection.resources && selection.resources[name].selected {
        ghost var previous := merged;
        StructureStep(merged, name, selection.resources[name]);
        StructuredStep(config, merged, selection, done, name);
        done := done + {name};
        merged := MergeResourceStructure(merged, name, selection.resources[name]);
        SameEntriesTrans(config, previous, merged);
      }
    }
    forall name ensures name in NAMES && (name in done <==> IsSelected(selection, name)) {
      var j := match name case Mailpit => 0 case Mysql => 1 case Postgres => 2 case Redis => 3 case Rustfs => 4;
      assert NAMES[j] == name;
    }
    assert done == set n | n in NAMES && IsSelected(selection, n);
    forall name | IsSelected(selection, name) ensures StructurePresent(merged, name, selection.resources[name]) {
      var j := match name case Mailpit => 0 case Mysql => 1 case Postgres => 2 case Redis => 3 case Rustfs => 4;
      assert NAMES[j] == name;
    }
  }

  lemma StructuredNothing(config: ProjectConfig, selection: Selection)
    ensures Structured(config, config, selection, {})
  {
  }

  lemma SameEntriesRefl(config: ProjectConfig)
    ensures SameEntries(config, config)
  {
  }

  lemma SameEntriesTrans(a: ProjectConfig, b: ProjectConfig, c: ProjectConfig)
    requires SameEntries(a, b) && SameEntries(b, c)
    ensures SameEntries(a, c)
  {
  }

  /** A resource differs in its own environment at most. */
  ghost predicate SameButEnv(before: ProjectConfig, after: ProjectConfig, r: string) {
    && (r in after.resources <==> r in before.resources)
    && (r in before.resources ==> after.resources[r] == before.resources[r].(env := after.resources[r].env))
  }

  /** Each mail default is given at the root or by some resource. */
  ghost predicate MailComplete(config: ProjectConfig) {
    forall i :: 0 <= i < |MAILPIT_DEFAULTS| ==> MAILPIT_DEFAULTS[i].key in AncestorKeys(config)
  }

  method MergeGeneratedResourceEnv(config: ProjectConfig, selection: Selection) returns (merged: ProjectConfig)
    ensures Preserved(config, merged) && AddsFreshKeys(config, merged)
    ensures forall o, k :: Added(config, merged, o, k) ==>
      o == ResourceOwner("mailpit") && IsGenerated(None, MAILPIT_DEFAULTS, k, EnvOf(merged, o)[k])
    ensures forall name, l :: StructurePresent(config, name, l) ==> StructurePresent(merged, name, l)
    ensures IsSelected(selection, Mailpit) && "mailpit" in config.resources ==> MailComplete(merged)
    ensures merged == config.(resources := merged.resources)
    ensures !IsSelected(selection, Mailpit) ==> merged == config
    ensures forall r :: r != "mailpit" ==> SameResource(config, merged, r)
    ensures SameButEnv(config, merged, "mailpit")
  {
    if Mailpit !in selection.resources || !selection.resources[Mailpit].selected {
      NothingChanged(config);
      return config;
    }
    var rootKeys := config.env.Keys;
    var resourceKeys := set r, k | r in config.resources && k in config.resources[r].env :: k;
    if "mailpit" !in config.resources {
      NothingChanged(config);
      return config;
    }
    var before := config.resources["mailpit"];
    var env, keys := MergeResourceEnvDefaults(before.env, rootKeys, resourceKeys, MAILPIT_DEFAULTS);
    merged := config.(resources := config.resources["mailpit" := before.(env := env)]);
    MailpitMerged(config, env);
    hide IsGenerated;
    forall i | 0 <= i < |MAILPIT_DEFAULTS| ensures MAILPIT_DEFAULTS[i].key in AncestorKeys(merged) {
      var key := MAILPIT_DEFAULTS[i].key;
      if key in env {
        assert key in merged.resources["mailpit"].env;
      } else if key !in rootKeys {
        var r :| r in config.resources && key in config.resources[r].env;
        assert key in merged.resources[r].env;
      }
    }
  }

  lemma MailpitMerged(config: ProjectConfig, env: EnvMap)
    requires "mailpit" in config.resources
    requires Extends(config.resources["mailpit"].env, env)
    requires forall k :: k in env && k !in config.resources["mailpit"].env ==>
      k !in config.env && (forall r :: r in config.resources ==> k !in config.resources[r].env)
      && IsGenerated(None, MAILPIT_DEFAULTS, k, env[k])
    ensures var merged := config.(resources := config.resources["mailpit" := config.resources["mailpit"].(env := env)]);
      && Preserved(config, merged) && AddsFreshKeys(config, merged)
      && (forall o, k :: Added(config, merged, o, k) ==>
            o == ResourceOwner("mailpit") && IsGenerated(None, MAILPIT_DEFAULTS, k, EnvOf(merged, o)[k]))
  {
    hide IsGenerated;
    var merged := config.(resources := config.resources["mailpit" := config.resources["mailpit"].(env := env)]);
    forall o, k | Added(config, merged, o, k) ensures o == ResourceOwner("mailpit") {
    }
  }
}
