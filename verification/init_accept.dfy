/** When a merged configuration is accepted: it is written, read back, and its shape checked. */
module InitAccept {
  import opened Text
  import opened Config
  import opened ProjectEnv
  import opened ProjectEnvLaws
  import opened InitMerge
  import opened InitConfig
  import opened Parser
  import opened ReadBack
  import P = Placeholders

  // ------------------------------------------------------------------
  // The defaults are accepted
  // ------------------------------------------------------------------

  lemma {:induction false} DoubledPlain(s: string)
    requires '$' !in s
    ensures P.DoubleDollars(s) == s
  {
    if s != "" {
      DoubledPlain(s[1..]);
      assert s == [s[0]] + s[1..];
    }
  }

  lemma PlainAccepted(field: string, registry: P.Registry, scope: P.Scope, s: string)
    requires '$' !in s
    ensures P.Validate(field, registry, scope, s).Ok?
  {
    DoubledPlain(s);
    P.EscapeRoundTrip(s, field, registry, scope, map[]);
  }

  lemma PlaceholderTokens(name: string)
    requires '}' !in name
    ensures P.Tokens("${" + name + "}") == [P.Placeholder(name)]
  {
    var s := "${" + name + "}";
    var end := P.CloseFrom(s, 2);
    assert s[2 + |name|] == '}' && forall i :: 2 <= i < 2 + |name| ==> s[i] == name[i - 2];
    assert end.Some? && end.value == 2 + |name|;
    assert s[2..2 + |name|] == name;
    assert P.StepAt(s, 0) == P.Step(P.Placeholder(name), |s|);
    assert P.TokensFrom(s, |s|) == [];
    assert P.TokensFrom(s, 0) == [P.Placeholder(name)] + [];
  }

  lemma PlaceholderAccepted(field: string, registry: P.Registry, scope: P.Scope, name: string)
    requires IsPlaceholderName(name) && P.AllowsPlaceholder(registry, scope, name) == Ok(true)
    ensures P.Validate(field, registry, scope, "${" + name + "}").Ok?
  {
    assert '}' !in name;
    PlaceholderTokens(name);
    P.ValidatorAcceptsExactly(field, registry, scope, "${" + name + "}");
  }

  /** A template that is a text without dollars or one placeholder the scope offers. */
  predicate SimpleTemplate(registry: P.Registry, scope: P.Scope, template: string) {
    || '$' !in template
    || (&& |template| >= 3 && template == "${" + template[2..|template| - 1] + "}"
        && IsPlaceholderName(template[2..|template| - 1])
        && P.AllowsPlaceholder(registry, scope, template[2..|template| - 1]) == Ok(true))
  }

  lemma SimpleAccepted(field: string, registry: P.Registry, scope: P.Scope, template: string)
    requires SimpleTemplate(registry, scope, template)
    ensures P.Validate(field, registry, scope, template).Ok?
  {
    hide P.Validate, P.AllowsPlaceholder, IsPlaceholderName;
    if '$' in template {
      PlaceholderAccepted(field, registry, scope, template[2..|template| - 1]);
    } else {
      PlainAccepted(field, registry, scope, template);
    }
  }

  lemma SimpleNamed(registry: P.Registry, scope: P.Scope, name: string, template: string)
    requires template == "${" + name + "}"
    requires IsPlaceholderName(name) && P.AllowsPlaceholder(registry, scope, name) == Ok(true)
    ensures SimpleTemplate(registry, scope, template)
  {
    hide P.AllowsPlaceholder, IsPlaceholderName;
    assert template[2..|template| - 1] == name;
  }

  lemma RootTemplates()
    ensures SimpleTemplate(PV_REGISTRY, P.Project, "${project_url}")
    ensures SimpleTemplate(PV_REGISTRY, P.Project, "${tls_cert}")
    ensures SimpleTemplate(PV_REGISTRY, P.Project, "${tls_key}")
  {
    hide SimpleTemplate;
    SimpleNamed(PV_REGISTRY, P.Project, "project_url", "${project_url}");
    SimpleNamed(PV_REGISTRY, P.Project, "tls_cert", "${tls_cert}");
    SimpleNamed(PV_REGISTRY, P.Project, "tls_key", "${tls_key}");
  }

  lemma MailTemplates()
    ensures SimpleTemplate(PV_REGISTRY, P.Resource("mailpit"), "${smtp_host}")
    ensures SimpleTemplate(PV_REGISTRY, P.Resource("mailpit"), "${smtp_port}")
    ensures SimpleTemplate(PV_REGISTRY, P.Resource("mailpit"), "smtp")
  {
    SimpleNamed(PV_REGISTRY, P.Resource("mailpit"), "smtp_host", "${smtp_host}");
    SimpleNamed(PV_REGISTRY, P.Resource("mailpit"), "smtp_port", "${smtp_port}");
  }

  lemma SqlTemplates(resource: string)
    requires resource == "mysql" || resource == "postgres"
    ensures SimpleTemplate(PV_REGISTRY, P.Allocation(resource), "${host}")
    ensures SimpleTemplate(PV_REGISTRY, P.Allocation(resource), "${port}")
    ensures SimpleTemplate(PV_REGISTRY, P.Allocation(resource), "${database}")
    ensures SimpleTemplate(PV_REGISTRY, P.Allocation(resource), "${username}")
    ensures SimpleTemplate(PV_REGISTRY, P.Allocation(resource), "${password}")
  {
    hide SimpleTemplate;
    SimpleNamed(PV_REGISTRY, P.Allocation(resource), "host", "${host}");
    SimpleNamed(PV_REGISTRY, P.Allocation(resource), "port", "${port}");
    SimpleNamed(PV_REGISTRY, P.Allocation(resource), "database", "${database}");
    SimpleNamed(PV_REGISTRY, P.Allocation(resource), "username", "${username}");
    SimpleNamed(PV_REGISTRY, P.Allocation(resource), "password", "${password}");
  }

  lemma RedisTemplates()
    ensures SimpleTemplate(PV_REGISTRY, P.Allocation("redis"), "${host}")
    ensures SimpleTemplate(PV_REGISTRY, P.Allocation("redis"), "${port}")
    ensures SimpleTemplate(PV_REGISTRY, P.Allocation("redis"), "${prefix}")
  {
    hide SimpleTemplate;
    SimpleNamed(PV_REGISTRY, P.Allocation("redis"), "host", "${host}");
    SimpleNamed(PV_REGISTRY, P.Allocation("redis"), "port", "${port}");
    SimpleNamed(PV_REGISTRY, P.Allocation("redis"), "prefix", "${prefix}");
  }

  lemma RustfsTemplates()
    ensures SimpleTemplate(PV_REGISTRY, P.Allocation("rustfs"), "${endpoint}")
    ensures SimpleTemplate(PV_REGISTRY, P.Allocation("rustfs"), "${bucket}")
    ensures SimpleTemplate(PV_REGISTRY, P.Allocation("rustfs"), "${access_key}")
    ensures SimpleTemplate(PV_REGISTRY, P.Allocation("rustfs"), "${secret_key}")
  {
    hide SimpleTemplate;
    SimpleNamed(PV_REGISTRY, P.Allocation("rustfs"), "endpoint", "${endpoint}");
    SimpleNamed(PV_REGISTRY, P.Allocation("rustfs"), "bucket", "${bucket}");
    SimpleNamed(PV_REGISTRY, P.Allocation("rustfs"), "access_key", "${access_key}");
    SimpleNamed(PV_REGISTRY, P.Allocation("rustfs"), "secret_key", "${secret_key}");
  }

  lemma DriverTemplate(resource: string, template: string)
    requires template == "mysql" || template == "pgsql"
    ensures SimpleTemplate(PV_REGISTRY, P.Allocation(resource), template)
  {
  }

  /** Every default of an allocation is a template its scope accepts. */
  lemma DefaultTemplates(name: ResourceName, i: nat)
    requires i < |AllocationDefaults(name)|
    ensures SimpleTemplate(PV_REGISTRY, P.Allocation(ConfigKey(name)), AllocationDefaults(name)[i].template)
  {
    hide SimpleTemplate;
    match name
    case Mailpit =>
    case Mysql =>
      SqlTemplates("mysql");
      DriverTemplate("mysql", "mysql");
    case Postgres =>
      SqlTemplates("postgres");
      DriverTemplate("postgres", "pgsql");
    case Redis =>
      RedisTemplates();
    case Rustfs =>
      RustfsTemplates();
  }

  // ------------------------------------------------------------------
  // What a merge adds is accepted
  // ------------------------------------------------------------------

  lemma RootKeysLegal()
    ensures IsEnvKey("APP_URL") && IsEnvKey("VITE_DEV_SERVER_CERT") && IsEnvKey("VITE_DEV_SERVER_KEY")
  {
  }

  lemma MailKeysLegal()
    ensures IsEnvKey("MAIL_MAILER") && IsEnvKey("MAIL_HOST") && IsEnvKey("MAIL_PORT")
  {
  }

  lemma RootAddition(selection: Selection, key: string, template: string, field: string)
    requires RootAsked(selection, key, template)
    ensures IsEnvKey(key) && P.Validate(field, PV_REGISTRY, P.Project, template).Ok?
  {
    RootKeysLegal();
    RootTemplates();
    hide SimpleTemplate, IsEnvKey, P.Validate;
    SimpleAccepted(field, PV_REGISTRY, P.Project, template);
  }

  lemma MailAddition(key: string, template: string, field: string)
    requires IsGenerated(None, MAILPIT_DEFAULTS, key, template)
    ensures IsEnvKey(key) && P.Validate(field, PV_REGISTRY, P.Resource("mailpit"), template).Ok?
  {
    MailKeysLegal();
    MailTemplates();
    hide SimpleTemplate, IsEnvKey, P.Validate;
    SimpleAccepted(field, PV_REGISTRY, P.Resource("mailpit"), template);
  }

  lemma AllocationAddition(name: ResourceName, a: string, i: nat, key: string, template: string, field: string)
    requires IsAllocationName(a)
    requires IsGenerated(Candidate(ConfigKey(name), a, i), AllocationDefaults(name), key, template)
    ensures IsEnvKey(key) && P.Validate(field, PV_REGISTRY, P.Allocation(ConfigKey(name)), template).Ok?
  {
    DefaultKeysLegal(name);
    hide AllocationDefaults, ConfigKey, Candidate, SimpleTemplate, IsEnvKey, P.Validate, IsAllocationName, GeneratedKey;
    var defaults := AllocationDefaults(name);
    var d :| 0 <= d < |defaults| && key == GeneratedKey(Candidate(ConfigKey(name), a, i), defaults[d].key)
      && template == defaults[d].template;
    CandidateLegal(name, a, i, defaults[d].key);
    DefaultTemplates(name, d);
    SimpleAccepted(field, PV_REGISTRY, P.Allocation(ConfigKey(name)), template);
  }

  // ------------------------------------------------------------------
  // When the result is accepted
  // ------------------------------------------------------------------

  function NamesBefore(before: ProjectConfig, r: string): set<string> {
    if r in before.resources then before.resources[r].allocations.Keys else {}
  }

  /** The listed names are legal and stay apart, normalised, from each other and from those
      already there; and mailpit, which has no allocations, is asked for none. */
  ghost predicate SelectionFits(before: ProjectConfig, selection: Selection) {
    forall n :: IsSelected(selection, n) ==>
      && (n == Mailpit ==> Listed(selection, n) == [])
      && NamesFit(ConfigKey(n), NamesBefore(before, ConfigKey(n)) + set a | a in Listed(selection, n))
  }

  /** The scope an owner's entries are read in. */
  function ScopeOf(o: Owner): P.Scope {
    match o
    case RootOwner => P.Project
    case ResourceOwner(r) => P.Resource(r)
    case AllocationOwner(r, _) => P.Allocation(r)
  }

  ghost predicate OwnerAccepted(config: ProjectConfig, o: Owner) {
    Accepted(Field(o), PV_REGISTRY, ScopeOf(o), EnvOf(config, o))
  }

  lemma MoreAccepted(before: ProjectConfig, after: ProjectConfig, o: Owner)
    requires Extends(EnvOf(before, o), EnvOf(after, o)) && OwnerAccepted(after, o)
    ensures OwnerAccepted(before, o)
  {
    hide P.Validate, IsEnvKey, EnvOf, Field, ScopeOf;
  }

  /** An owner's entries are accepted after the merge if they were before, and its name is
      legal if it is an allocation. */
  lemma AdditionsAccepted(before: ProjectConfig, after: ProjectConfig, selection: Selection, o: Owner)
    requires Preserved(before, after) && AddsOnlyAsked(before, after, selection) && OwnerAccepted(before, o)
    requires o.AllocationOwner? ==> IsAllocationName(o.allocation)
    ensures OwnerAccepted(after, o)
  {
    hide P.Validate, IsEnvKey, EnvOf, Field, IsAllocationName, RootAsked, IsGenerated, Candidate, ConfigKey;
    assert Extends(EnvOf(before, o), EnvOf(after, o));
    var env := EnvOf(after, o);
    forall key | key in env
      ensures IsEnvKey(key) && P.Validate(Field(o) + "." + key, PV_REGISTRY, ScopeOf(o), env[key]).Ok?
    {
      if Added(before, after, o, key) {
        assert Asked(selection, o, key, env[key]);
        AskedAccepted(selection, o, key, env[key], Field(o) + "." + key);
      }
    }
  }

  lemma AskedAccepted(selection: Selection, o: Owner, key: string, template: string, field: string)
    requires Asked(selection, o, key, template)
    requires o.AllocationOwner? ==> IsAllocationName(o.allocation)
    ensures IsEnvKey(key) && P.Validate(field, PV_REGISTRY, ScopeOf(o), template).Ok?
  {
    hide P.Validate, IsEnvKey, IsAllocationName, RootAsked, IsGenerated, Candidate, AllocationDefaults;
    match o
    case RootOwner => RootAddition(selection, key, template, field);
    case ResourceOwner(r) => MailAddition(key, template, field);
    case AllocationOwner(r, a) =>
      hide ConfigKey;
      var name: ResourceName, i: nat :|
        && name != Mailpit && IsSelected(selection, name) && ConfigKey(name) == r
        && IsGenerated(Candidate(r, a, i), AllocationDefaults(name), key, template);
      AllocationAddition(name, a, i, key, template, field);
  }

  /** Acceptance, owner by owner. */
  ghost predicate ByOwners(config: ProjectConfig) {
    && (forall o :: OwnerAccepted(config, o))
    && forall r :: r in config.resources ==>
         && IsBackingService(PV_REGISTRY, r)
         && (config.resources[r].allocations != map[] ==> HasAllocations(r))
         && NamesFit(r, config.resources[r].allocations.Keys)
  }

  lemma NothingAccepted(field: string, scope: P.Scope)
    ensures Accepted(field, PV_REGISTRY, scope, map[])
  {
  }

  lemma OwnersAccepted(config: ProjectConfig)
    ensures EntriesAccepted(PV_REGISTRY, config) <==> ByOwners(config)
  {
    hide Accepted, NamesFit, HasAllocations, IsBackingService;
    if EntriesAccepted(PV_REGISTRY, config) {
      forall o ensures OwnerAccepted(config, o) {
        NothingAccepted(Field(o), ScopeOf(o));
        match o
        case RootOwner =>
        case ResourceOwner(r) =>
          assert r in config.resources ==> ResourceAccepted(PV_REGISTRY, r, config.resources[r]);
        case AllocationOwner(r, a) =>
          assert r in config.resources ==> ResourceAccepted(PV_REGISTRY, r, config.resources[r]);
      }
    }
    if ByOwners(config) {
      assert OwnerAccepted(config, RootOwner);
      forall r | r in config.resources ensures ResourceAccepted(PV_REGISTRY, r, config.resources[r]) {
        assert OwnerAccepted(config, ResourceOwner(r));
        forall a | a in config.resources[r].allocations
          ensures Accepted(AllocationField(r, a), PV_REGISTRY, P.Allocation(r), config.resources[r].allocations[a].env)
        {
          assert OwnerAccepted(config, AllocationOwner(r, a));
        }
      }
    }
  }

  lemma NamesAfter(before: ProjectConfig, after: ProjectConfig, selection: Selection, r: string)
    requires InitMerged(before, after, selection)
    ensures r in after.resources <==>
      r in before.resources || exists n :: IsSelected(selection, n) && ConfigKey(n) == r
    ensures forall n :: IsSelected(selection, n) && ConfigKey(n) == r ==>
      NamesBefore(after, r) == NamesBefore(before, r) + set a | a in Listed(selection, n)
    ensures (forall n :: IsSelected(selection, n) ==> ConfigKey(n) != r) ==>
      NamesBefore(after, r) == NamesBefore(before, r)
  {
    hide InitMerged, ConfigKey;
    forall n | IsSelected(selection, n) && ConfigKey(n) == r
      ensures r in after.resources
      ensures NamesBefore(after, r) == NamesBefore(before, r) + set a | a in Listed(selection, n)
    {
      SelectedDetermined(before, after, selection, n);
    }
    if forall n :: IsSelected(selection, n) ==> ConfigKey(n) != r {
      SameOutside(before, after, selection, r);
    }
  }

  /** The merged configuration is accepted when it is read back if and only if the former one
      was and the selection fits it. */
  lemma MergeAccepted(before: ProjectConfig, after: ProjectConfig, selection: Selection)
    requires InitMerged(before, after, selection)
    ensures EntriesAccepted(PV_REGISTRY, after) <==>
      EntriesAccepted(PV_REGISTRY, before) && SelectionFits(before, selection)
  {
    OwnersAccepted(before);
    OwnersAccepted(after);
    hide EntriesAccepted;
    if ByOwners(after) {
      AcceptedBefore(before, after, selection);
      FitBefore(before, after, selection);
    }
    if ByOwners(before) && SelectionFits(before, selection) {
      AcceptedAfter(before, after, selection);
    }
  }

  lemma FewerFit(r: string, names: set<string>, more: set<string>)
    requires names <= more && NamesFit(r, more)
    ensures NamesFit(r, names)
  {
    hide NormalizedAllocationName, IsAllocationName;
  }

  lemma AcceptedBefore(before: ProjectConfig, after: ProjectConfig, selection: Selection)
    requires InitMerged(before, after, selection) && ByOwners(after)
    ensures ByOwners(before)
  {
    assert Preserved(before, after);
    hide InitMerged, OwnerAccepted, EnvOf, NamesFit, IsBackingService, HasAllocations;
    forall o ensures OwnerAccepted(before, o) {
      assert Extends(EnvOf(before, o), EnvOf(after, o));
      MoreAccepted(before, after, o);
    }
    hide Preserved;
    forall r | r in before.resources
      ensures IsBackingService(PV_REGISTRY, r)
      ensures before.resources[r].allocations != map[] ==> HasAllocations(r)
      ensures NamesFit(r, before.resources[r].allocations.Keys)
    {
      NamesAfter(before, after, selection, r);
      FitsToo(before, after, selection, r);
    }
  }

  lemma FitsToo(before: ProjectConfig, after: ProjectConfig, selection: Selection, r: string)
    requires r in before.resources && r in after.resources && NamesBefore(before, r) <= NamesBefore(after, r)
    requires after.resources[r].allocations != map[] ==> HasAllocations(r)
    requires NamesFit(r, after.resources[r].allocations.Keys)
    ensures before.resources[r].allocations != map[] ==> HasAllocations(r)
    ensures NamesFit(r, before.resources[r].allocations.Keys)
  {
    hide NamesFit, HasAllocations;
    FewerFit(r, NamesBefore(before, r), NamesBefore(after, r));
    if before.resources[r].allocations != map[] {
      var a :| a in before.resources[r].allocations;
      assert a in NamesBefore(after, r);
    }
  }

  lemma FitBefore(before: ProjectConfig, after: ProjectConfig, selection: Selection)
    requires InitMerged(before, after, selection) && ByOwners(after)
    ensures SelectionFits(before, selection)
  {
    hide InitMerged, NamesFit, OwnerAccepted;
    forall n | IsSelected(selection, n)
      ensures n == Mailpit ==> Listed(selection, n) == []
      ensures NamesFit(ConfigKey(n), NamesBefore(before, ConfigKey(n)) + set a | a in Listed(selection, n))
    {
      NamesAfter(before, after, selection, ConfigKey(n));
      SomeListed(Listed(selection, n));
      assert NamesBefore(after, ConfigKey(Mailpit)) == {};
    }
  }

  lemma SomeListed(listed: seq<string>)
    ensures listed != [] ==> (set a | a in listed) != {}
  {
    var names := set a | a in listed;
    if listed != [] {
      assert listed[0] in names && names != {};
    }
  }

  lemma AcceptedAfter(before: ProjectConfig, after: ProjectConfig, selection: Selection)
    requires InitMerged(before, after, selection) && ByOwners(before) && SelectionFits(before, selection)
    ensures ByOwners(after)
  {
    assert Preserved(before, after) && AddsOnlyAsked(before, after, selection);
    hide InitMerged, OwnerAccepted, Preserved, AddsOnlyAsked, NamesFit, SelectionFits, IsBackingService, ConfigKey;
    forall r | r in after.resources
      ensures IsBackingService(PV_REGISTRY, r)
      ensures after.resources[r].allocations != map[] ==> HasAllocations(r)
      ensures NamesFit(r, after.resources[r].allocations.Keys)
    {
      NamesAfter(before, after, selection, r);
      ResourceFits(before, after, selection, r);
    }
    hide HasAllocations;
    forall o ensures OwnerAccepted(after, o) {
      OwnerAcceptedAfter(before, after, selection, o);
    }
  }

  lemma OwnerAcceptedAfter(before: ProjectConfig, after: ProjectConfig, selection: Selection, o: Owner)
    requires Preserved(before, after) && AddsOnlyAsked(before, after, selection) && OwnerAccepted(before, o)
    requires forall r :: r in after.resources ==> NamesFit(r, after.resources[r].allocations.Keys)
    ensures OwnerAccepted(after, o)
  {
    hide Preserved, AddsOnlyAsked, OwnerAccepted, NamesFit;
    if o.AllocationOwner? && o.allocation !in NamesBefore(after, o.resource) {
      EmptyAccepted(after, o);
    } else {
      if o.AllocationOwner? {
        FitLegal(o.resource, NamesBefore(after, o.resource), o.allocation);
      }
      AdditionsAccepted(before, after, selection, o);
    }
  }

  lemma EmptyAccepted(config: ProjectConfig, o: Owner)
    requires EnvOf(config, o) == map[]
    ensures OwnerAccepted(config, o)
  {
    NothingAccepted(Field(o), ScopeOf(o));
  }

  lemma FitLegal(r: string, names: set<string>, a: string)
    requires NamesFit(r, names) && a in names
    ensures IsAllocationName(a)
  {
  }

  lemma ResourceFits(before: ProjectConfig, after: ProjectConfig, selection: Selection, r: string)
    requires ByOwners(before) && SelectionFits(before, selection) && r in after.resources
    requires r in before.resources || exists n :: IsSelected(selection, n) && ConfigKey(n) == r
    requires forall n :: IsSelected(selection, n) && ConfigKey(n) == r ==>
      NamesBefore(after, r) == NamesBefore(before, r) + set a | a in Listed(selection, n)
    requires (forall n :: IsSelected(selection, n) ==> ConfigKey(n) != r) ==>
      NamesBefore(after, r) == NamesBefore(before, r)
    ensures IsBackingService(PV_REGISTRY, r)
    ensures after.resources[r].allocations != map[] ==> HasAllocations(r)
    ensures NamesFit(r, after.resources[r].allocations.Keys)
  {
    hide NamesFit, OwnerAccepted;
    assert after.resources[r].allocations != map[] ==> NamesBefore(after, r) != {} by {
      if after.resources[r].allocations != map[] {
        var a :| a in after.resources[r].allocations;
        assert a in NamesBefore(after, r);
      }
    }
    assert r in before.resources && before.resources[r].allocations == map[] ==> NamesBefore(before, r) == {};
    if n :| IsSelected(selection, n) && ConfigKey(n) == r {
      assert NamesFit(r, NamesBefore(before, r) + set a | a in Listed(selection, n));
    } else {
      assert r in before.resources;
    }
  }

  /** The whole of it: merge, write, read back, and check the shape. `others` is what reading the
      fields outside env and allocations and checking the project root come to. The result is
      the merged configuration, exactly if the former one was accepted and its shape valid, the
      selection fits it, and nothing is wrong with the other fields. */
  method RenderProjectInitConfig(before: ProjectConfig, selection: Selection, others: Result<(), ConfigError>)
    returns (r: Result<ProjectConfig, ConfigError>)
    ensures r.Ok? ==> InitMerged(before, r.value, selection)
    ensures r.Ok? <==>
      && EntriesAccepted(PV_REGISTRY, before) && SelectionFits(before, selection) && others.Ok?
      && ShapeValid(before)
  {
    hide EntriesAccepted, SelectionFits, ShapeValid, Preserved, AddsFreshKeys, KeepsMeaning, AddsOnlyAsked,
      ChangesOnlySelected;
    var config := MergeSelection(before, selection);
    MergeAccepted(before, config, selection);
    var read := ReadConfig(PV_REGISTRY, config);
    if read.Err? {
      return Err(read.error);
    }
    if others.Err? {
      return Err(others.error);
    }
    var shape := ValidateProjectEnvShape(read.value);
    ShapeExact(config);
    if shape.Err? {
      return Err(shape.error);
    }
    r := Ok(read.value);
  }
}
