/** The whole merge of a selection into a project configuration: what it promises, what it
    keeps of the rendered environment, and when the result is accepted. */
module InitConfig {
  import opened Text
  import opened Config
  import opened ProjectEnv
  import opened ProjectEnvLaws
  import opened InitMerge
  import opened Placeholders

  // ------------------------------------------------------------------
  // The whole merge
  // ------------------------------------------------------------------

  /** What a merge promises about a configuration and a selection. */
  ghost predicate InitMerged(before: ProjectConfig, after: ProjectConfig, selection: Selection) {
    && Preserved(before, after)
    && AddsFreshKeys(before, after)
    && KeepsMeaning(before, after)
    && (ShapeValid(after) <==> ShapeValid(before))
    && AddsOnlyAsked(before, after, selection)
    && ChangesOnlySelected(before, after, selection)
    && (forall name :: IsSelected(selection, name) ==>
          && StructurePresent(after, name, selection.resources[name])
          && (name == Mailpit ==> MailComplete(after))
          && (name != Mailpit ==> EachComplete(before, after, name, Listed(selection, name))))
    && (selection.includeAppUrl ==> "APP_URL" in after.env)
    && (selection.includeViteTls ==> "VITE_DEV_SERVER_CERT" in after.env && "VITE_DEV_SERVER_KEY" in after.env)
    && after.php.Some? && after.php.value.version == Some(selection.php)
    && after.php.value.extensions == (if before.php.Some? then before.php.value.extensions else [])
    && after.documentRoot == selection.documentRoot
    && after.hostnames == before.hostnames && after.envFile == before.envFile
  }

  /** Each listed allocation has its defaults under the first prefix available at its turn. */
  ghost predicate EachComplete(before: ProjectConfig, after: ProjectConfig, name: ResourceName, listed: seq<string>) {
    forall j :: 0 <= j < |listed| && listed[j] !in listed[..j] ==> AllocationComplete(before, after, name, listed, j)
  }

  /** The root defaults a selection asks for. */
  predicate RootAsked(selection: Selection, key: string, template: string) {
    || (selection.includeAppUrl && key == "APP_URL" && template == "${project_url}")
    || (selection.includeViteTls && key == "VITE_DEV_SERVER_CERT" && template == "${tls_cert}")
    || (selection.includeViteTls && key == "VITE_DEV_SERVER_KEY" && template == "${tls_key}")
  }

  /** The defaults a selection asks for at an owner, with their templates. */
  ghost predicate Asked(selection: Selection, o: Owner, key: string, template: string) {
    match o
    case RootOwner => RootAsked(selection, key, template)
    case ResourceOwner(r) =>
      r == ConfigKey(Mailpit) && IsSelected(selection, Mailpit) && IsGenerated(None, MAILPIT_DEFAULTS, key, template)
    case AllocationOwner(r, a) =>
      exists name: ResourceName, i: nat ::
        && name != Mailpit && IsSelected(selection, name) && ConfigKey(name) == r
        && a in selection.resources[name].allocations
        && IsGenerated(Candidate(r, a, i), AllocationDefaults(name), key, template)
  }

  ghost predicate AddsOnlyAsked(before: ProjectConfig, after: ProjectConfig, selection: Selection) {
    forall o, k :: Added(before, after, o, k) ==> Asked(selection, o, k, EnvOf(after, o)[k])
  }

  /** Unselected resources are as they were; a selected one has the allocations it had and
      those listed, and those not listed are as they were. */
  ghost predicate ChangesOnlySelected(before: ProjectConfig, after: ProjectConfig, selection: Selection) {
    && (forall r :: (forall n :: IsSelected(selection, n) ==> ConfigKey(n) != r) ==> SameResource(before, after, r))
    && (forall n :: IsSelected(selection, n) ==>
          && OnlyListed(before, after, n, Listed(selection, n))
          && ConfigKey(n) in after.resources
          && after.resources[ConfigKey(n)].allocations.Keys
               == (if ConfigKey(n) in before.resources then before.resources[ConfigKey(n)].allocations.Keys else {})
                  + set a | a in selection.resources[n].allocations)
  }

  lemma RootStep(config: ProjectConfig, selection: Selection)
    ensures var after := WithRootDefaults(config, selection);
      && Preserved(config, after) && AddsFreshKeys(config, after)
      && (forall o, k :: Added(config, after, o, k) ==> o == RootOwner && RootAsked(selection, k, after.env[k]))
      && (forall o: Owner :: !o.RootOwner? ==> EnvOf(after, o) == EnvOf(config, o))
  {
  }

  lemma RootKeysPresent(config: ProjectConfig, selection: Selection)
    ensures var env := WithRootDefaults(config, selection).env;
      && (selection.includeAppUrl ==> "APP_URL" in env)
      && (selection.includeViteTls ==> "VITE_DEV_SERVER_CERT" in env && "VITE_DEV_SERVER_KEY" in env)
  {
  }

  lemma SameEntriesCompose(a: ProjectConfig, b: ProjectConfig, c: ProjectConfig)
    requires Preserved(a, b) && AddsFreshKeys(a, b) && SameEntries(b, c)
    ensures Preserved(a, c) && AddsFreshKeys(a, c)
    ensures forall o, k :: Added(a, c, o, k) ==> Added(a, b, o, k)
  {
    hide EnvOf;
    forall o: Owner ensures Extends(EnvOf(a, o), EnvOf(c, o)) {
      assert Extends(EnvOf(a, o), EnvOf(b, o));
    }
  }

  /** The merge of a selection into a configuration. */
  method MergeSelection(before: ProjectConfig, selection: Selection) returns (after: ProjectConfig)
    ensures InitMerged(before, after, selection)
  {
    hide EnvOf, Preserved, AddsFreshKeys, SameEntries, StructurePresent, MailComplete, AllocationsComplete,
      IsGenerated, ShapeValid, KeepsMeaning, Deeper, WithRootDefaults, AllocationComplete, RootAsked, Structured,
      OnlyResources, OnlyListed, SameResource, SameButEnv, AddsOnlyAsked, ChangesOnlySelected;
    var config := WithRootDefaults(before, selection);
    RootStep(before, selection);
    ghost var rooted := config;
    config := MergeStructures(config, selection);
    SameEntriesCompose(before, rooted, config);
    ghost var structured := config;
    config := MergeGeneratedResourceEnv(config, selection);
    assert forall o, p, k, l :: Added(before, structured, o, k) && Added(structured, config, p, l) ==>
      !Deeper(o, p) by {
      RootNotDeeper();
    }
    AdditionsCompose(before, structured, config);
    ghost var mailed := config;
    ghost var touched;
    config, touched := MergeGeneratedAllocationEnv(config, selection);
    assert forall o, p, k, l :: Added(before, mailed, o, k) && Added(mailed, config, p, l) ==> !Deeper(o, p) by {
      RootNotDeeper();
    }
    AdditionsCompose(before, mailed, config);
    FreshAdditionsKeepMeaning(before, config);
    after := config;
    AskedPieces(before, selection, rooted, structured, mailed, after, touched);
    ChangedPieces(before, selection, rooted, structured, mailed, after, touched);
    MergedPieces(before, selection, rooted, structured, mailed, after);
  }

  /** What the stages established still holds at the end. */
  lemma MergedPieces(before: ProjectConfig, selection: Selection, rooted: ProjectConfig, structured: ProjectConfig,
                     mailed: ProjectConfig, after: ProjectConfig)
    requires rooted == WithRootDefaults(before, selection)
    requires SameEntries(rooted, structured) && structured == rooted.(resources := structured.resources)
    requires mailed == structured.(resources := mailed.resources) && SameStructure(mailed, after)
    requires forall o, k :: Added(structured, mailed, o, k) ==> o == ResourceOwner("mailpit")
    requires Preserved(structured, mailed)
    requires forall name :: IsSelected(selection, name) ==>
      && StructurePresent(structured, name, selection.resources[name])
      && StructurePresent(mailed, name, selection.resources[name])
      && AllocationsComplete(mailed, after, name, selection.resources[name].allocations)
      && (name == Mailpit ==> "mailpit" in structured.resources ==> MailComplete(mailed))
    requires Preserved(before, after) && AddsFreshKeys(before, after) && KeepsMeaning(before, after)
    requires ShapeValid(after) <==> ShapeValid(before)
    requires AddsOnlyAsked(before, after, selection) && ChangesOnlySelected(before, after, selection)
    ensures InitMerged(before, after, selection)
  {
    hide Preserved, AddsFreshKeys, KeepsMeaning, ShapeValid, MergedAllocation, AllocationDefaults, AddsOnlyAsked,
      ChangesOnlySelected, RootAsked;
    RootStep(before, selection);
    RootKeysPresent(before, selection);
    forall name | IsSelected(selection, name)
      ensures StructurePresent(after, name, selection.resources[name])
      ensures name == Mailpit ==> MailComplete(after)
      ensures name != Mailpit ==> EachComplete(before, after, name, Listed(selection, name))
    {
      if name == Mailpit {
        SameAncestorKeys(mailed, after);
      } else {
        forall o: Owner | o.AllocationOwner? ensures EnvOf(mailed, o) == EnvOf(before, o) {
          AllocationEntriesKept(before, selection, rooted, structured, mailed, o);
        }
        EachCompleteSince(before, mailed, after, name, Listed(selection, name));
      }
    }
  }

  /** What holds since a stage holds since the beginning, if no allocation changed in between. */
  lemma EachCompleteSince(before: ProjectConfig, mailed: ProjectConfig, after: ProjectConfig, name: ResourceName,
                          listed: seq<string>)
    requires forall o: Owner :: o.AllocationOwner? ==> EnvOf(mailed, o) == EnvOf(before, o)
    requires name != Mailpit && AllocationsComplete(mailed, after, name, listed)
    requires ConfigKey(name) in mailed.resources
    requires forall a :: a in listed ==> a in mailed.resources[ConfigKey(name)].allocations
    ensures EachComplete(before, after, name, listed)
  {
    hide EnvOf, MergedAllocation, KeysAtTurn, AncestorKeys, AllocationDefaults, ConfigKey;
    forall j | 0 <= j < |listed| && listed[j] !in listed[..j]
      ensures AllocationComplete(before, after, name, listed, j)
    {
      assert AllocationComplete(mailed, after, name, listed, j);
      SameTurnKeys(before, mailed, after, name, listed[..j]);
    }
  }

  lemma SameTurnKeys(before: ProjectConfig, mailed: ProjectConfig, after: ProjectConfig, name: ResourceName,
                     earlier: seq<string>)
    requires forall o: Owner :: o.AllocationOwner? ==> EnvOf(mailed, o) == EnvOf(before, o)
    ensures KeysAtTurn(mailed, after, name, earlier) == KeysAtTurn(before, after, name, earlier)
  {
    hide EnvOf, KeysAtTurn, EarlierTurn;
    forall k ensures k in KeysAtTurn(mailed, after, name, earlier) <==> k in KeysAtTurn(before, after, name, earlier) {
      KeyAtTurn(mailed, after, name, earlier, k);
      KeyAtTurn(before, after, name, earlier, k);
      assert forall r, a ::
        InUse(mailed, after, name, earlier, r, a, k) <==> InUse(before, after, name, earlier, r, a, k);
    }
  }

  /** A key added to a complete allocation is generated under the prefix it has. */
  lemma AddedIsGenerated(before: ProjectConfig, after: ProjectConfig, name: ResourceName, listed: seq<string>, j: nat,
                         k: string)
    returns (i: nat)
    requires j < |listed| && AllocationComplete(before, after, name, listed, j)
    requires Added(before, after, AllocationOwner(ConfigKey(name), listed[j]), k)
    ensures IsGenerated(Candidate(ConfigKey(name), listed[j], i), AllocationDefaults(name), k,
                        EnvOf(after, AllocationOwner(ConfigKey(name), listed[j]))[k])
  {
    hide EnvOf, FirstAvailable, IsNewDefault, IsGenerated, Complete, Candidate, AllocationDefaults, ConfigKey,
      KeysAtTurn, AncestorKeys;
    var o := AllocationOwner(ConfigKey(name), listed[j]);
    var was, now, defaults := EnvOf(before, o), EnvOf(after, o), AllocationDefaults(name);
    i :| MergedUnder(was, now, Candidate(ConfigKey(name), listed[j], i), defaults);
    NewIsGenerated(was, now, Candidate(ConfigKey(name), listed[j], i), defaults, k);
  }

  lemma NewIsGenerated(before: EnvMap, after: EnvMap, prefix: Option<string>, defaults: seq<Default>, key: string)
    requires MergedUnder(before, after, prefix, defaults) && key in after && key !in before
    ensures IsGenerated(prefix, defaults, key, after[key])
  {
    assert IsNewDefault(before, prefix, defaults, key, after[key]);
  }

  /** The first place of an element. */
  lemma {:induction false} FirstListed(listed: seq<string>, a: string) returns (j: nat)
    requires a in listed
    ensures j < |listed| && listed[j] == a && a !in listed[..j]
  {
    if listed[0] == a {
      j := 0;
    } else {
      assert listed == [listed[0]] + listed[1..];
      j := FirstListed(listed[1..], a);
      j := j + 1;
      assert listed[..j] == [listed[0]] + listed[1..][..j - 1];
    }
  }

  /** An entry added to an allocation is a default of a selected resource that lists it. */
  lemma AskedAllocation(selection: Selection, mailed: ProjectConfig, after: ProjectConfig, touched: set<ResourceName>,
                        o: Owner, k: string)
    requires OnlyResources(mailed, after, touched) && o.AllocationOwner? && Added(mailed, after, o, k)
    requires forall n :: n in touched ==> IsSelected(selection, n) && n != Mailpit
    requires forall n :: n in touched ==> OnlyListed(mailed, after, n, Listed(selection, n))
    requires forall n :: n in touched ==> AllocationsComplete(mailed, after, n, Listed(selection, n))
    requires SameStructure(mailed, after)
    ensures Asked(selection, o, k, EnvOf(after, o)[k])
  {
    hide IsGenerated, Candidate, AllocationDefaults, ConfigKey, AllocationComplete;
    assert !SameResource(mailed, after, o.resource);
    var n :| n in touched && ConfigKey(n) == o.resource;
    assert o.allocation in Listed(selection, n);
    var j := FirstListed(Listed(selection, n), o.allocation);
    var i := AddedIsGenerated(mailed, after, n, Listed(selection, n), j, k);
  }

  /** Nothing is added over all stages but what the selection asks for. */
  lemma AskedPieces(before: ProjectConfig, selection: Selection, rooted: ProjectConfig, structured: ProjectConfig,
                    mailed: ProjectConfig, after: ProjectConfig, touched: set<ResourceName>)
    requires rooted == WithRootDefaults(before, selection) && SameEntries(rooted, structured)
    requires Preserved(structured, mailed) && Preserved(mailed, after)
    requires forall o, k :: Added(structured, mailed, o, k) ==>
      o == ResourceOwner("mailpit") && IsGenerated(None, MAILPIT_DEFAULTS, k, EnvOf(mailed, o)[k])
    requires !IsSelected(selection, Mailpit) ==> mailed == structured
    requires AddsAtAllocations(mailed, after) && OnlyResources(mailed, after, touched) && SameStructure(mailed, after)
    requires forall n :: n in touched ==> IsSelected(selection, n) && n != Mailpit
    requires forall n :: n in touched ==> OnlyListed(mailed, after, n, Listed(selection, n))
    requires forall n :: IsSelected(selection, n) ==>
      AllocationsComplete(mailed, after, n, Listed(selection, n))
    ensures AddsOnlyAsked(before, after, selection)
  {
    RootStep(before, selection);
    hide EnvOf, IsGenerated, RootAsked, OnlyResources, OnlyListed, AllocationsComplete, SameStructure, WithRootDefaults;
    forall o, k | Added(before, after, o, k) ensures Asked(selection, o, k, EnvOf(after, o)[k]) {
      assert Extends(EnvOf(structured, o), EnvOf(mailed, o)) && Extends(EnvOf(mailed, o), EnvOf(after, o));
      if Added(mailed, after, o, k) {
        AskedAllocation(selection, mailed, after, touched, o, k);
      } else if !Added(structured, mailed, o, k) {
        assert EnvOf(structured, o) == EnvOf(rooted, o);
        assert Added(before, rooted, o, k);
        RootEnv(rooted);
        RootEnv(after);
      }
    }
  }

  lemma RootEnv(config: ProjectConfig)
    ensures EnvOf(config, RootOwner) == config.env
  {
  }

  /** Nothing is changed over all stages but what the selection names. */
  lemma ChangedPieces(before: ProjectConfig, selection: Selection, rooted: ProjectConfig, structured: ProjectConfig,
                      mailed: ProjectConfig, after: ProjectConfig, touched: set<ResourceName>)
    requires rooted == WithRootDefaults(before, selection)
    requires Structured(rooted, structured, selection, set n | n in NAMES && IsSelected(selection, n))
    requires forall r :: r != "mailpit" ==> SameResource(structured, mailed, r)
    requires SameButEnv(structured, mailed, "mailpit")
    requires !IsSelected(selection, Mailpit) ==> mailed == structured
    requires SameStructure(mailed, after) && OnlyResources(mailed, after, touched)
    requires forall n :: n in touched ==> IsSelected(selection, n)
    requires forall n :: n in touched ==> OnlyListed(mailed, after, n, Listed(selection, n))
    ensures ChangesOnlySelected(before, after, selection)
  {
    hide AncestorKeys, StructuredResource;
    assert before.resources == rooted.resources;
    var names := set n | n in NAMES && IsSelected(selection, n);
    forall n ensures n in names <==> IsSelected(selection, n) {
      assert n in NAMES by {
        var j := match n case Mailpit => 0 case Mysql => 1 case Postgres => 2 case Redis => 3 case Rustfs => 4;
        assert NAMES[j] == n;
      }
    }
    forall r | forall n :: IsSelected(selection, n) ==> ConfigKey(n) != r ensures SameResource(before, after, r) {
      assert SameResource(rooted, structured, r) && SameResource(mailed, after, r);
      assert r == "mailpit" ==> ConfigKey(Mailpit) == r && !IsSelected(selection, Mailpit);
      assert r != "mailpit" ==> SameResource(structured, mailed, r);
    }
    forall n | IsSelected(selection, n)
      ensures OnlyListed(before, after, n, Listed(selection, n))
      ensures ConfigKey(n) in after.resources
      ensures after.resources[ConfigKey(n)].allocations.Keys
        == (if ConfigKey(n) in before.resources then before.resources[ConfigKey(n)].allocations.Keys else {})
           + set a | a in selection.resources[n].allocations
    {
      assert n in names;
      SelectedResource(before, selection, rooted, structured, mailed, after, touched, n);
    }
  }

  lemma SelectedResource(before: ProjectConfig, selection: Selection, rooted: ProjectConfig, structured: ProjectConfig,
                         mailed: ProjectConfig, after: ProjectConfig, touched: set<ResourceName>, n: ResourceName)
    requires before.resources == rooted.resources && IsSelected(selection, n) && ConfigKey(n) in structured.resources
    requires structured.resources[ConfigKey(n)] == StructuredResource(rooted, n, selection.resources[n])
    requires forall r :: r != "mailpit" ==> SameResource(structured, mailed, r)
    requires SameButEnv(structured, mailed, "mailpit")
    requires SameStructure(mailed, after) && OnlyResources(mailed, after, touched)
    requires n in touched ==> OnlyListed(mailed, after, n, Listed(selection, n))
    ensures OnlyListed(before, after, n, Listed(selection, n))
    ensures ConfigKey(n) in after.resources
    ensures after.resources[ConfigKey(n)].allocations.Keys
      == (if ConfigKey(n) in before.resources then before.resources[ConfigKey(n)].allocations.Keys else {})
         + set a | a in selection.resources[n].allocations
  {
    hide ConfigKey, OnlyResources, StructuredResource, SameResource, SameButEnv, SameStructure;
    MailedAllocations(structured, mailed, ConfigKey(n));
    StructuredAllocations(rooted, n, selection.resources[n]);
    AfterAllocations(mailed, after, touched, n, Listed(selection, n));
  }

  lemma MailedAllocations(structured: ProjectConfig, mailed: ProjectConfig, r: string)
    requires r in structured.resources
    requires forall other :: other != "mailpit" ==> SameResource(structured, mailed, other)
    requires SameButEnv(structured, mailed, "mailpit")
    ensures r in mailed.resources && mailed.resources[r].allocations == structured.resources[r].allocations
  {
    assert r != "mailpit" ==> SameResource(structured, mailed, r);
  }

  lemma StructuredAllocations(config: ProjectConfig, name: ResourceName, selection: ResourceSelection)
    ensures var key := ConfigKey(name);
      var was := if key in config.resources then config.resources[key].allocations else map[];
      var now := StructuredResource(config, name, selection).allocations;
      && now.Keys == was.Keys + (set a | a in selection.allocations)
      && forall a :: a in was ==> now[a] == was[a]
  {
    hide ConfigKey;
  }

  lemma AfterAllocations(mailed: ProjectConfig, after: ProjectConfig, touched: set<ResourceName>, n: ResourceName,
                         listed: seq<string>)
    requires SameStructure(mailed, after) && OnlyResources(mailed, after, touched) && ConfigKey(n) in mailed.resources
    requires n in touched ==> OnlyListed(mailed, after, n, listed)
    ensures ConfigKey(n) in after.resources
    ensures after.resources[ConfigKey(n)].allocations.Keys == mailed.resources[ConfigKey(n)].allocations.Keys
    ensures OnlyListed(mailed, after, n, listed)
  {
    hide ConfigKey, OnlyResources;
    if n !in touched {
      UntouchedByOthers(mailed, after, touched, n);
    }
  }

  lemma UntouchedByOthers(before: ProjectConfig, after: ProjectConfig, touched: set<ResourceName>, n: ResourceName)
    requires OnlyResources(before, after, touched) && n !in touched
    ensures SameResource(before, after, ConfigKey(n))
  {
    hide ConfigKey;
    forall other | other in touched ensures ConfigKey(other) != ConfigKey(n) {
      ConfigKeyInjective(other, n);
    }
  }

  lemma SameAncestorKeys(before: ProjectConfig, after: ProjectConfig)
    requires SameStructure(before, after) && MailComplete(before)
    ensures MailComplete(after)
  {
    forall k | k in AncestorKeys(before) ensures k in AncestorKeys(after) {
      if k !in before.env {
        var r :| r in before.resources && k in before.resources[r].env;
        assert k in after.resources[r].env;
      }
    }
  }

  lemma AllocationEntriesKept(before: ProjectConfig, selection: Selection, rooted: ProjectConfig,
                              structured: ProjectConfig, mailed: ProjectConfig, o: Owner)
    requires o.AllocationOwner?
    requires rooted == WithRootDefaults(before, selection) && SameEntries(rooted, structured)
    requires Preserved(structured, mailed)
    requires forall p, k :: Added(structured, mailed, p, k) ==> p == ResourceOwner("mailpit")
    ensures EnvOf(mailed, o) == EnvOf(before, o)
  {
    RootStep(before, selection);
    hide EnvOf, WithRootDefaults;
    assert EnvOf(structured, o) == EnvOf(before, o);
    assert Extends(EnvOf(structured, o), EnvOf(mailed, o));
    forall k | k in EnvOf(mailed, o) ensures k in EnvOf(structured, o) {
      assert k !in EnvOf(structured, o) ==> Added(structured, mailed, o, k);
    }
    assert EnvOf(mailed, o).Keys == EnvOf(structured, o).Keys;
  }

  lemma RootNotDeeper()
    ensures forall p :: !Deeper(RootOwner, p)
    ensures forall o, p: Owner :: p.AllocationOwner? ==> !Deeper(o, p)
  {
  }

  // ------------------------------------------------------------------
  // The merge is determined
  // ------------------------------------------------------------------

  /** The entries of one prefix are determined. */
  lemma MergedUnderDetermined(before: EnvMap, x: EnvMap, y: EnvMap, prefix: Option<string>, defaults: seq<Default>)
    requires MergedUnder(before, x, prefix, defaults) && MergedUnder(before, y, prefix, defaults)
    ensures x == y
  {
    MergedUnderWithin(before, x, y, prefix, defaults);
    MergedUnderWithin(before, y, x, prefix, defaults);
  }

  lemma MergedUnderWithin(before: EnvMap, x: EnvMap, y: EnvMap, prefix: Option<string>, defaults: seq<Default>)
    requires MergedUnder(before, x, prefix, defaults) && MergedUnder(before, y, prefix, defaults)
    ensures forall k :: k in x ==> k in y && y[k] == x[k]
  {
    hide GeneratedKey;
    forall k | k in x ensures k in y && y[k] == x[k] {
      if k !in before {
        assert IsNewDefault(before, prefix, defaults, k, x[k]);
        var i :| 0 <= i < |defaults| && defaults[i].key !in before && k == GeneratedKey(prefix, defaults[i].key)
          && x[k] == defaults[i].template;
        assert HasDefault(before, y, prefix, defaults[i]);
      }
    }
  }

  /** So is the prefix. */
  lemma MergedAllocationDetermined(before: EnvMap, x: EnvMap, y: EnvMap, resource: string, allocation: string,
                                   ancestorKeys: set<string>, allocationKeys: set<string>, defaults: seq<Default>)
    requires MergedAllocation(before, x, resource, allocation, ancestorKeys, allocationKeys, defaults)
    requires MergedAllocation(before, y, resource, allocation, ancestorKeys, allocationKeys, defaults)
    ensures x == y
  {
    hide PrefixAvailable, MergedUnder, Candidate;
    var i: nat :| FirstAvailable(resource, allocation, before, ancestorKeys, allocationKeys, defaults, i)
      && MergedUnder(before, x, Candidate(resource, allocation, i), defaults);
    var j: nat :| FirstAvailable(resource, allocation, before, ancestorKeys, allocationKeys, defaults, j)
      && MergedUnder(before, y, Candidate(resource, allocation, j), defaults);
    assert i == j;
    MergedUnderDetermined(before, x, y, Candidate(resource, allocation, i), defaults);
  }

  /** An owner for which nothing is asked keeps its environment. */
  lemma NothingAsked(before: ProjectConfig, after: ProjectConfig, selection: Selection, o: Owner)
    requires Preserved(before, after) && AddsOnlyAsked(before, after, selection)
    requires forall k, template :: !Asked(selection, o, k, template)
    ensures EnvOf(after, o) == EnvOf(before, o)
  {
    hide EnvOf, Asked;
    assert Extends(EnvOf(before, o), EnvOf(after, o));
    forall k | k in EnvOf(after, o) ensures k in EnvOf(before, o) {
      assert !Added(before, after, o, k);
    }
    assert EnvOf(after, o).Keys == EnvOf(before, o).Keys;
  }

  lemma RootDetermined(before: ProjectConfig, a: ProjectConfig, b: ProjectConfig, selection: Selection)
    requires InitMerged(before, a, selection) && InitMerged(before, b, selection)
    ensures a.env == b.env
  {
    RootWithin(before, a, b, selection);
    RootWithin(before, b, a, selection);
  }

  lemma RootWithin(before: ProjectConfig, a: ProjectConfig, b: ProjectConfig, selection: Selection)
    requires InitMerged(before, a, selection) && InitMerged(before, b, selection)
    ensures forall k :: k in a.env ==> k in b.env && b.env[k] == a.env[k]
  {
    RootEnv(before);
    RootEnv(a);
    RootEnv(b);
    hide EnvOf, AddsFreshKeys, KeepsMeaning, ShapeValid, ChangesOnlySelected, StructurePresent, EachComplete,
      MailComplete;
    forall k | k in a.env ensures k in b.env && b.env[k] == a.env[k] {
      assert Extends(EnvOf(before, RootOwner), EnvOf(a, RootOwner));
      assert Extends(EnvOf(before, RootOwner), EnvOf(b, RootOwner));
      if k !in before.env {
        assert Added(before, a, RootOwner, k);
        assert Asked(selection, RootOwner, k, a.env[k]);
        assert k in b.env;
        assert Added(before, b, RootOwner, k);
        assert Asked(selection, RootOwner, k, b.env[k]);
        RootAskedOnce(selection, k, a.env[k], b.env[k]);
      }
    }
  }

  lemma RootAskedOnce(selection: Selection, key: string, x: string, y: string)
    requires RootAsked(selection, key, x) && RootAsked(selection, key, y)
    ensures x == y
  {
    assert |"APP_URL"| == 7 && |"VITE_DEV_SERVER_CERT"| == 20 && |"VITE_DEV_SERVER_KEY"| == 19;
  }

  lemma OtherDetermined(before: ProjectConfig, a: ProjectConfig, b: ProjectConfig, selection: Selection, r: string)
    requires InitMerged(before, a, selection) && InitMerged(before, b, selection)
    requires !(r == ConfigKey(Mailpit) && IsSelected(selection, Mailpit))
    ensures EnvOf(a, ResourceOwner(r)) == EnvOf(b, ResourceOwner(r))
  {
    hide EnvOf, AddsFreshKeys, KeepsMeaning, ShapeValid, ChangesOnlySelected, StructurePresent, EachComplete,
      MailComplete, Preserved, AddsOnlyAsked;
    NothingAsked(before, a, selection, ResourceOwner(r));
    NothingAsked(before, b, selection, ResourceOwner(r));
  }

  lemma ResourceDetermined(before: ProjectConfig, a: ProjectConfig, b: ProjectConfig, selection: Selection, r: string)
    requires InitMerged(before, a, selection) && InitMerged(before, b, selection)
    ensures EnvOf(a, ResourceOwner(r)) == EnvOf(b, ResourceOwner(r))
  {
    hide EnvOf, InitMerged;
    if r == ConfigKey(Mailpit) && IsSelected(selection, Mailpit) {
      MailWithin(before, a, b, selection);
      MailWithin(before, b, a, selection);
      var x, y := EnvOf(a, ResourceOwner("mailpit")), EnvOf(b, ResourceOwner("mailpit"));
      assert forall k :: k in x <==> k in y;
      assert x == y && r == "mailpit";
    } else {
      OtherDetermined(before, a, b, selection, r);
    }
  }

  lemma MailWithin(before: ProjectConfig, a: ProjectConfig, b: ProjectConfig, selection: Selection)
    requires InitMerged(before, a, selection) && InitMerged(before, b, selection) && IsSelected(selection, Mailpit)
    ensures var o := ResourceOwner("mailpit");
      forall k :: k in EnvOf(a, o) ==> k in EnvOf(b, o) && EnvOf(b, o)[k] == EnvOf(a, o)[k]
  {
    var o := ResourceOwner("mailpit");
    RootDetermined(before, a, b, selection);
    hide EnvOf, KeepsMeaning, ShapeValid, ChangesOnlySelected, StructurePresent, EachComplete, MailComplete,
      IsGenerated;
    assert Extends(EnvOf(before, o), EnvOf(a, o)) && Extends(EnvOf(before, o), EnvOf(b, o));
    forall k | k in EnvOf(a, o) ensures k in EnvOf(b, o) && EnvOf(b, o)[k] == EnvOf(a, o)[k] {
      if k !in EnvOf(before, o) {
        assert Added(before, a, o, k);
        assert Asked(selection, o, k, EnvOf(a, o)[k]);
        MailAdded(before, a, b, selection, k);
        assert Added(before, b, o, k);
        assert Asked(selection, o, k, EnvOf(b, o)[k]);
        MailOnce(k, EnvOf(a, o)[k], EnvOf(b, o)[k]);
      }
    }
  }

  lemma MailOnce(key: string, x: string, y: string)
    requires IsGenerated(None, MAILPIT_DEFAULTS, key, x) && IsGenerated(None, MAILPIT_DEFAULTS, key, y)
    ensures x == y
  {
    assert "MAIL_HOST"[5] == 'H' && "MAIL_PORT"[5] == 'P' && |"MAIL_MAILER"| == 11;
  }

  /** A mail default that one result adds is not given by another owner of the other either. */
  lemma MailAdded(before: ProjectConfig, a: ProjectConfig, b: ProjectConfig, selection: Selection, k: string)
    requires InitMerged(before, a, selection) && InitMerged(before, b, selection) && IsSelected(selection, Mailpit)
    requires a.env == b.env && Added(before, a, ResourceOwner("mailpit"), k)
    requires Asked(selection, ResourceOwner("mailpit"), k, EnvOf(a, ResourceOwner("mailpit"))[k])
    ensures k in EnvOf(b, ResourceOwner("mailpit"))
  {
    RootEnv(a);
    hide EnvOf, KeepsMeaning, ShapeValid, ChangesOnlySelected, StructurePresent, EachComplete, Preserved, AddsOnlyAsked;
    assert MailComplete(b) && k in AncestorKeys(b) by {
      var i :| 0 <= i < |MAILPIT_DEFAULTS| && k == GeneratedKey(None, MAILPIT_DEFAULTS[i].key);
    }
    assert k !in EnvOf(a, RootOwner);
    AncestorKeyOwned(b, k);
    hide InitMerged, MailComplete, AncestorKeys;
    var r :| k in EnvOf(b, ResourceOwner(r));
    if r != "mailpit" {
      OtherDetermined(before, a, b, selection, r);
    }
  }

  lemma AncestorKeyOwned(config: ProjectConfig, k: string)
    ensures k in AncestorKeys(config) <==> k in config.env || exists r :: k in EnvOf(config, ResourceOwner(r))
  {
    if r :| k in EnvOf(config, ResourceOwner(r)) {
      assert k in config.resources[r].env;
    }
    if k in AncestorKeys(config) && k !in config.env {
      var r :| r in config.resources && k in config.resources[r].env;
      assert k in EnvOf(config, ResourceOwner(r));
    }
  }

  lemma AncestorsDetermined(before: ProjectConfig, a: ProjectConfig, b: ProjectConfig, selection: Selection)
    requires InitMerged(before, a, selection) && InitMerged(before, b, selection)
    ensures AncestorKeys(a) == AncestorKeys(b)
  {
    RootDetermined(before, a, b, selection);
    hide InitMerged, AncestorKeys, EnvOf;
    forall r ensures EnvOf(a, ResourceOwner(r)) == EnvOf(b, ResourceOwner(r)) {
      ResourceDetermined(before, a, b, selection, r);
    }
    forall k ensures k in AncestorKeys(a) <==> k in AncestorKeys(b) {
      AncestorKeyOwned(a, k);
      AncestorKeyOwned(b, k);
    }
  }

  /** Whether a merge has something to add to an allocation. */
  ghost predicate HasTurn(selection: Selection, r: string, a: string) {
    exists n :: n != Mailpit && IsSelected(selection, n) && ConfigKey(n) == r && a in Listed(selection, n)
  }

  lemma NoTurnDetermined(before: ProjectConfig, after: ProjectConfig, selection: Selection, r: string, a: string)
    requires Preserved(before, after) && AddsOnlyAsked(before, after, selection) && !HasTurn(selection, r, a)
    ensures EnvOf(after, AllocationOwner(r, a)) == EnvOf(before, AllocationOwner(r, a))
  {
    hide EnvOf, ConfigKey, IsGenerated, Candidate, AllocationDefaults, Preserved, AddsOnlyAsked;
    NothingAsked(before, after, selection, AllocationOwner(r, a));
  }

  /** What is merged at a turn is determined, by induction over the turns. */
  lemma {:induction false} TurnDetermined(before: ProjectConfig, a: ProjectConfig, b: ProjectConfig,
                                          selection: Selection, name: ResourceName, j: nat)
    requires InitMerged(before, a, selection) && InitMerged(before, b, selection)
    requires name != Mailpit && IsSelected(selection, name) && j < |Listed(selection, name)|
    requires Listed(selection, name)[j] !in Listed(selection, name)[..j]
    ensures var o := AllocationOwner(ConfigKey(name), Listed(selection, name)[j]); EnvOf(a, o) == EnvOf(b, o)
    decreases Turn(name), j
  {
    var listed := Listed(selection, name);
    forall r, al | EarlierTurn(r, al, name, listed[..j])
      ensures EnvOf(a, AllocationOwner(r, al)) == EnvOf(b, AllocationOwner(r, al))
    {
      if HasTurn(selection, r, al) {
        var n :| n != Mailpit && IsSelected(selection, n) && ConfigKey(n) == r && al in Listed(selection, n);
        var i := FirstListed(Listed(selection, n), al);
        EarlierIs(name, listed, j, n, i, al);
        TurnDetermined(before, a, b, selection, n, i);
      } else {
        hide HasTurn, EnvOf, ConfigKey;
        NoTurnDetermined(before, a, selection, r, al);
        NoTurnDetermined(before, b, selection, r, al);
      }
    }
    SameUse(before, a, b, selection, name, listed[..j]);
    AncestorsDetermined(before, a, b, selection);
    CompleteOf(before, a, selection, name, j);
    CompleteOf(before, b, selection, name, j);
    hide InitMerged, EnvOf, MergedAllocation, KeysAtTurn, AncestorKeys, AllocationDefaults, ConfigKey;
    var o := AllocationOwner(ConfigKey(name), listed[j]);
    MergedAllocationDetermined(EnvOf(before, o), EnvOf(a, o), EnvOf(b, o), ConfigKey(name), listed[j], AncestorKeys(a),
                               KeysAtTurn(before, a, name, listed[..j]), AllocationDefaults(name));
  }

  lemma CompleteOf(before: ProjectConfig, after: ProjectConfig, selection: Selection, name: ResourceName, j: nat)
    requires InitMerged(before, after, selection) && name != Mailpit && IsSelected(selection, name)
    requires j < |Listed(selection, name)| && Listed(selection, name)[j] !in Listed(selection, name)[..j]
    ensures AllocationComplete(before, after, name, Listed(selection, name), j)
  {
    hide Preserved, AddsFreshKeys, KeepsMeaning, ShapeValid, ChangesOnlySelected, StructurePresent, MailComplete,
      AddsOnlyAsked, AllocationComplete;
    assert EachComplete(before, after, name, Listed(selection, name));
  }

  /** Where an allocation of an earlier turn is listed first. */
  lemma EarlierIs(name: ResourceName, listed: seq<string>, j: nat, n: ResourceName, i: nat, a: string)
    requires j < |listed| && EarlierTurn(ConfigKey(n), a, name, listed[..j])
    ensures Turn(n) < Turn(name) || (n == name && a in listed[..j])
  {
    forall m | m != n ensures ConfigKey(m) != ConfigKey(n) {
      ConfigKeyInjective(m, n);
    }
  }

  lemma SameUse(before: ProjectConfig, a: ProjectConfig, b: ProjectConfig, selection: Selection, name: ResourceName,
                earlier: seq<string>)
    requires InitMerged(before, a, selection) && InitMerged(before, b, selection)
    requires forall r, al :: EarlierTurn(r, al, name, earlier) ==>
      EnvOf(a, AllocationOwner(r, al)) == EnvOf(b, AllocationOwner(r, al))
    ensures KeysAtTurn(before, a, name, earlier) == KeysAtTurn(before, b, name, earlier)
  {
    assert Preserved(before, a) && Preserved(before, b);
    hide InitMerged, EnvOf, KeysAtTurn, EarlierTurn;
    forall r, al, k ensures InUse(before, a, name, earlier, r, al, k) <==> InUse(before, b, name, earlier, r, al, k) {
      var o := AllocationOwner(r, al);
      assert Extends(EnvOf(before, o), EnvOf(a, o)) && Extends(EnvOf(before, o), EnvOf(b, o));
    }
    forall k ensures k in KeysAtTurn(before, a, name, earlier) <==> k in KeysAtTurn(before, b, name, earlier) {
      KeyAtTurn(before, a, name, earlier, k);
      KeyAtTurn(before, b, name, earlier, k);
    }
  }

  lemma AllocationDetermined(before: ProjectConfig, a: ProjectConfig, b: ProjectConfig, selection: Selection,
                             r: string, al: string)
    requires InitMerged(before, a, selection) && InitMerged(before, b, selection)
    ensures EnvOf(a, AllocationOwner(r, al)) == EnvOf(b, AllocationOwner(r, al))
  {
    if HasTurn(selection, r, al) {
      var n :| n != Mailpit && IsSelected(selection, n) && ConfigKey(n) == r && al in Listed(selection, n);
      var i := FirstListed(Listed(selection, n), al);
      hide InitMerged, EnvOf;
      TurnDetermined(before, a, b, selection, n, i);
    } else {
      hide HasTurn, EnvOf;
      NoTurnDetermined(before, a, selection, r, al);
      NoTurnDetermined(before, b, selection, r, al);
    }
  }

  lemma SelectedDetermined(before: ProjectConfig, after: ProjectConfig, selection: Selection, n: ResourceName)
    requires InitMerged(before, after, selection) && IsSelected(selection, n)
    ensures ConfigKey(n) in after.resources
    ensures after.resources[ConfigKey(n)].track == Some(selection.resources[n].track)
    ensures after.resources[ConfigKey(n)].allocations.Keys
      == (if ConfigKey(n) in before.resources then before.resources[ConfigKey(n)].allocations.Keys else {})
         + set a | a in selection.resources[n].allocations
  {
    hide EnvOf, Preserved, AddsFreshKeys, KeepsMeaning, ShapeValid, EachComplete, MailComplete, AddsOnlyAsked,
      OnlyListed;
    assert StructurePresent(after, n, selection.resources[n]);
  }

  lemma SameOutside(before: ProjectConfig, after: ProjectConfig, selection: Selection, r: string)
    requires InitMerged(before, after, selection) && forall n :: IsSelected(selection, n) ==> ConfigKey(n) != r
    ensures SameResource(before, after, r)
  {
    hide EnvOf, Preserved, AddsFreshKeys, KeepsMeaning, ShapeValid, EachComplete, MailComplete, AddsOnlyAsked,
      OnlyListed, ConfigKey, StructurePresent;
  }

  lemma ResourceEqual(before: ProjectConfig, a: ProjectConfig, b: ProjectConfig, selection: Selection, r: string)
    requires InitMerged(before, a, selection) && InitMerged(before, b, selection)
    ensures SameResource(a, b, r)
  {
    hide InitMerged, ConfigKey, EnvOf;
    if n :| IsSelected(selection, n) && ConfigKey(n) == r {
      SelectedDetermined(before, a, selection, n);
      SelectedDetermined(before, b, selection, n);
      ResourceDetermined(before, a, b, selection, r);
      forall al ensures EnvOf(a, AllocationOwner(r, al)) == EnvOf(b, AllocationOwner(r, al)) {
        AllocationDetermined(before, a, b, selection, r, al);
      }
      EqualByOwners(a, b, r);
    } else {
      SameOutside(before, a, selection, r);
      SameOutside(before, b, selection, r);
    }
  }

  lemma EqualByOwners(a: ProjectConfig, b: ProjectConfig, r: string)
    requires r in a.resources && r in b.resources
    requires a.resources[r].track == b.resources[r].track
    requires a.resources[r].allocations.Keys == b.resources[r].allocations.Keys
    requires EnvOf(a, ResourceOwner(r)) == EnvOf(b, ResourceOwner(r))
    requires forall al :: EnvOf(a, AllocationOwner(r, al)) == EnvOf(b, AllocationOwner(r, al))
    ensures a.resources[r] == b.resources[r]
  {
    var x, y := a.resources[r], b.resources[r];
    forall al | al in x.allocations ensures x.allocations[al] == y.allocations[al] {
      assert EnvOf(a, AllocationOwner(r, al)) == EnvOf(b, AllocationOwner(r, al));
    }
    assert x.allocations == y.allocations;
  }

  /** What the merge promises determines its result: no other configuration has all of it. */
  lemma MergeDetermined(before: ProjectConfig, a: ProjectConfig, b: ProjectConfig, selection: Selection)
    requires InitMerged(before, a, selection) && InitMerged(before, b, selection)
    ensures a == b
  {
    RootDetermined(before, a, b, selection);
    forall r ensures SameResource(a, b, r) {
      ResourceEqual(before, a, b, selection, r);
    }
    hide AddsFreshKeys, KeepsMeaning, ShapeValid, EachComplete, MailComplete, AddsOnlyAsked, ChangesOnlySelected,
      StructurePresent, EnvOf;
    forall r ensures r in a.resources <==> r in b.resources {
      assert SameResource(a, b, r);
    }
    forall r | r in a.resources ensures a.resources[r] == b.resources[r] {
      assert SameResource(a, b, r);
    }
    assert a.resources == b.resources;
  }

  // ------------------------------------------------------------------
  // Rendering after the merge
  // ------------------------------------------------------------------

  /** Some owner wins every key that is bound at all. */
  lemma SomeoneWins(config: ProjectConfig, owner: Owner, key: string) returns (winner: Owner)
    requires Binds(config, owner, key)
    ensures Wins(config, winner, key)
  {
    hide Binds;
    if a: Owner :| a.AllocationOwner? && Binds(config, a, key) {
      winner := a;
    } else if r: Owner :| r.ResourceOwner? && Binds(config, r, key) {
      winner := r;
    } else {
      winner := owner;
    }
  }

  /** What a merge adds renders: its owner has its context, and its template renders in it,
      unless the project leaves it out. */
  ghost predicate AdditionsRender(before: ProjectConfig, after: ProjectConfig, context: ProjectContext,
                                  project: EnvMap)
  {
    forall o, k :: Added(before, after, o, k) ==>
      && ContextOf(context, project, o).Ok?
      && (Binds(after, o, k) ==>
            RenderValue(Source(o, k), EnvOf(after, o)[k], ContextOf(context, project, o).value).Ok?)
  }

  /** A configuration that rendered still does after a merge if and only if the additions do;
      and then every key that rendered before has the value it had. */
  lemma MergeKeepsRendering(before: ProjectConfig, after: ProjectConfig, context: ProjectContext)
    requires Preserved(before, after) && AddsFreshKeys(before, after) && RenderConfig(before, context).Ok?
    ensures ProjectValues(context, before.serve).Ok?
    ensures RenderConfig(after, context).Ok? <==>
      AdditionsRender(before, after, context, ProjectValues(context, before.serve).value)
    ensures RenderConfig(after, context).Ok? ==>
      forall key :: key in RenderConfig(before, context).value ==>
        && key in RenderConfig(after, context).value
        && RenderConfig(after, context).value[key] == RenderConfig(before, context).value[key]
  {
    RenderSucceedsExactly(before, context);
    RenderSucceedsExactly(after, context);
    FreshAdditionsKeepMeaning(before, after);
    SameServe(before, after);
    hide RenderConfig, ProjectValues, ShapeValid, AddsFreshKeys, KeepsMeaning;
    var project := ProjectValues(context, before.serve).value;
    AdditionsRenderExactly(before, after, context, project);
    if RenderConfig(after, context).Ok? {
      forall key | key in RenderConfig(before, context).value
        ensures key in RenderConfig(after, context).value
          && RenderConfig(after, context).value[key] == RenderConfig(before, context).value[key]
      {
        ValueKept(before, after, context, key);
      }
    }
  }

  lemma AdditionsRenderExactly(before: ProjectConfig, after: ProjectConfig, context: ProjectContext, project: EnvMap)
    requires Preserved(before, after) && forall o :: OwnerRenders(before, context, project, o)
    ensures (forall o :: OwnerRenders(after, context, project, o)) <==>
      AdditionsRender(before, after, context, project)
  {
    hide EnvOf, ContextOf, RenderValue, Source, Kept;
    forall o | AdditionsRender(before, after, context, project) ensures OwnerRenders(after, context, project, o) {
      assert OwnerRenders(before, context, project, o);
      OwnerStillRenders(before, after, context, project, o);
    }
    if forall o :: OwnerRenders(after, context, project, o) {
      forall o, k | Added(before, after, o, k)
        ensures ContextOf(context, project, o).Ok?
        ensures Binds(after, o, k) ==>
          RenderValue(Source(o, k), EnvOf(after, o)[k], ContextOf(context, project, o).value).Ok?
      {
        assert OwnerRenders(after, context, project, o);
      }
    }
  }

  lemma OwnerStillRenders(before: ProjectConfig, after: ProjectConfig, context: ProjectContext, project: EnvMap,
                          o: Owner)
    requires Preserved(before, after) && AdditionsRender(before, after, context, project)
    requires OwnerRenders(before, context, project, o)
    ensures OwnerRenders(after, context, project, o)
  {
    hide EnvOf, ContextOf, RenderValue, Source, Kept;
    assert Extends(EnvOf(before, o), EnvOf(after, o));
    if EnvOf(after, o) != map[] {
      var k :| k in EnvOf(after, o);
      assert k in EnvOf(before, o) || Added(before, after, o, k);
      forall key | Binds(after, o, key)
        ensures RenderValue(Source(o, key), EnvOf(after, o)[key], ContextOf(context, project, o).value).Ok?
      {
        assert Added(before, after, o, key) || Binds(before, o, key);
      }
    }
  }

  lemma ValueKept(before: ProjectConfig, after: ProjectConfig, context: ProjectContext, key: string)
    requires Preserved(before, after) && KeepsMeaning(before, after)
    requires RenderConfig(before, context).Ok? && RenderConfig(after, context).Ok?
    requires key in RenderConfig(before, context).value
    ensures key in RenderConfig(after, context).value
    ensures RenderConfig(after, context).value[key] == RenderConfig(before, context).value[key]
  {
    hide RenderConfig, Binds, ContextOf, ProjectValues, Wins, Preserved, Source;
    RenderRefinesLookup(before, context);
    RenderRefinesLookup(after, context);
    SameServe(before, after);
    var owner :| Binds(before, owner, key);
    var winner := SomeoneWins(before, owner, key);
    assert Wins(after, winner, key);
  }

  lemma SameServe(before: ProjectConfig, after: ProjectConfig)
    requires Preserved(before, after)
    ensures after.serve == before.serve
  {
  }

  /** An empty project, and one MySQL allocation for it. */
  function EmptyProject(): ProjectConfig {
    ProjectConfig(false, ".env", None, None, [], map[], map[])
  }

  function OneAllocation(): Selection {
    Selection("8.4", None, false, false, map[Mysql := ResourceSelection(true, "8.0", ["app"])])
  }

  /** Where that allocation has no context yet, the project renders before the merge and not
      after it. */
  lemma MergeStopsRendering(after: ProjectConfig, context: ProjectContext)
    requires InitMerged(EmptyProject(), after, OneAllocation()) && context.resources == map[]
    ensures RenderConfig(EmptyProject(), context) == Ok(map[])
    ensures RenderConfig(after, context).Err?
  {
    hide RenderConfig, InitMerged, AllocationComplete;
    var before := EmptyProject();
    EmptyRenders(context);
    PromisesKept(before, after, OneAllocation());
    OneListed();
    CompleteOf(before, after, OneAllocation(), Mysql, 0);
    hide OneAllocation, EmptyProject, AddsFreshKeys, Preserved;
    var k := SomethingAdded(before, after, Mysql, ["app"], 0);
    MergeKeepsRendering(before, after, context);
    assert Added(before, after, AllocationOwner("mysql", "app"), k);
  }

  lemma OneListed()
    ensures IsSelected(OneAllocation(), Mysql) && Listed(OneAllocation(), Mysql) == ["app"]
    ensures EnvOf(EmptyProject(), AllocationOwner("mysql", "app")) == map[]
    ensures AllocationDefaults(Mysql) != []
  {
  }

  lemma PromisesKept(before: ProjectConfig, after: ProjectConfig, selection: Selection)
    requires InitMerged(before, after, selection)
    ensures Preserved(before, after) && AddsFreshKeys(before, after)
  {
    hide Preserved, AddsFreshKeys, KeepsMeaning, ShapeValid, AddsOnlyAsked, ChangesOnlySelected, StructurePresent,
      MailComplete, EachComplete;
  }

  lemma EmptyRenders(context: ProjectContext)
    ensures RenderConfig(EmptyProject(), context) == Ok(map[])
  {
    var none: set<string> := {};
    assert EmptyProject().env.Keys == none && EmptyProject().resources.Keys == none;
  }

  lemma SomethingAdded(before: ProjectConfig, after: ProjectConfig, name: ResourceName, listed: seq<string>, j: nat)
    returns (k: string)
    requires j < |listed| && AllocationComplete(before, after, name, listed, j) && AllocationDefaults(name) != []
    requires EnvOf(before, AllocationOwner(ConfigKey(name), listed[j])) == map[]
    ensures Added(before, after, AllocationOwner(ConfigKey(name), listed[j]), k)
  {
    hide EnvOf, FirstAvailable, IsNewDefault, Candidate, AllocationDefaults, ConfigKey, KeysAtTurn, AncestorKeys;
    var o := AllocationOwner(ConfigKey(name), listed[j]);
    var defaults := AllocationDefaults(name);
    var i: nat :| MergedUnder(EnvOf(before, o), EnvOf(after, o), Candidate(ConfigKey(name), listed[j], i), defaults);
    var prefix := Candidate(ConfigKey(name), listed[j], i);
    FirstDefault(EnvOf(before, o), EnvOf(after, o), prefix, defaults);
    k := GeneratedKey(prefix, defaults[0].key);
  }

  lemma FirstDefault(before: EnvMap, after: EnvMap, prefix: Option<string>, defaults: seq<Default>)
    requires MergedUnder(before, after, prefix, defaults) && defaults != [] && before == map[]
    ensures GeneratedKey(prefix, defaults[0].key) in after
  {
    assert HasDefault(before, after, prefix, defaults[0]);
  }

  // ------------------------------------------------------------------
  // Generated keys are legal
  // ------------------------------------------------------------------

  lemma KeyWithPrefixLegal(prefix: string, key: string)
    requires IsEnvKey(prefix)
    requires forall i :: 0 <= i < |key| ==> IsUpper(key[i]) || IsDigit(key[i]) || key[i] == '_'
    ensures IsEnvKey(prefix + "_" + key)
  {
  }

  lemma PrefixLegal(name: string)
    requires IsAllocationName(name)
    ensures IsEnvKey(AllocationEnvPrefix(name))
  {
  }

  lemma CandidateLegal(resource: ResourceName, allocation: string, i: nat, key: string)
    requires IsAllocationName(allocation) && IsEnvKey(key)
    ensures IsEnvKey(GeneratedKey(Candidate(ConfigKey(resource), allocation, i), key))
  {
    assert IsAllocationName(ConfigKey(resource));
    PrefixLegal(ConfigKey(resource));
    PrefixLegal(allocation);
    var a, r := AllocationEnvPrefix(allocation), AllocationEnvPrefix(ConfigKey(resource));
    hide IsAllocationName, ConfigKey, AllocationEnvPrefix;
    KeyWithPrefixLegal(r, a);
    if i == 1 {
      KeyWithPrefixLegal(a, key);
    } else if i == 2 {
      KeyWithPrefixLegal(r + "_" + a, key);
    } else if i >= 3 {
      KeyWithPrefixLegal(r + "_" + a, Decimal(i - 1));
      KeyWithPrefixLegal(r + "_" + a + "_" + Decimal(i - 1), key);
    }
  }

  lemma DatabaseKeysLegal()
    ensures IsEnvKey("DB_CONNECTION") && IsEnvKey("DB_HOST") && IsEnvKey("DB_PORT")
    ensures IsEnvKey("DB_DATABASE") && IsEnvKey("DB_USERNAME") && IsEnvKey("DB_PASSWORD")
  {
  }

  lemma RedisKeysLegal()
    ensures IsEnvKey("REDIS_HOST") && IsEnvKey("REDIS_PORT") && IsEnvKey("REDIS_PREFIX")
  {
  }

  lemma AwsKeysLegal()
    ensures IsEnvKey("AWS_ENDPOINT") && IsEnvKey("AWS_BUCKET")
    ensures IsEnvKey("AWS_ACCESS_KEY_ID") && IsEnvKey("AWS_SECRET_ACCESS_KEY")
  {
  }

  lemma DefaultKeysLegal(name: ResourceName)
    ensures forall i :: 0 <= i < |AllocationDefaults(name)| ==> IsEnvKey(AllocationDefaults(name)[i].key)
  {
    hide IsEnvKey;
    DatabaseKeysLegal();
    RedisKeysLegal();
    AwsKeysLegal();
  }

  /** Every key generated for an allocation with a legal name is a legal env key. */
  lemma GeneratedKeysLegal(before: ProjectConfig, after: ProjectConfig, name: ResourceName, listed: seq<string>, j: nat,
                           k: string)
    requires j < |listed| && IsAllocationName(listed[j]) && AllocationComplete(before, after, name, listed, j)
    requires Added(before, after, AllocationOwner(ConfigKey(name), listed[j]), k)
    ensures IsEnvKey(k)
  {
    var i := AddedIsGenerated(before, after, name, listed, j, k);
    DefaultKeysLegal(name);
    hide AllocationDefaults, EnvOf, IsEnvKey, Candidate, ConfigKey, IsAllocationName, AllocationComplete;
    var a, defaults := listed[j], AllocationDefaults(name);
    var prefix := Candidate(ConfigKey(name), a, i);
    var d :| 0 <= d < |defaults| && k == GeneratedKey(prefix, defaults[d].key);
    CandidateLegal(name, a, i, defaults[d].key);
  }
}
