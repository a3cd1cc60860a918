/** What a merge writes, text by text, and what its entries render to. */
module InitResults {
  import opened Text
  import opened Config
  import opened Placeholders
  import opened PlaceholderForms
  import opened ProjectEnv
  import opened ProjectEnvLaws
  import opened ProjectEnvValues
  import opened InitMerge
  import opened InitConfig

  // ------------------------------------------------------------------
  // The entries of an allocation
  // ------------------------------------------------------------------

  /** What an application is to find in its environment for an allocation of each resource. */
  function Wanted(name: ResourceName): EnvMap {
    match name
    case Mailpit => map[]
    case Mysql =>
      map["DB_CONNECTION" := "mysql", "DB_HOST" := "${host}", "DB_PORT" := "${port}", "DB_DATABASE" := "${database}",
          "DB_USERNAME" := "${username}", "DB_PASSWORD" := "${password}"]
    case Postgres =>
      map["DB_CONNECTION" := "pgsql", "DB_HOST" := "${host}", "DB_PORT" := "${port}", "DB_DATABASE" := "${database}",
          "DB_USERNAME" := "${username}", "DB_PASSWORD" := "${password}"]
    case Redis =>
      map["REDIS_HOST" := "${host}", "REDIS_PORT" := "${port}", "REDIS_PREFIX" := "${prefix}"]
    case Rustfs =>
      map["AWS_ENDPOINT" := "${endpoint}", "AWS_BUCKET" := "${bucket}", "AWS_ACCESS_KEY_ID" := "${access_key}",
          "AWS_SECRET_ACCESS_KEY" := "${secret_key}"]
  }

  /** The i-th form of a key: bare, after the allocation's name, after the resource's and the
      allocation's, and after these and a number from 2 on; names in capitals. */
  function KeyUnder(r: string, a: string, i: nat, k: string): string {
    var both := AllocationEnvPrefix(r) + "_" + AllocationEnvPrefix(a);
    if i == 0 then k
    else if i == 1 then AllocationEnvPrefix(a) + "_" + k
    else if i == 2 then both + "_" + k
    else both + "_" + Decimal(i - 1) + "_" + k
  }

  lemma KeyUnderExact(r: string, a: string, i: nat, k: string)
    ensures GeneratedKey(Candidate(r, a, i), k) == KeyUnder(r, a, i, k)
  {
  }

  ghost predicate SameTable(defaults: seq<Default>, wanted: EnvMap) {
    && (forall d :: d in defaults ==> d.key in wanted && d.template == wanted[d.key])
    && (forall k :: k in wanted ==> Default(k, wanted[k]) in defaults)
  }

  lemma MysqlWanted()
    ensures SameTable(AllocationDefaults(Mysql), Wanted(Mysql))
  {
    var defaults, wanted := AllocationDefaults(Mysql), Wanted(Mysql);
    forall k | k in wanted ensures Default(k, wanted[k]) in defaults {
      assert Default(k, wanted[k]) in {defaults[0], defaults[1], defaults[2], defaults[3], defaults[4], defaults[5]};
    }
  }

  lemma PostgresWanted()
    ensures SameTable(AllocationDefaults(Postgres), Wanted(Postgres))
  {
    var defaults, wanted := AllocationDefaults(Postgres), Wanted(Postgres);
    forall k | k in wanted ensures Default(k, wanted[k]) in defaults {
      assert Default(k, wanted[k]) in {defaults[0], defaults[1], defaults[2], defaults[3], defaults[4], defaults[5]};
    }
  }

  lemma StoreWanted(name: ResourceName)
    requires name == Redis || name == Rustfs || name == Mailpit
    ensures SameTable(AllocationDefaults(name), Wanted(name))
  {
    var defaults, wanted := AllocationDefaults(name), Wanted(name);
    forall k | k in wanted ensures Default(k, wanted[k]) in defaults {
      if name == Redis {
        assert Default(k, wanted[k]) in {defaults[0], defaults[1], defaults[2]};
      } else {
        assert Default(k, wanted[k]) in {defaults[0], defaults[1], defaults[2], defaults[3]};
      }
    }
  }

  lemma WantedExact(name: ResourceName)
    ensures SameTable(AllocationDefaults(name), Wanted(name))
  {
    hide SameTable, AllocationDefaults, Wanted;
    if name == Mysql {
      MysqlWanted();
    } else if name == Postgres {
      PostgresWanted();
    } else {
      StoreWanted(name);
    }
  }

  /** Another owner binds the key: above the allocations, before the merge, or at an allocation
      whose turn came earlier. */
  ghost predicate InTheWay(before: ProjectConfig, after: ProjectConfig, name: ResourceName, earlier: seq<string>,
                           o: Owner, key: string)
  {
    exists other :: other != o && key in EnvOf(after, other)
      && (|| !other.AllocationOwner?
          || key in EnvOf(before, other)
          || EarlierTurn(other.resource, other.allocation, name, earlier))
  }

  /** Each of the keys is there already, bare or in its i-th form, or nothing is in the way of
      that form. */
  ghost predicate AllFree(before: ProjectConfig, after: ProjectConfig, name: ResourceName, earlier: seq<string>,
                          a: string, i: nat)
  {
    var o := AllocationOwner(ConfigKey(name), a);
    forall k :: k in Wanted(name) ==>
      || k in EnvOf(before, o)
      || KeyUnder(ConfigKey(name), a, i, k) in EnvOf(before, o)
      || !InTheWay(before, after, name, earlier, o, KeyUnder(ConfigKey(name), a, i, k))
  }

  /** The entries that were there are kept; of each key wanted that was not, the i-th form is
      there, with the template wanted unless it was there too; and nothing else is new. */
  ghost predicate Gains(was: EnvMap, now: EnvMap, r: string, a: string, i: nat, wanted: EnvMap) {
    && (forall key :: key in was ==> key in now && now[key] == was[key])
    && (forall k :: k in wanted && k !in was ==>
          var key := KeyUnder(r, a, i, k); key in now && (key !in was ==> now[key] == wanted[k]))
    && (forall key :: key in now && key !in was ==> exists k :: k in wanted && k !in was && key == KeyUnder(r, a, i, k))
  }

  /** What becomes of a listed allocation of a selected resource: it gains what is wanted for it
      in the first form in which all keys are free at its turn, which is where it is listed
      first. */
  lemma AllocationExact(before: ProjectConfig, after: ProjectConfig, selection: Selection, name: ResourceName, n: nat)
    returns (i: nat)
    requires InitMerged(before, after, selection) && name != Mailpit && IsSelected(selection, name)
    requires n < |Listed(selection, name)| && Listed(selection, name)[n] !in Listed(selection, name)[..n]
    ensures var listed := Listed(selection, name);
      var o := AllocationOwner(ConfigKey(name), listed[n]);
      && AllFree(before, after, name, listed[..n], listed[n], i)
      && (forall j: nat :: j < i ==> !AllFree(before, after, name, listed[..n], listed[n], j))
      && Gains(EnvOf(before, o), EnvOf(after, o), ConfigKey(name), listed[n], i, Wanted(name))
  {
    CompleteOf(before, after, selection, name, n);
    var listed := Listed(selection, name);
    var a, r, defaults := listed[n], ConfigKey(name), AllocationDefaults(name);
    var o := AllocationOwner(r, a);
    var ancestors, keys := AncestorKeys(after), KeysAtTurn(before, after, name, listed[..n]);
    hide InitMerged, ConfigKey, AllocationDefaults, Wanted, EnvOf, AncestorKeys, KeysAtTurn, Candidate,
      PrefixAvailable, MergedUnder, Gains, AllFree, IsSelected, Listed;
    i :|
      && FirstAvailable(r, a, EnvOf(before, o), ancestors, keys, defaults, i)
      && MergedUnder(EnvOf(before, o), EnvOf(after, o), Candidate(r, a, i), defaults);
    forall j: nat
      ensures PrefixAvailable(Candidate(r, a, j), EnvOf(before, o), ancestors, keys, defaults)
        <==> AllFree(before, after, name, listed[..n], a, j)
    {
      AvailableExact(before, after, name, a, listed[..n], j);
    }
    GainsUnder(before, after, name, a, i);
  }

  /** So the form is i where all keys are free in that form and not in an earlier one. */
  lemma AllocationGains(before: ProjectConfig, after: ProjectConfig, selection: Selection, name: ResourceName, n: nat,
                        i: nat)
    requires InitMerged(before, after, selection) && name != Mailpit && IsSelected(selection, name)
    requires n < |Listed(selection, name)| && Listed(selection, name)[n] !in Listed(selection, name)[..n]
    requires AllFree(before, after, name, Listed(selection, name)[..n], Listed(selection, name)[n], i)
    requires forall j: nat :: j < i ==>
      !AllFree(before, after, name, Listed(selection, name)[..n], Listed(selection, name)[n], j)
    ensures var a := Listed(selection, name)[n];
      var o := AllocationOwner(ConfigKey(name), a);
      Gains(EnvOf(before, o), EnvOf(after, o), ConfigKey(name), a, i, Wanted(name))
  {
    hide InitMerged, ConfigKey, Wanted, EnvOf, Gains, AllFree, IsSelected, Listed;
    var first := AllocationExact(before, after, selection, name, n);
    assert first == i;
  }

  /** A key is in use at a turn exactly if something is in its way. */
  lemma InUseAtTurn(before: ProjectConfig, after: ProjectConfig, name: ResourceName, a: string, earlier: seq<string>,
                    key: string)
    requires key !in EnvOf(before, AllocationOwner(ConfigKey(name), a)) && a !in earlier
    ensures key in AncestorKeys(after) || key in KeysAtTurn(before, after, name, earlier) <==>
      InTheWay(before, after, name, earlier, AllocationOwner(ConfigKey(name), a), key)
  {
    hide ConfigKey, EnvOf, AncestorKeys, KeysAtTurn;
    RootEnv(after);
    AncestorKeyOwned(after, key);
    KeyAtTurn(before, after, name, earlier, key);
    forall n | n != name ensures ConfigKey(n) != ConfigKey(name) {
      ConfigKeyInjective(n, name);
    }
    var o := AllocationOwner(ConfigKey(name), a);
    if other :|
      && other != o && key in EnvOf(after, other)
      && (|| !other.AllocationOwner?
          || key in EnvOf(before, other)
          || EarlierTurn(other.resource, other.allocation, name, earlier))
    {
      if other.AllocationOwner? {
        assert InUse(before, after, name, earlier, other.resource, other.allocation, key);
      }
    }
    if r, b :| InUse(before, after, name, earlier, r, b, key) {
      assert AllocationOwner(r, b) != o;
    }
  }

  lemma AvailableExact(before: ProjectConfig, after: ProjectConfig, name: ResourceName, a: string,
                       earlier: seq<string>, i: nat)
    requires a !in earlier
    ensures PrefixAvailable(Candidate(ConfigKey(name), a, i), EnvOf(before, AllocationOwner(ConfigKey(name), a)),
                            AncestorKeys(after), KeysAtTurn(before, after, name, earlier), AllocationDefaults(name))
      <==> AllFree(before, after, name, earlier, a, i)
  {
    WantedExact(name);
    hide ConfigKey, AllocationDefaults, Wanted, EnvOf, AncestorKeys, KeysAtTurn, Candidate, GeneratedKey, KeyUnder,
      InTheWay;
    var r, o := ConfigKey(name), AllocationOwner(ConfigKey(name), a);
    forall k ensures GeneratedKey(Candidate(r, a, i), k) == KeyUnder(r, a, i, k) {
      KeyUnderExact(r, a, i, k);
    }
    forall key | key !in EnvOf(before, o)
      ensures key in AncestorKeys(after) || key in KeysAtTurn(before, after, name, earlier) <==>
        InTheWay(before, after, name, earlier, o, key)
    {
      InUseAtTurn(before, after, name, a, earlier, key);
    }
    FreeByTable(AllocationDefaults(name), Wanted(name), EnvOf(before, o),
      AncestorKeys(after) + KeysAtTurn(before, after, name, earlier), Candidate(r, a, i));
  }

  /** Availability by the table of what is wanted. */
  lemma FreeByTable(defaults: seq<Default>, wanted: EnvMap, env: EnvMap, used: set<string>, prefix: Option<string>)
    requires SameTable(defaults, wanted)
    ensures (forall d :: 0 <= d < |defaults| ==>
               || defaults[d].key in env
               || GeneratedKey(prefix, defaults[d].key) in env
               || GeneratedKey(prefix, defaults[d].key) !in used)
      <==> forall k :: k in wanted ==>
             k in env || GeneratedKey(prefix, k) in env || GeneratedKey(prefix, k) !in used
  {
    hide GeneratedKey;
    forall k | k in wanted ensures exists d :: 0 <= d < |defaults| && defaults[d].key == k {
      var d :| 0 <= d < |defaults| && defaults[d] == Default(k, wanted[k]);
    }
  }

  lemma GainsUnder(before: ProjectConfig, after: ProjectConfig, name: ResourceName, a: string, i: nat)
    requires var o := AllocationOwner(ConfigKey(name), a);
      MergedUnder(EnvOf(before, o), EnvOf(after, o), Candidate(ConfigKey(name), a, i), AllocationDefaults(name))
    ensures var o := AllocationOwner(ConfigKey(name), a);
      Gains(EnvOf(before, o), EnvOf(after, o), ConfigKey(name), a, i, Wanted(name))
  {
    WantedExact(name);
    hide AllocationDefaults, Wanted, Candidate, GeneratedKey, KeyUnder, EnvOf, ConfigKey;
    var r, o := ConfigKey(name), AllocationOwner(ConfigKey(name), a);
    var was, now, defaults := EnvOf(before, o), EnvOf(after, o), AllocationDefaults(name);
    forall k ensures GeneratedKey(Candidate(r, a, i), k) == KeyUnder(r, a, i, k) {
      KeyUnderExact(r, a, i, k);
    }
    forall k | k in Wanted(name) && k !in was
      ensures KeyUnder(r, a, i, k) in now
      ensures KeyUnder(r, a, i, k) !in was ==> now[KeyUnder(r, a, i, k)] == Wanted(name)[k]
    {
      var d :| 0 <= d < |defaults| && defaults[d] == Default(k, Wanted(name)[k]);
      assert HasDefault(was, now, Candidate(r, a, i), defaults[d]);
    }
    forall key | key in now && key !in was
      ensures exists k :: k in Wanted(name) && k !in was && key == KeyUnder(r, a, i, k)
    {
      assert IsNewDefault(was, Candidate(r, a, i), defaults, key, now[key]);
    }
  }

  // ------------------------------------------------------------------
  // Where nothing else binds the keys
  // ------------------------------------------------------------------

  /** The owner has none of these keys before the merge, and nobody else has any after it. */
  ghost predicate BoundByNoOther(before: ProjectConfig, after: ProjectConfig, o: Owner, keys: set<string>) {
    forall k :: k in keys ==> k !in EnvOf(before, o) && forall other :: other != o ==> k !in EnvOf(after, other)
  }

  lemma BareGains(before: ProjectConfig, after: ProjectConfig, selection: Selection, name: ResourceName, a: string)
    requires InitMerged(before, after, selection)
    requires name != Mailpit && IsSelected(selection, name) && a in Listed(selection, name)
    requires BoundByNoOther(before, after, AllocationOwner(ConfigKey(name), a), Wanted(name).Keys)
    ensures var o := AllocationOwner(ConfigKey(name), a); EnvOf(after, o) == Wanted(name) + EnvOf(before, o)
  {
    var n := FirstListed(Listed(selection, name), a);
    hide InitMerged, ConfigKey, Wanted, EnvOf, Listed, IsSelected, AllFree, Gains, BoundByNoOther;
    BareFree(before, after, name, Listed(selection, name)[..n], a);
    AllocationGains(before, after, selection, name, n, 0);
    var o := AllocationOwner(ConfigKey(name), a);
    BareIs(EnvOf(before, o), EnvOf(after, o), ConfigKey(name), a, Wanted(name));
  }

  lemma BareFree(before: ProjectConfig, after: ProjectConfig, name: ResourceName, earlier: seq<string>, a: string)
    requires BoundByNoOther(before, after, AllocationOwner(ConfigKey(name), a), Wanted(name).Keys)
    ensures AllFree(before, after, name, earlier, a, 0)
  {
    hide ConfigKey, Wanted, EnvOf, EarlierTurn;
  }

  lemma BareIs(was: EnvMap, now: EnvMap, r: string, a: string, wanted: EnvMap)
    requires Gains(was, now, r, a, 0, wanted) && forall k :: k in wanted ==> k !in was
    ensures now == wanted + was
  {
    forall k ensures KeyUnder(r, a, 0, k) == k {}
    hide KeyUnder;
    Overlaid(was, now, wanted);
  }

  lemma Overlaid(was: EnvMap, now: EnvMap, table: EnvMap)
    requires forall k :: k in was ==> k in now && now[k] == was[k]
    requires forall k :: k in now && k !in was ==> k in table && now[k] == table[k]
    requires forall k :: k in table ==> k in now
    ensures now == table + was
  {
  }

  /** A MySQL allocation of a selection: its six entries, where nothing else binds their keys. */
  lemma MysqlMerged(before: ProjectConfig, after: ProjectConfig, selection: Selection, a: string)
    requires InitMerged(before, after, selection) && IsSelected(selection, Mysql) && a in Listed(selection, Mysql)
    requires BoundByNoOther(before, after, AllocationOwner("mysql", a),
      {"DB_CONNECTION", "DB_HOST", "DB_PORT", "DB_DATABASE", "DB_USERNAME", "DB_PASSWORD"})
    ensures EnvOf(after, AllocationOwner("mysql", a)) == EnvOf(before, AllocationOwner("mysql", a)) +
      map["DB_CONNECTION" := "mysql", "DB_HOST" := "${host}", "DB_PORT" := "${port}", "DB_DATABASE" := "${database}",
          "DB_USERNAME" := "${username}", "DB_PASSWORD" := "${password}"]
  {
    hide InitMerged, EnvOf;
    BareGains(before, after, selection, Mysql, a);
  }

  lemma PostgresMerged(before: ProjectConfig, after: ProjectConfig, selection: Selection, a: string)
    requires InitMerged(before, after, selection) && IsSelected(selection, Postgres) && a in Listed(selection, Postgres)
    requires BoundByNoOther(before, after, AllocationOwner("postgres", a),
      {"DB_CONNECTION", "DB_HOST", "DB_PORT", "DB_DATABASE", "DB_USERNAME", "DB_PASSWORD"})
    ensures EnvOf(after, AllocationOwner("postgres", a)) == EnvOf(before, AllocationOwner("postgres", a)) +
      map["DB_CONNECTION" := "pgsql", "DB_HOST" := "${host}", "DB_PORT" := "${port}", "DB_DATABASE" := "${database}",
          "DB_USERNAME" := "${username}", "DB_PASSWORD" := "${password}"]
  {
    hide InitMerged, EnvOf;
    BareGains(before, after, selection, Postgres, a);
  }

  lemma RedisMerged(before: ProjectConfig, after: ProjectConfig, selection: Selection, a: string)
    requires InitMerged(before, after, selection) && IsSelected(selection, Redis) && a in Listed(selection, Redis)
    requires BoundByNoOther(before, after, AllocationOwner("redis", a), {"REDIS_HOST", "REDIS_PORT", "REDIS_PREFIX"})
    ensures EnvOf(after, AllocationOwner("redis", a)) == EnvOf(before, AllocationOwner("redis", a)) +
      map["REDIS_HOST" := "${host}", "REDIS_PORT" := "${port}", "REDIS_PREFIX" := "${prefix}"]
  {
    hide InitMerged, EnvOf;
    BareGains(before, after, selection, Redis, a);
  }

  lemma RustfsMerged(before: ProjectConfig, after: ProjectConfig, selection: Selection, a: string)
    requires InitMerged(before, after, selection) && IsSelected(selection, Rustfs) && a in Listed(selection, Rustfs)
    requires BoundByNoOther(before, after, AllocationOwner("rustfs", a),
      {"AWS_ENDPOINT", "AWS_BUCKET", "AWS_ACCESS_KEY_ID", "AWS_SECRET_ACCESS_KEY"})
    ensures EnvOf(after, AllocationOwner("rustfs", a)) == EnvOf(before, AllocationOwner("rustfs", a)) +
      map["AWS_ENDPOINT" := "${endpoint}", "AWS_BUCKET" := "${bucket}", "AWS_ACCESS_KEY_ID" := "${access_key}",
          "AWS_SECRET_ACCESS_KEY" := "${secret_key}"]
  {
    hide InitMerged, EnvOf;
    BareGains(before, after, selection, Rustfs, a);
  }

  /** Mailpit's entries are those of the resource itself. */
  lemma MailpitMerged(before: ProjectConfig, after: ProjectConfig, selection: Selection)
    requires InitMerged(before, after, selection) && IsSelected(selection, Mailpit)
    requires BoundByNoOther(before, after, ResourceOwner("mailpit"), {"MAIL_MAILER", "MAIL_HOST", "MAIL_PORT"})
    ensures EnvOf(after, ResourceOwner("mailpit")) == EnvOf(before, ResourceOwner("mailpit")) +
      map["MAIL_MAILER" := "smtp", "MAIL_HOST" := "${smtp_host}", "MAIL_PORT" := "${smtp_port}"]
  {
    MailThere(before, after, selection);
    hide EnvOf, KeepsMeaning, ShapeValid, ChangesOnlySelected, StructurePresent, EachComplete, MailComplete,
      AddsFreshKeys;
    var o := ResourceOwner("mailpit");
    var was, now := EnvOf(before, o), EnvOf(after, o);
    assert Extends(was, now);
    forall k | k in now && k !in was ensures IsGenerated(None, MAILPIT_DEFAULTS, k, now[k]) {
      assert Added(before, after, o, k);
      assert Asked(selection, o, k, now[k]);
    }
    hide InitMerged, Extends;
    MailTable(was, now);
  }

  /** Key by key: a mail entry is added exactly where no root or resource entry has its key. */
  lemma MailpitExact(before: ProjectConfig, after: ProjectConfig, selection: Selection, k: string)
    requires InitMerged(before, after, selection) && IsSelected(selection, Mailpit)
    requires k in {"MAIL_MAILER", "MAIL_HOST", "MAIL_PORT"} && k !in EnvOf(before, ResourceOwner("mailpit"))
    ensures k in EnvOf(after, ResourceOwner("mailpit")) <==>
      forall o: Owner :: o != ResourceOwner("mailpit") && !o.AllocationOwner? ==> k !in EnvOf(after, o)
    ensures k in EnvOf(after, ResourceOwner("mailpit")) ==>
      EnvOf(after, ResourceOwner("mailpit"))[k] ==
        if k == "MAIL_MAILER" then "smtp" else if k == "MAIL_HOST" then "${smtp_host}" else "${smtp_port}"
  {
    hide InitMerged, EnvOf, AncestorKeys, IsSelected, IsGenerated, AddsFreshKeys;
    MailPromises(before, after, selection, k);
    RootEnv(after);
    AncestorKeyOwned(after, k);
    var o := ResourceOwner("mailpit");
    if k in EnvOf(after, o) {
      assert Added(before, after, o, k);
      MailDefault(k, EnvOf(after, o)[k]);
      FreshAbove(before, after, o, k);
    }
  }

  lemma FreshAbove(before: ProjectConfig, after: ProjectConfig, o: Owner, k: string)
    requires AddsFreshKeys(before, after) && Added(before, after, o, k) && o.ResourceOwner?
    ensures forall other: Owner :: other != o && !other.AllocationOwner? ==> k !in EnvOf(after, other)
  {
    hide EnvOf;
  }

  lemma MailPromises(before: ProjectConfig, after: ProjectConfig, selection: Selection, k: string)
    requires InitMerged(before, after, selection) && IsSelected(selection, Mailpit)
    requires k in {"MAIL_MAILER", "MAIL_HOST", "MAIL_PORT"}
    ensures k in AncestorKeys(after) && AddsFreshKeys(before, after)
    ensures Added(before, after, ResourceOwner("mailpit"), k) ==>
      IsGenerated(None, MAILPIT_DEFAULTS, k, EnvOf(after, ResourceOwner("mailpit"))[k])
  {
    hide EnvOf, KeepsMeaning, ShapeValid, ChangesOnlySelected, StructurePresent, EachComplete, Preserved,
      AncestorKeys, AddsFreshKeys, IsGenerated;
    assert k in {MAILPIT_DEFAULTS[0].key, MAILPIT_DEFAULTS[1].key, MAILPIT_DEFAULTS[2].key};
    var o := ResourceOwner("mailpit");
    assert Added(before, after, o, k) ==> Asked(selection, o, k, EnvOf(after, o)[k]);
  }

  /** The mail keys are bound by the resource, as nobody else binds them. */
  lemma MailThere(before: ProjectConfig, after: ProjectConfig, selection: Selection)
    requires InitMerged(before, after, selection) && IsSelected(selection, Mailpit)
    requires BoundByNoOther(before, after, ResourceOwner("mailpit"), {"MAIL_MAILER", "MAIL_HOST", "MAIL_PORT"})
    ensures forall k :: k in {"MAIL_MAILER", "MAIL_HOST", "MAIL_PORT"} ==> k in EnvOf(after, ResourceOwner("mailpit"))
  {
    hide EnvOf, KeepsMeaning, ShapeValid, ChangesOnlySelected, StructurePresent, EachComplete, AddsFreshKeys,
      Preserved, AddsOnlyAsked;
    assert MailComplete(after);
    hide InitMerged, AncestorKeys;
    RootEnv(after);
    forall k | k in {"MAIL_MAILER", "MAIL_HOST", "MAIL_PORT"} ensures k in EnvOf(after, ResourceOwner("mailpit")) {
      AncestorKeyOwned(after, k);
      assert k in {MAILPIT_DEFAULTS[0].key, MAILPIT_DEFAULTS[1].key, MAILPIT_DEFAULTS[2].key};
    }
  }

  lemma MailTable(was: EnvMap, now: EnvMap)
    requires forall k :: k in was ==> k in now && now[k] == was[k]
    requires forall k :: k in now && k !in was ==> IsGenerated(None, MAILPIT_DEFAULTS, k, now[k])
    requires forall k :: k in {"MAIL_MAILER", "MAIL_HOST", "MAIL_PORT"} ==> k in now && k !in was
    ensures now == was + map["MAIL_MAILER" := "smtp", "MAIL_HOST" := "${smtp_host}", "MAIL_PORT" := "${smtp_port}"]
  {
    var table: EnvMap := map["MAIL_MAILER" := "smtp", "MAIL_HOST" := "${smtp_host}", "MAIL_PORT" := "${smtp_port}"];
    forall k | k in now && k !in was ensures k in table && now[k] == table[k] {
      MailDefault(k, now[k]);
    }
    hide IsGenerated;
    Overlaid(was, now, table);
    assert table + was == was + table;
  }

  lemma MailDefault(key: string, template: string)
    requires IsGenerated(None, MAILPIT_DEFAULTS, key, template)
    ensures (key == "MAIL_MAILER" && template == "smtp")
      || (key == "MAIL_HOST" && template == "${smtp_host}") || (key == "MAIL_PORT" && template == "${smtp_port}")
  {
  }

  /** The root entries: those asked for, and over them whatever was there. */
  lemma RootMerged(before: ProjectConfig, after: ProjectConfig, selection: Selection)
    requires InitMerged(before, after, selection)
    ensures after.env ==
      (if selection.includeAppUrl then map["APP_URL" := "${project_url}"] else map[])
      + (if selection.includeViteTls
         then map["VITE_DEV_SERVER_CERT" := "${tls_cert}", "VITE_DEV_SERVER_KEY" := "${tls_key}"] else map[])
      + before.env
  {
    RootEnv(before);
    RootEnv(after);
    hide EnvOf, KeepsMeaning, ShapeValid, ChangesOnlySelected, StructurePresent, EachComplete, MailComplete,
      AddsFreshKeys;
    assert Extends(EnvOf(before, RootOwner), EnvOf(after, RootOwner));
    forall k | k in after.env && k !in before.env ensures RootAsked(selection, k, after.env[k]) {
      assert Added(before, after, RootOwner, k);
    }
    hide InitMerged, Extends;
    RootTable(selection, before.env, after.env);
  }

  lemma RootTable(selection: Selection, was: EnvMap, now: EnvMap)
    requires forall k :: k in was ==> k in now && now[k] == was[k]
    requires forall k :: k in now && k !in was ==> RootAsked(selection, k, now[k])
    requires selection.includeAppUrl ==> "APP_URL" in now
    requires selection.includeViteTls ==> "VITE_DEV_SERVER_CERT" in now && "VITE_DEV_SERVER_KEY" in now
    ensures now ==
      (if selection.includeAppUrl then map["APP_URL" := "${project_url}"] else map[])
      + (if selection.includeViteTls
         then map["VITE_DEV_SERVER_CERT" := "${tls_cert}", "VITE_DEV_SERVER_KEY" := "${tls_key}"] else map[])
      + was
  {
    var url: EnvMap := if selection.includeAppUrl then map["APP_URL" := "${project_url}"] else map[];
    var tls: EnvMap := if selection.includeViteTls
      then map["VITE_DEV_SERVER_CERT" := "${tls_cert}", "VITE_DEV_SERVER_KEY" := "${tls_key}"] else map[];
    assert |"APP_URL"| == 7 && |"VITE_DEV_SERVER_CERT"| == 20 && |"VITE_DEV_SERVER_KEY"| == 19;
    Overlaid(was, now, url + tls);
  }

  // ------------------------------------------------------------------
  // What the entries render to
  // ------------------------------------------------------------------

  lemma Braces()
    ensures "${" + "host" + "}" == "${host}" && "${" + "port" + "}" == "${port}"
    ensures "${" + "database" + "}" == "${database}" && "${" + "username" + "}" == "${username}"
    ensures "${" + "password" + "}" == "${password}" && "${" + "prefix" + "}" == "${prefix}"
    ensures "${" + "endpoint" + "}" == "${endpoint}" && "${" + "bucket" + "}" == "${bucket}"
    ensures "${" + "access_key" + "}" == "${access_key}" && "${" + "secret_key" + "}" == "${secret_key}"
    ensures "${" + "smtp_host" + "}" == "${smtp_host}" && "${" + "smtp_port" + "}" == "${smtp_port}"
  {
  }

  /** An entry of one placeholder that no deeper owner overrides renders to the value offered. */
  lemma EntryRenders(config: ProjectConfig, context: ProjectContext, o: Owner, key: string, name: string)
    requires RenderConfig(config, context).Ok? && '}' !in name
    requires key in EnvOf(config, o) && EnvOf(config, o)[key] == "${" + name + "}"
    requires forall other :: Deeper(other, o) ==> key !in EnvOf(config, other)
    requires config.serve || name !in {"project_url", "tls_ca", "tls_cert", "tls_key"}
    ensures key in RenderConfig(config, context).value && Offered(context, o, name).Some?
    ensures RenderConfig(config, context).value[key] == Offered(context, o, name).value
  {
    hide RenderConfig, EnvOf, Offered, UsesServing, Deeper;
    assert DoubleDollars("") + "${" + name + "}" + DoubleDollars("") == "${" + name + "}";
    assert DoubleDollars("") + "${" + name + "}" + "" == "${" + name + "}";
    PlaceholderServes("", name, "");
    assert !UsesServing("") by {
      EscapeRoundTrip("", "", Registry(map[], map[]), Project, map[]);
    }
    assert Wins(config, o, key);
    PlaceholderEndToEnd(config, context, o, key, "", name, "");
    assert "" + Offered(context, o, name).value + "" == Offered(context, o, name).value;
  }

  lemma PlainRenders(config: ProjectConfig, context: ProjectContext, o: Owner, key: string, text: string)
    requires RenderConfig(config, context).Ok? && '$' !in text
    requires key in EnvOf(config, o) && EnvOf(config, o)[key] == text
    requires forall other :: Deeper(other, o) ==> key !in EnvOf(config, other)
    ensures key in RenderConfig(config, context).value && RenderConfig(config, context).value[key] == text
  {
    hide RenderConfig, EnvOf, UsesServing, Deeper;
    NoDollars(text);
    EscapeRoundTrip(text, "", Registry(map[], map[]), Project, map[]);
    assert Wins(config, o, key);
    PlainEndToEnd(config, context, o, key, text);
  }

  lemma {:induction false} NoDollars(s: string)
    requires '$' !in s
    ensures DoubleDollars(s) == s
  {
    if s != "" {
      NoDollars(s[1..]);
      assert s == [s[0]] + s[1..];
    }
  }

  /** What the templates of an allocation read: the values of its own context come first. */
  lemma AllocationOffers(context: ProjectContext, r: string, a: string, name: string)
    requires r in context.resources && a in context.resources[r].allocations
    requires name in context.resources[r].allocations[a].values
    requires name !in {"project_url", "tls_ca", "tls_cert", "tls_key"}
    ensures Offered(context, AllocationOwner(r, a), name) == Some(context.resources[r].allocations[a].values[name])
  {
  }

  lemma AllocationRenders(config: ProjectConfig, context: ProjectContext, r: string, a: string, key: string,
                          name: string)
    requires RenderConfig(config, context).Ok? && '}' !in name
    requires r in context.resources && a in context.resources[r].allocations
    requires name in context.resources[r].allocations[a].values
    requires name !in {"project_url", "tls_ca", "tls_cert", "tls_key"}
    requires key in EnvOf(config, AllocationOwner(r, a))
    requires EnvOf(config, AllocationOwner(r, a))[key] == "${" + name + "}"
    ensures key in RenderConfig(config, context).value
    ensures RenderConfig(config, context).value[key] == context.resources[r].allocations[a].values[name]
  {
    hide RenderConfig, EnvOf, Offered;
    AllocationOffers(context, r, a, name);
    EntryRenders(config, context, AllocationOwner(r, a), key, name);
  }

  /** The rendered environment holds the values of a database allocation. */
  predicate FindsDatabase(env: EnvMap, connection: string, values: EnvMap)
    requires {"host", "port", "database", "username", "password"} <= values.Keys
  {
    && {"DB_CONNECTION", "DB_HOST", "DB_PORT", "DB_DATABASE", "DB_USERNAME", "DB_PASSWORD"} <= env.Keys
    && env["DB_CONNECTION"] == connection
    && env["DB_HOST"] == values["host"] && env["DB_PORT"] == values["port"]
    && env["DB_DATABASE"] == values["database"]
    && env["DB_USERNAME"] == values["username"] && env["DB_PASSWORD"] == values["password"]
  }

  lemma SqlRenders(config: ProjectConfig, context: ProjectContext, r: string, a: string, was: EnvMap,
                   connection: string)
    requires RenderConfig(config, context).Ok? && '$' !in connection
    requires r in context.resources && a in context.resources[r].allocations
    requires {"host", "port", "database", "username", "password"} <= context.resources[r].allocations[a].values.Keys
    requires EnvOf(config, AllocationOwner(r, a)) == was +
      map["DB_CONNECTION" := connection, "DB_HOST" := "${host}", "DB_PORT" := "${port}",
          "DB_DATABASE" := "${database}", "DB_USERNAME" := "${username}", "DB_PASSWORD" := "${password}"]
    ensures FindsDatabase(RenderConfig(config, context).value, connection, context.resources[r].allocations[a].values)
  {
    hide RenderConfig, EnvOf;
    Braces();
    PlainRenders(config, context, AllocationOwner(r, a), "DB_CONNECTION", connection);
    AllocationRenders(config, context, r, a, "DB_HOST", "host");
    AllocationRenders(config, context, r, a, "DB_PORT", "port");
    AllocationRenders(config, context, r, a, "DB_DATABASE", "database");
    AllocationRenders(config, context, r, a, "DB_USERNAME", "username");
    AllocationRenders(config, context, r, a, "DB_PASSWORD", "password");
  }

  /** End to end: where the merged configuration renders, the application finds host, port and
      the rest of the allocation's context under the keys for them. */
  lemma MysqlRenders(before: ProjectConfig, after: ProjectConfig, selection: Selection, a: string,
                     context: ProjectContext)
    requires InitMerged(before, after, selection) && IsSelected(selection, Mysql) && a in Listed(selection, Mysql)
    requires BoundByNoOther(before, after, AllocationOwner("mysql", a),
      {"DB_CONNECTION", "DB_HOST", "DB_PORT", "DB_DATABASE", "DB_USERNAME", "DB_PASSWORD"})
    requires RenderConfig(after, context).Ok?
    requires "mysql" in context.resources && a in context.resources["mysql"].allocations
    requires {"host", "port", "database", "username", "password"}
      <= context.resources["mysql"].allocations[a].values.Keys
    ensures
      FindsDatabase(RenderConfig(after, context).value, "mysql", context.resources["mysql"].allocations[a].values)
  {
    hide InitMerged, RenderConfig, EnvOf, BoundByNoOther, IsSelected, Listed, FindsDatabase;
    MysqlMerged(before, after, selection, a);
    SqlRenders(after, context, "mysql", a, EnvOf(before, AllocationOwner("mysql", a)), "mysql");
  }

  lemma PostgresRenders(before: ProjectConfig, after: ProjectConfig, selection: Selection, a: string,
                        context: ProjectContext)
    requires InitMerged(before, after, selection) && IsSelected(selection, Postgres) && a in Listed(selection, Postgres)
    requires BoundByNoOther(before, after, AllocationOwner("postgres", a),
      {"DB_CONNECTION", "DB_HOST", "DB_PORT", "DB_DATABASE", "DB_USERNAME", "DB_PASSWORD"})
    requires RenderConfig(after, context).Ok?
    requires "postgres" in context.resources && a in context.resources["postgres"].allocations
    requires {"host", "port", "database", "username", "password"}
      <= context.resources["postgres"].allocations[a].values.Keys
    ensures
      FindsDatabase(RenderConfig(after, context).value, "pgsql", context.resources["postgres"].allocations[a].values)
  {
    hide InitMerged, RenderConfig, EnvOf, BoundByNoOther, IsSelected, Listed, FindsDatabase;
    PostgresMerged(before, after, selection, a);
    SqlRenders(after, context, "postgres", a, EnvOf(before, AllocationOwner("postgres", a)), "pgsql");
  }

  lemma RedisRenders(before: ProjectConfig, after: ProjectConfig, selection: Selection, a: string,
                     context: ProjectContext)
    requires InitMerged(before, after, selection) && IsSelected(selection, Redis) && a in Listed(selection, Redis)
    requires BoundByNoOther(before, after, AllocationOwner("redis", a), {"REDIS_HOST", "REDIS_PORT", "REDIS_PREFIX"})
    requires RenderConfig(after, context).Ok?
    requires "redis" in context.resources && a in context.resources["redis"].allocations
    requires {"host", "port", "prefix"} <= context.resources["redis"].allocations[a].values.Keys
    ensures var env, values := RenderConfig(after, context).value, context.resources["redis"].allocations[a].values;
      && {"REDIS_HOST", "REDIS_PORT", "REDIS_PREFIX"} <= env.Keys
      && env["REDIS_HOST"] == values["host"] && env["REDIS_PORT"] == values["port"]
      && env["REDIS_PREFIX"] == values["prefix"]
  {
    hide InitMerged, RenderConfig, EnvOf, BoundByNoOther, IsSelected, Listed;
    RedisMerged(before, after, selection, a);
    Braces();
    AllocationRenders(after, context, "redis", a, "REDIS_HOST", "host");
    AllocationRenders(after, context, "redis", a, "REDIS_PORT", "port");
    AllocationRenders(after, context, "redis", a, "REDIS_PREFIX", "prefix");
  }

  lemma RustfsRenders(before: ProjectConfig, after: ProjectConfig, selection: Selection, a: string,
                      context: ProjectContext)
    requires InitMerged(before, after, selection) && IsSelected(selection, Rustfs) && a in Listed(selection, Rustfs)
    requires BoundByNoOther(before, after, AllocationOwner("rustfs", a),
      {"AWS_ENDPOINT", "AWS_BUCKET", "AWS_ACCESS_KEY_ID", "AWS_SECRET_ACCESS_KEY"})
    requires RenderConfig(after, context).Ok?
    requires "rustfs" in context.resources && a in context.resources["rustfs"].allocations
    requires {"endpoint", "bucket", "access_key", "secret_key"}
      <= context.resources["rustfs"].allocations[a].values.Keys
    ensures var env, values := RenderConfig(after, context).value, context.resources["rustfs"].allocations[a].values;
      && {"AWS_ENDPOINT", "AWS_BUCKET", "AWS_ACCESS_KEY_ID", "AWS_SECRET_ACCESS_KEY"} <= env.Keys
      && env["AWS_ENDPOINT"] == values["endpoint"] && env["AWS_BUCKET"] == values["bucket"]
      && env["AWS_ACCESS_KEY_ID"] == values["access_key"] && env["AWS_SECRET_ACCESS_KEY"] == values["secret_key"]
  {
    hide InitMerged, RenderConfig, EnvOf, BoundByNoOther, IsSelected, Listed;
    RustfsMerged(before, after, selection, a);
    Braces();
    AllocationRenders(after, context, "rustfs", a, "AWS_ENDPOINT", "endpoint");
    AllocationRenders(after, context, "rustfs", a, "AWS_BUCKET", "bucket");
    AllocationRenders(after, context, "rustfs", a, "AWS_ACCESS_KEY_ID", "access_key");
    AllocationRenders(after, context, "rustfs", a, "AWS_SECRET_ACCESS_KEY", "secret_key");
  }

  lemma MailpitRenders(before: ProjectConfig, after: ProjectConfig, selection: Selection, context: ProjectContext)
    requires InitMerged(before, after, selection) && IsSelected(selection, Mailpit)
    requires BoundByNoOther(before, after, ResourceOwner("mailpit"), {"MAIL_MAILER", "MAIL_HOST", "MAIL_PORT"})
    requires RenderConfig(after, context).Ok?
    requires "mailpit" in context.resources && {"smtp_host", "smtp_port"} <= context.resources["mailpit"].values.Keys
    ensures var env, values := RenderConfig(after, context).value, context.resources["mailpit"].values;
      && {"MAIL_MAILER", "MAIL_HOST", "MAIL_PORT"} <= env.Keys
      && env["MAIL_MAILER"] == "smtp"
      && env["MAIL_HOST"] == values["smtp_host"] && env["MAIL_PORT"] == values["smtp_port"]
  {
    hide InitMerged, RenderConfig, EnvOf, IsSelected;
    var o := ResourceOwner("mailpit");
    MailpitMerged(before, after, selection);
    Braces();
    assert Offered(context, o, "smtp_host") == Some(context.resources["mailpit"].values["smtp_host"]);
    assert Offered(context, o, "smtp_port") == Some(context.resources["mailpit"].values["smtp_port"]);
    hide Offered;
    PlainRenders(after, context, o, "MAIL_MAILER", "smtp");
    EntryRenders(after, context, o, "MAIL_HOST", "smtp_host");
    EntryRenders(after, context, o, "MAIL_PORT", "smtp_port");
  }

  lemma RootEntries(before: ProjectConfig, after: ProjectConfig, selection: Selection)
    requires InitMerged(before, after, selection)
    ensures var env := EnvOf(after, RootOwner);
      && (selection.includeAppUrl && "APP_URL" !in EnvOf(before, RootOwner) ==>
            "APP_URL" in env && env["APP_URL"] == "${project_url}")
      && (selection.includeViteTls && "VITE_DEV_SERVER_CERT" !in EnvOf(before, RootOwner) ==>
            "VITE_DEV_SERVER_CERT" in env && env["VITE_DEV_SERVER_CERT"] == "${tls_cert}")
      && (selection.includeViteTls && "VITE_DEV_SERVER_KEY" !in EnvOf(before, RootOwner) ==>
            "VITE_DEV_SERVER_KEY" in env && env["VITE_DEV_SERVER_KEY"] == "${tls_key}")
  {
    hide InitMerged, EnvOf;
    RootMerged(before, after, selection);
    RootEnv(before);
    RootEnv(after);
  }

  /** The root entries of a project that serves, where it had none such and nobody else binds
      them: its address, and the paths of its certificate and key. */
  lemma AppUrlRenders(before: ProjectConfig, after: ProjectConfig, selection: Selection, context: ProjectContext)
    requires InitMerged(before, after, selection) && RenderConfig(after, context).Ok? && after.serve
    requires selection.includeAppUrl && BoundByNoOther(before, after, RootOwner, {"APP_URL"})
    ensures "APP_URL" in RenderConfig(after, context).value
    ensures RenderConfig(after, context).value["APP_URL"] == "https://" + context.primaryHostname
  {
    hide InitMerged, RenderConfig, EnvOf;
    RootEntries(before, after, selection);
    assert "${" + "project_url" + "}" == "${project_url}";
    RootOffers(context);
    hide Offered;
    EntryRenders(after, context, RootOwner, "APP_URL", "project_url");
  }

  lemma RootOffers(context: ProjectContext)
    ensures Offered(context, RootOwner, "project_url").Some? ==>
      Offered(context, RootOwner, "project_url").value == "https://" + context.primaryHostname
    ensures Offered(context, RootOwner, "tls_cert").Some? ==>
      Offered(context, RootOwner, "tls_cert").value == context.tlsCertPath
    ensures Offered(context, RootOwner, "tls_key").Some? ==>
      Offered(context, RootOwner, "tls_key").value == context.tlsKeyPath
  {
  }

  lemma ViteTlsRenders(before: ProjectConfig, after: ProjectConfig, selection: Selection, context: ProjectContext)
    requires InitMerged(before, after, selection) && RenderConfig(after, context).Ok? && after.serve
    requires selection.includeViteTls
    requires BoundByNoOther(before, after, RootOwner, {"VITE_DEV_SERVER_CERT", "VITE_DEV_SERVER_KEY"})
    ensures {"VITE_DEV_SERVER_CERT", "VITE_DEV_SERVER_KEY"} <= RenderConfig(after, context).value.Keys
    ensures RenderConfig(after, context).value["VITE_DEV_SERVER_CERT"] == context.tlsCertPath
    ensures RenderConfig(after, context).value["VITE_DEV_SERVER_KEY"] == context.tlsKeyPath
  {
    hide InitMerged, RenderConfig, EnvOf;
    RootEntries(before, after, selection);
    assert "${" + "tls_cert" + "}" == "${tls_cert}" && "${" + "tls_key" + "}" == "${tls_key}";
    RootOffers(context);
    hide Offered;
    EntryRenders(after, context, RootOwner, "VITE_DEV_SERVER_CERT", "tls_cert");
    EntryRenders(after, context, RootOwner, "VITE_DEV_SERVER_KEY", "tls_key");
  }

  // ------------------------------------------------------------------
  // Two databases
  // ------------------------------------------------------------------

  /** An allocation of the same name for each of two databases that want the same keys. */
  function TwoDatabases(): Selection {
    Selection("8.4", None, false, false,
              map[Mysql := ResourceSelection(true, "8.0", ["app"]), Postgres := ResourceSelection(true, "17", ["app"])])
  }

  lemma TwoListed()
    ensures forall n :: IsSelected(TwoDatabases(), n) <==> n == Mysql || n == Postgres
    ensures Listed(TwoDatabases(), Mysql) == ["app"] == Listed(TwoDatabases(), Postgres)
    ensures forall n :: n != Mysql && n != Postgres ==> Listed(TwoDatabases(), n) == []
    ensures !TwoDatabases().includeAppUrl && !TwoDatabases().includeViteTls
  {
  }

  /** The selection asks for nothing at other owners. */
  lemma TwoAsked(o: Owner)
    requires o != AllocationOwner("mysql", "app") && o != AllocationOwner("postgres", "app")
    ensures forall k, template :: !Asked(TwoDatabases(), o, k, template)
  {
    TwoListed();
    hide TwoDatabases, IsGenerated, IsSelected, AllocationDefaults, Candidate;
    assert Listed(TwoDatabases(), Mysql) == ["app"] == Listed(TwoDatabases(), Postgres);
    if o.AllocationOwner? {
      forall n | IsSelected(TwoDatabases(), n) && ConfigKey(n) == o.resource ensures o.allocation != "app" {
      }
    }
  }

  lemma OnlyAsked(before: ProjectConfig, after: ProjectConfig, selection: Selection)
    requires InitMerged(before, after, selection)
    ensures Preserved(before, after) && AddsOnlyAsked(before, after, selection)
  {
    hide Preserved, AddsFreshKeys, KeepsMeaning, ShapeValid, AddsOnlyAsked, ChangesOnlySelected, StructurePresent,
      MailComplete, EachComplete;
  }

  /** Merged into an empty project, they are the only owners of entries. */
  lemma TwoOwners(after: ProjectConfig, o: Owner)
    requires InitMerged(EmptyProject(), after, TwoDatabases())
    requires o != AllocationOwner("mysql", "app") && o != AllocationOwner("postgres", "app")
    ensures EnvOf(after, o) == map[]
  {
    hide InitMerged, TwoDatabases, EmptyProject, EnvOf, Preserved, AddsOnlyAsked, Asked;
    OnlyAsked(EmptyProject(), after, TwoDatabases());
    TwoAsked(o);
    NothingAsked(EmptyProject(), after, TwoDatabases(), o);
    EmptyEnv(o);
  }

  /** The first gets the bare keys, and the second those with its name before them. */
  lemma TwoDatabasesMerged(after: ProjectConfig)
    requires InitMerged(EmptyProject(), after, TwoDatabases())
    ensures EnvOf(after, AllocationOwner("mysql", "app")) ==
      map["DB_CONNECTION" := "mysql", "DB_HOST" := "${host}", "DB_PORT" := "${port}", "DB_DATABASE" := "${database}",
          "DB_USERNAME" := "${username}", "DB_PASSWORD" := "${password}"]
    ensures EnvOf(after, AllocationOwner("postgres", "app")) ==
      map["APP_DB_CONNECTION" := "pgsql", "APP_DB_HOST" := "${host}", "APP_DB_PORT" := "${port}",
          "APP_DB_DATABASE" := "${database}", "APP_DB_USERNAME" := "${username}", "APP_DB_PASSWORD" := "${password}"]
  {
    hide InitMerged, EnvOf;
    FirstDatabase(after);
    SecondDatabase(after);
  }

  lemma EmptyEnv(o: Owner)
    ensures EnvOf(EmptyProject(), o) == map[]
  {
  }

  lemma FirstDatabase(after: ProjectConfig)
    requires InitMerged(EmptyProject(), after, TwoDatabases())
    ensures EnvOf(after, AllocationOwner("mysql", "app")) == Wanted(Mysql)
  {
    hide InitMerged, EnvOf, TwoDatabases, EmptyProject, Wanted, IsSelected, Listed, EarlierTurn, KeyUnder, Gains,
      InTheWay;
    var o := AllocationOwner("mysql", "app");
    TwoListed();
    EmptyEnv(o);
    forall key ensures !InTheWay(EmptyProject(), after, Mysql, [], o, key) {
      NothingInFirstWay(after, key);
    }
    assert Listed(TwoDatabases(), Mysql)[..0] == [];
    AllocationGains(EmptyProject(), after, TwoDatabases(), Mysql, 0, 0);
    BareIs(map[], EnvOf(after, o), "mysql", "app", Wanted(Mysql));
  }

  lemma NothingInFirstWay(after: ProjectConfig, key: string)
    requires InitMerged(EmptyProject(), after, TwoDatabases())
    ensures !InTheWay(EmptyProject(), after, Mysql, [], AllocationOwner("mysql", "app"), key)
  {
    assert EnvOf(EmptyProject(), AllocationOwner("postgres", "app")) == map[];
    assert !EarlierTurn("postgres", "app", Mysql, []);
    hide InitMerged, EnvOf, EmptyProject, TwoDatabases, EarlierTurn;
    forall other | other != AllocationOwner("mysql", "app") && other != AllocationOwner("postgres", "app")
      ensures EnvOf(after, other) == map[]
    {
      TwoOwners(after, other);
    }
  }

  /** The keys of the second database. */
  function AppWanted(): EnvMap {
    map["APP_DB_CONNECTION" := "pgsql", "APP_DB_HOST" := "${host}", "APP_DB_PORT" := "${port}",
        "APP_DB_DATABASE" := "${database}", "APP_DB_USERNAME" := "${username}", "APP_DB_PASSWORD" := "${password}"]
  }

  lemma SecondDatabase(after: ProjectConfig)
    requires InitMerged(EmptyProject(), after, TwoDatabases())
    ensures EnvOf(after, AllocationOwner("postgres", "app")) == AppWanted()
  {
    hide InitMerged, EnvOf, TwoDatabases, EmptyProject, IsSelected, Listed, Gains, InTheWay, Wanted, AppWanted,
      AllFree, KeyUnder;
    var o := AllocationOwner("postgres", "app");
    TwoListed();
    FirstDatabase(after);
    EmptyEnv(o);
    assert Listed(TwoDatabases(), Postgres)[..0] == [];
    SecondTaken(after);
    SecondFree(after);
    AllocationGains(EmptyProject(), after, TwoDatabases(), Postgres, 0, 1);
    PrefixedIs(EnvOf(after, o));
  }

  lemma SecondTaken(after: ProjectConfig)
    requires EnvOf(after, AllocationOwner("mysql", "app")) == Wanted(Mysql)
    ensures !AllFree(EmptyProject(), after, Postgres, [], "app", 0)
  {
    var o, first := AllocationOwner("postgres", "app"), AllocationOwner("mysql", "app");
    assert EarlierTurn("mysql", "app", Postgres, []) by {
      assert Turn(Mysql) < Turn(Postgres) && ConfigKey(Mysql) == "mysql";
    }
    assert EnvOf(EmptyProject(), o) == map[];
    hide EarlierTurn, EnvOf, EmptyProject;
    assert "DB_HOST" in Wanted(Postgres) && "DB_HOST" in Wanted(Mysql) && first != o;
    assert KeyUnder("postgres", "app", 0, "DB_HOST") == "DB_HOST";
    assert InTheWay(EmptyProject(), after, Postgres, [], o, "DB_HOST");
  }

  lemma AppPrefix(k: string)
    ensures KeyUnder("postgres", "app", 1, k) == "APP_" + k
  {
    assert AllocationEnvPrefix("app") == "APP";
    assert "APP" + "_" == "APP_";
  }

  lemma SecondFree(after: ProjectConfig)
    requires InitMerged(EmptyProject(), after, TwoDatabases())
    requires EnvOf(after, AllocationOwner("mysql", "app")) == Wanted(Mysql)
    ensures AllFree(EmptyProject(), after, Postgres, [], "app", 1)
  {
    hide InitMerged, EnvOf, EmptyProject, TwoDatabases, EarlierTurn, KeyUnder, Wanted;
    var o := AllocationOwner("postgres", "app");
    EmptyEnv(o);
    forall other | other != AllocationOwner("mysql", "app") && other != o ensures EnvOf(after, other) == map[] {
      TwoOwners(after, other);
    }
    forall k ensures KeyUnder("postgres", "app", 1, k) !in Wanted(Mysql) {
      AppKeyNotWanted(k);
    }
  }

  lemma AppKeyNotWanted(k: string)
    ensures KeyUnder("postgres", "app", 1, k) !in Wanted(Mysql)
  {
    hide KeyUnder;
    AppPrefix(k);
    assert ("APP_" + k)[0] == 'A';
  }

  lemma PrefixedIs(now: EnvMap)
    requires Gains(map[], now, "postgres", "app", 1, Wanted(Postgres))
    ensures now == AppWanted()
  {
    hide KeyUnder, Wanted, AppWanted;
    forall k ensures KeyUnder("postgres", "app", 1, k) == "APP_" + k {
      AppPrefix(k);
    }
    forall key | key in now ensures key in AppWanted() && now[key] == AppWanted()[key] {
      var k :| k in Wanted(Postgres) && key == KeyUnder("postgres", "app", 1, k);
      WithApp(k);
    }
    forall key | key in AppWanted() ensures key in now {
      WithoutApp(key);
    }
  }

  lemma WithApp(k: string)
    requires k in Wanted(Postgres)
    ensures "APP_" + k in AppWanted() && AppWanted()["APP_" + k] == Wanted(Postgres)[k]
  {
    assert "APP_" + "DB_CONNECTION" == "APP_DB_CONNECTION" && "APP_" + "DB_HOST" == "APP_DB_HOST";
    assert "APP_" + "DB_PORT" == "APP_DB_PORT" && "APP_" + "DB_DATABASE" == "APP_DB_DATABASE";
    assert "APP_" + "DB_USERNAME" == "APP_DB_USERNAME" && "APP_" + "DB_PASSWORD" == "APP_DB_PASSWORD";
  }

  lemma WithoutApp(key: string)
    requires key in AppWanted()
    ensures |key| > 4 && key == "APP_" + key[4..] && key[4..] in Wanted(Postgres)
  {
    assert "APP_DB_CONNECTION"[4..] == "DB_CONNECTION" && "APP_DB_HOST"[4..] == "DB_HOST";
    assert "APP_DB_PORT"[4..] == "DB_PORT" && "APP_DB_DATABASE"[4..] == "DB_DATABASE";
    assert "APP_DB_USERNAME"[4..] == "DB_USERNAME" && "APP_DB_PASSWORD"[4..] == "DB_PASSWORD";
  }
}
