/**
 * fetch_neo4j_object_counts: the per-tenant graph results (each tenant's
 * Application nodes, with the live-object count of each) folded into one
 * table from application name to its total count over all tenants.
 */
module ObjectCounts {
  import opened Outcomes

  /** The answer of the per-application count query: no record, or the count. */
  datatype CountResult = NoRecord | Counted(cnt: nat)

  /** One Application node of a tenant: its Name property and its count result. */
  datatype AppEntry = AppEntry(name: Option<string>, count: CountResult)

  /** The Application list of one tenant database, in the order it is returned. */
  type Tenant = seq<AppEntry>

  /** `if not app_name: continue`: a null or empty name is skipped. */
  predicate IsCounted(e: AppEntry)
  {
    e.name.Some? && e.name.value != ""
  }

  /** `result["cnt"] if result else 0`. */
  function CountOf(c: CountResult): nat
  {
    match c
    case NoRecord => 0
    case Counted(n) => n
  }

  /** What one Application entry adds to the total of `name`. */
  function Contribution(e: AppEntry, name: string): nat
  {
    if IsCounted(e) && e.name.value == name then CountOf(e.count) else 0
  }

  /** The sum of the contributions of a tenant's entries to `name`. */
  function TenantTotal(apps: Tenant, name: string): nat
  {
    if apps == [] then 0 else TenantTotal(apps[..|apps| - 1], name) + Contribution(apps[|apps| - 1], name)
  }

  /** The sum over every tenant database of its total for `name`. */
  function Total(tenants: seq<Tenant>, name: string): nat
  {
    if tenants == [] then 0 else Total(tenants[..|tenants| - 1], name) + TenantTotal(tenants[|tenants| - 1], name)
  }

  /** The names a tenant lists that are counted. */
  function TenantNames(apps: Tenant): set<string>
  {
    if apps == [] then {}
    else TenantNames(apps[..|apps| - 1])
         + (if IsCounted(apps[|apps| - 1]) then {apps[|apps| - 1].name.value} else {})
  }

  /** The counted names over all tenant databases. */
  function Names(tenants: seq<Tenant>): set<string>
  {
    if tenants == [] then {} else Names(tenants[..|tenants| - 1]) + TenantNames(tenants[|tenants| - 1])
  }

  /** The object-count table as a value: every counted name with its total. */
  function CountTable(tenants: seq<Tenant>): map<string, nat>
  {
    map name | name in Names(tenants) :: Total(tenants, name)
  }

  /** `app_object_counts.get(app_name, 0)`. */
  function CountFor(counts: map<string, nat>, name: string): nat
  {
    if name in counts then counts[name] else 0
  }

  lemma {:induction false} TenantTotalOutside(apps: Tenant, name: string)
    requires name !in TenantNames(apps)
    ensures TenantTotal(apps, name) == 0
  {
    if apps != [] {
      TenantTotalOutside(apps[..|apps| - 1], name);
    }
  }

  lemma {:induction false} TotalOutside(tenants: seq<Tenant>, name: string)
    requires name !in Names(tenants)
    ensures Total(tenants, name) == 0
  {
    if tenants != [] {
      TotalOutside(tenants[..|tenants| - 1], name);
      TenantTotalOutside(tenants[|tenants| - 1], name);
    }
  }

  /**
   * The nested loop of fetch_neo4j_object_counts. Its keys are exactly the
   * non-empty names some tenant lists, and each maps to the sum of its
   * counts over every tenant and every occurrence in that tenant's list.
   */
  method FetchObjectCounts(tenants: seq<Tenant>) returns (counts: map<string, nat>)
    ensures counts.Keys == Names(tenants)
    ensures forall name :: name in counts ==> counts[name] == Total(tenants, name)
  {
    counts := map[];
    for t := 0 to |tenants|
      invariant counts.Keys == Names(tenants[..t])
      invariant forall name :: name in counts ==> counts[name] == Total(tenants[..t], name)
    {
      var apps := tenants[t];
      assert tenants[..t + 1][..t] == tenants[..t];
      for j := 0 to |apps|
        invariant counts.Keys == Names(tenants[..t]) + TenantNames(apps[..j])
        invariant forall name :: name in counts ==> counts[name] == Total(tenants[..t], name) + TenantTotal(apps[..j], name)
      {
        assert apps[..j + 1][..j] == apps[..j];
        var entry := apps[j];
        if entry.name.None? || entry.name.value == "" {
          continue;
        }
        var appName := entry.name.value;
        var count := CountOf(entry.count);
        if appName !in counts {
          TotalOutside(tenants[..t], appName);
          TenantTotalOutside(apps[..j], appName);
        }
        counts := counts[appName := (if appName in counts then counts[appName] else 0) + count];
      }
      assert apps[..|apps|] == apps;
    }
    assert tenants[..|tenants|] == tenants;
  }

  /**
   * Looking an application up in the table, with 0 for an absent name, is
   * its total over all tenants, listed or not.
   */
  lemma {:induction false} CountForIsTotal(tenants: seq<Tenant>, name: string)
    ensures CountFor(CountTable(tenants), name) == Total(tenants, name)
  {
    if name !in Names(tenants) {
      TotalOutside(tenants, name);
    }
  }

  lemma {:induction false} TenantTotalAppend(a: Tenant, b: Tenant, name: string)
    ensures TenantTotal(a + b, name) == TenantTotal(a, name) + TenantTotal(b, name)
    decreases |b|
  {
    if b != [] {
      assert (a + b)[..|a + b| - 1] == a + b[..|b| - 1];
      TenantTotalAppend(a, b[..|b| - 1], name);
    } else {
      assert a + b == a;
    }
  }

  /**
   * Totals add up across tenant databases: the table of two groups of
   * tenants together is the sum of their separate totals.
   */
  lemma {:induction false} TotalAppend(a: seq<Tenant>, b: seq<Tenant>, name: string)
    ensures Total(a + b, name) == Total(a, name) + Total(b, name)
    decreases |b|
  {
    if b != [] {
      assert (a + b)[..|a + b| - 1] == a + b[..|b| - 1];
      TotalAppend(a, b[..|b| - 1], name);
    } else {
      assert a + b == a;
    }
  }

  lemma {:induction false} TenantTotalIgnored(apps: Tenant, name: string)
    requires forall k :: 0 <= k < |apps| ==> !IsCounted(apps[k]) || apps[k].count == NoRecord
    ensures TenantTotal(apps, name) == 0
  {
    if apps != [] {
      TenantTotalIgnored(apps[..|apps| - 1], name);
    }
  }

  /**
   * Entries with a null or empty name, and entries whose count query
   * returned no record, contribute nothing: one more tenant made only of
   * them leaves every total unchanged.
   */
  lemma {:induction false} IgnoredEntriesAddNothing(tenants: seq<Tenant>, apps: Tenant, name: string)
    requires forall k :: 0 <= k < |apps| ==> !IsCounted(apps[k]) || apps[k].count == NoRecord
    ensures Total(tenants + [apps], name) == Total(tenants, name)
  {
    TenantTotalIgnored(apps, name);
    assert (tenants + [apps])[..|tenants|] == tenants;
  }
}
