/** Query selection of the SQL Server input plugin: the two query catalogs,
    the two extra Azure queries, the include/exclude name filter and the
    name-to-query map built from them. Query texts are opaque: each is
    represented by the name of the constant that holds it. */
module SqlQueries {

  /** An opaque query text, identified by the constant it is stored in. */
  datatype Script = Script(constant: string)

  /** A selected query. The source's Query also carries the result columns,
      but those are filled in per execution, on a copy. */
  datatype Query = Query(script: Script)

  /** One catalog entry: the query's name bound to its script. */
  datatype Entry = Entry(name: string, script: Script)

  /** Extra queries for Azure SQL Database, tested before the catalog. */
  const AzureCatalog: seq<Entry> := [
    Entry("AzureDBResourceStats", Script("sqlAzureDBResourceStats")),
    Entry("AzureDBResourceGovernance", Script("sqlAzureDBResourceGovernance"))
  ]

  /** The version 2 catalog, in the order the entries are tested. */
  const CatalogV2: seq<Entry> := [
    Entry("PerformanceCounters", Script("sqlPerformanceCountersV2")),
    Entry("WaitStatsCategorized", Script("sqlWaitStatsCategorizedV2")),
    Entry("DatabaseIO", Script("sqlDatabaseIOV2")),
    Entry("ServerProperties", Script("sqlServerPropertiesV2")),
    Entry("MemoryClerk", Script("sqlMemoryClerkV2")),
    Entry("Schedulers", Script("sqlServerSchedulersV2")),
    Entry("SqlRequests", Script("sqlServerRequestsV2")),
    Entry("VolumeSpace", Script("sqlServerVolumeSpaceV2")),
    Entry("Cpu", Script("sqlServerCpuV2")),
    Entry("AlwaysOnHealth", Script("alwaysOnHealthV2")),
    Entry("CachedPlans", Script("sqlCachedPlansV2")),
    Entry("InstanceWaits", Script("sqlInstanceWaitsV2")),
    Entry("PageLifeExpectancy", Script("sqlPageLifeExpectancyV2")),
    Entry("LogUsage", Script("sqlLogUsageV2")),
    Entry("DatabasesByInstance", Script("sqlDatabasesByInstanceV2")),
    Entry("DatabasesOnAG", Script("sqlDatabasesOnAGV2")),
    Entry("JobRuns", Script("sqlJobRunsV2")),
    Entry("DatabaseProperties", Script("sqlDatabasePropertiesV2")),
    Entry("Backups", Script("sqlBackupsV2")),
    Entry("OrphanedUsers", Script("sqlOrphanedUsersV2")),
    Entry("UsersSysadmin", Script("sqlUsersSysadminV2")),
    Entry("LockedUsers", Script("sqlLockedUsersV2")),
    Entry("PolicyChecked", Script("sqlPolicyCheckedV2")),
    Entry("DiskUsage", Script("sqlDiskUsageV2"))
  ]

  /** The version 1 catalog, in the order the entries are tested. */
  const CatalogV1: seq<Entry> := [
    Entry("PerformanceCounters", Script("sqlPerformanceCounters")),
    Entry("WaitStatsCategorized", Script("sqlWaitStatsCategorized")),
    Entry("CPUHistory", Script("sqlCPUHistory")),
    Entry("DatabaseIO", Script("sqlDatabaseIO")),
    Entry("DatabaseSize", Script("sqlDatabaseSize")),
    Entry("DatabaseStats", Script("sqlDatabaseStats")),
    Entry("DatabaseProperties", Script("sqlDatabaseProperties")),
    Entry("MemoryClerk", Script("sqlMemoryClerk")),
    Entry("VolumeSpace", Script("sqlVolumeSpace")),
    Entry("PerformanceMetrics", Script("sqlPerformanceMetrics"))
  ]

  /** Version 2 selects the version 2 catalog; every other value version 1. */
  function Catalog(queryVersion: int): seq<Entry>
  {
    if queryVersion == 2 then CatalogV2 else CatalogV1
  }

  /** Every entry the selection tests, in the order it tests them. */
  function Candidates(azureDB: bool, queryVersion: int): seq<Entry>
  {
    (if azureDB then AzureCatalog else []) + Catalog(queryVersion)
  }

  function Names(entries: seq<Entry>): set<string>
  {
    set e | e in entries :: e.name
  }

  function ScriptsOf(entries: seq<Entry>): set<Script>
  {
    set e | e in entries :: e.script
  }

  /** The filter closure, as written: a non-empty include set decides first,
      then a non-empty exclude set overwrites that decision. */
  predicate ShouldInclude(includes: set<string>, excludes: set<string>, name: string)
  {
    var shouldInclude := if |includes| > 0 then name in includes else true;
    if |excludes| > 0 then name !in excludes else shouldInclude
  }

  /** The run of `if filter(name) { queries[name] = ... }` statements over
      `entries`, starting from `queries`. */
  function AddSelected(entries: seq<Entry>, includes: set<string>, excludes: set<string>,
                       queries: map<string, Query>): map<string, Query>
    decreases |entries|
  {
    if entries == [] then queries
    else
      var e := entries[0];
      var next := if ShouldInclude(includes, excludes, e.name) then queries[e.name := Query(e.script)] else queries;
      AddSelected(entries[1..], includes, excludes, next)
  }

  lemma {:induction false} AddSelectedKeys(entries: seq<Entry>, includes: set<string>, excludes: set<string>,
                                           queries: map<string, Query>)
    ensures AddSelected(entries, includes, excludes, queries).Keys
         == queries.Keys + (set e | e in entries && ShouldInclude(includes, excludes, e.name) :: e.name)
    decreases |entries|
  {
    if entries != [] {
      var e := entries[0];
      var next := if ShouldInclude(includes, excludes, e.name) then queries[e.name := Query(e.script)] else queries;
      AddSelectedKeys(entries[1..], includes, excludes, next);
      assert entries == [e] + entries[1..];
    }
  }

  ghost predicate DistinctNames(entries: seq<Entry>)
  {
    forall i, j | 0 <= i < j < |entries| :: entries[i].name != entries[j].name
  }

  /** Over entries with distinct names, every selected entry's name ends up
      bound to that entry's script, and every other name keeps its binding. */
  lemma {:induction false} AddSelectedValues(entries: seq<Entry>, includes: set<string>, excludes: set<string>,
                                             queries: map<string, Query>)
    requires DistinctNames(entries)
    ensures forall e | e in entries && ShouldInclude(includes, excludes, e.name) ::
              e.name in AddSelected(entries, includes, excludes, queries)
              && AddSelected(entries, includes, excludes, queries)[e.name] == Query(e.script)
    ensures forall k | k in queries && k !in Names(entries) ::
              k in AddSelected(entries, includes, excludes, queries)
              && AddSelected(entries, includes, excludes, queries)[k] == queries[k]
    decreases |entries|
  {
    if entries != [] {
      var e := entries[0];
      var tail := entries[1..];
      var next := if ShouldInclude(includes, excludes, e.name) then queries[e.name := Query(e.script)] else queries;
      assert DistinctNames(tail) by {
        forall i, j | 0 <= i < j < |tail| ensures tail[i].name != tail[j].name {
          assert tail[i] == entries[i + 1] && tail[j] == entries[j + 1];
        }
      }
      assert e.name !in Names(tail) by {
        forall x | x in tail ensures x.name != e.name {
          var j :| 0 <= j < |tail| && tail[j] == x;
          assert entries[j + 1] == x;
        }
      }
      AddSelectedValues(tail, includes, excludes, next);
      assert forall x | x in entries :: x == e || x in tail by {
        assert entries == [e] + tail;
      }
    }
  }

  lemma {:induction false} NamesAppend(a: seq<Entry>, b: seq<Entry>)
    ensures Names(a + b) == Names(a) + Names(b)
    ensures ScriptsOf(a + b) == ScriptsOf(a) + ScriptsOf(b)
  {
    assert forall e | e in a + b :: e in a || e in b;
  }

  /** The version 2 names are pairwise distinct, checked in three parts to
      keep each proof small: within the first twelve, within the last twelve,
      and across the two halves. */
  lemma CatalogV2DistinctLow()
    ensures forall i, j | 0 <= i < j < 12 :: CatalogV2[i].name != CatalogV2[j].name
  {
  }

  lemma CatalogV2DistinctHigh()
    ensures forall i, j | 12 <= i < j < 24 :: CatalogV2[i].name != CatalogV2[j].name
  {
  }

  lemma CatalogV2DistinctAcross()
    ensures forall i, j | 0 <= i < 12 <= j < 24 :: CatalogV2[i].name != CatalogV2[j].name
  {
  }

  lemma CatalogV2Distinct()
    ensures DistinctNames(CatalogV2)
  {
    CatalogV2DistinctLow();
    CatalogV2DistinctHigh();
    CatalogV2DistinctAcross();
  }

  lemma CatalogV1Distinct()
    ensures DistinctNames(CatalogV1)
  {
  }

  /** Both Azure names have 'z' as their second letter; no catalog name does. */
  lemma AzureSecondLetter()
    ensures forall i | 0 <= i < |AzureCatalog| :: |AzureCatalog[i].name| > 1 && AzureCatalog[i].name[1] == 'z'
  {
  }

  lemma CatalogV2SecondLetter()
    ensures forall i | 0 <= i < |CatalogV2| :: |CatalogV2[i].name| > 1 && CatalogV2[i].name[1] != 'z'
  {
    assert forall i | 0 <= i < 12 :: |CatalogV2[i].name| > 1 && CatalogV2[i].name[1] != 'z';
    assert forall i | 12 <= i < 24 :: |CatalogV2[i].name| > 1 && CatalogV2[i].name[1] != 'z';
  }

  lemma CatalogV1SecondLetter()
    ensures forall i | 0 <= i < |CatalogV1| :: |CatalogV1[i].name| > 1 && CatalogV1[i].name[1] != 'z'
  {
  }

  lemma NamesApartBySecondLetter(a: seq<Entry>, c: seq<Entry>)
    requires forall i | 0 <= i < |a| :: |a[i].name| > 1 && a[i].name[1] == 'z'
    requires forall j | 0 <= j < |c| :: |c[j].name| > 1 && c[j].name[1] != 'z'
    ensures Names(a) !! Names(c)
  {
    forall e | e in a ensures e.name[1] == 'z' {
      var i :| 0 <= i < |a| && a[i] == e;
    }
    forall e | e in c ensures e.name[1] != 'z' {
      var j :| 0 <= j < |c| && c[j] == e;
    }
  }

  lemma {:induction false} DistinctAppend(a: seq<Entry>, b: seq<Entry>)
    requires DistinctNames(a) && DistinctNames(b) && Names(a) !! Names(b)
    ensures DistinctNames(a + b)
  {
    var all := a + b;
    forall i, j | 0 <= i < j < |all| ensures all[i].name != all[j].name {
      if j < |a| {
        assert all[i] == a[i] && all[j] == a[j];
      } else if i < |a| {
        assert all[i] == a[i] && all[j] == b[j - |a|];
        assert all[i].name in Names(a) && all[j].name in Names(b);
      } else {
        assert all[i] == b[i - |a|] && all[j] == b[j - |a|];
      }
    }
  }

  /** No Azure query shares its name with a catalog query. */
  lemma AzureNamesApart(queryVersion: int)
    ensures Names(AzureCatalog) !! Names(Catalog(queryVersion))
  {
    AzureSecondLetter();
    CatalogV2SecondLetter();
    CatalogV1SecondLetter();
    NamesApartBySecondLetter(AzureCatalog, Catalog(queryVersion));
  }

  /** Within each version, the candidate names are pairwise distinct. */
  lemma CandidatesDistinct(azureDB: bool, queryVersion: int)
    ensures DistinctNames(Candidates(azureDB, queryVersion))
  {
    CatalogV2Distinct();
    CatalogV1Distinct();
    AzureNamesApart(queryVersion);
    if azureDB {
      DistinctAppend(AzureCatalog, Catalog(queryVersion));
    } else {
      assert Candidates(azureDB, queryVersion) == Catalog(queryVersion);
    }
  }

  /** The name-to-query map built by initQueries: the candidates admitted
      by the filter, folded into a map in catalog order. */
  function SelectQueries(azureDB: bool, queryVersion: int, includes: set<string>, excludes: set<string>)
    : map<string, Query>
  {
    AddSelected(Candidates(azureDB, queryVersion), includes, excludes, map[])
  }

  /** The selected names are exactly the candidates' names that the filter
      admits, and each is bound to its own catalog script. */
  lemma SelectQueriesMeaning(azureDB: bool, queryVersion: int, includes: set<string>, excludes: set<string>)
    ensures var r := SelectQueries(azureDB, queryVersion, includes, excludes);
            r.Keys == set n | n in Names(Candidates(azureDB, queryVersion)) && ShouldInclude(includes, excludes, n)
    ensures var r := SelectQueries(azureDB, queryVersion, includes, excludes);
            forall e | e in Candidates(azureDB, queryVersion) && ShouldInclude(includes, excludes, e.name) ::
              e.name in r && r[e.name] == Query(e.script)
  {
    var candidates := Candidates(azureDB, queryVersion);
    AddSelectedKeys(candidates, includes, excludes, map[]);
    CandidatesDistinct(azureDB, queryVersion);
    AddSelectedValues(candidates, includes, excludes, map[]);
  }

  /** With no exclude list the include list acts as a whitelist, and an
      empty include list selects every candidate. */
  lemma SelectedWithoutExclude(azureDB: bool, queryVersion: int, includes: set<string>, excludes: set<string>)
    requires |excludes| == 0
    ensures |includes| == 0 ==>
              SelectQueries(azureDB, queryVersion, includes, excludes).Keys == Names(Candidates(azureDB, queryVersion))
    ensures |includes| > 0 ==>
              SelectQueries(azureDB, queryVersion, includes, excludes).Keys == Names(Candidates(azureDB, queryVersion)) * includes
  {
    SelectQueriesMeaning(azureDB, queryVersion, includes, excludes);
  }

  /** With a non-empty exclude list a candidate is selected exactly when it is
      not excluded: the include list has no effect at all. */
  lemma SelectedWithExclude(azureDB: bool, queryVersion: int, includes: set<string>, excludes: set<string>)
    requires |excludes| > 0
    ensures SelectQueries(azureDB, queryVersion, includes, excludes).Keys
            == Names(Candidates(azureDB, queryVersion)) - excludes
  {
    SelectQueriesMeaning(azureDB, queryVersion, includes, excludes);
  }

  /** An instance of the above: "PerformanceCounters" is selected although
      the include list names only "Cpu", because an exclude list is present. */
  lemma ExcludeOverridesInclude()
    ensures "PerformanceCounters" in SelectQueries(false, 2, {"Cpu"}, {"Schedulers"})
    ensures "Schedulers" !in SelectQueries(false, 2, {"Cpu"}, {"Schedulers"})
  {
    SelectedWithExclude(false, 2, {"Cpu"}, {"Schedulers"});
    var e := CatalogV2[0];
    assert e in Candidates(false, 2);
  }

  /** The selected names all come from one catalog, chosen by the version,
      plus the Azure names when AzureDB is set and the filter admits them;
      every selected script is one of those catalogs' scripts. */
  lemma SelectedFromOneCatalog(azureDB: bool, queryVersion: int, includes: set<string>, excludes: set<string>)
    ensures SelectQueries(azureDB, queryVersion, includes, excludes).Keys
            <= Names(Catalog(queryVersion)) + (if azureDB then Names(AzureCatalog) else {})
    ensures forall n | n in Names(AzureCatalog) ::
              n in SelectQueries(azureDB, queryVersion, includes, excludes) <==> azureDB && ShouldInclude(includes, excludes, n)
    ensures forall k | k in SelectQueries(azureDB, queryVersion, includes, excludes) ::
              SelectQueries(azureDB, queryVersion, includes, excludes)[k].script
                in ScriptsOf(Catalog(queryVersion)) + (if azureDB then ScriptsOf(AzureCatalog) else {})
  {
    SelectQueriesMeaning(azureDB, queryVersion, includes, excludes);
    var extra := if azureDB then AzureCatalog else [];
    NamesAppend(extra, Catalog(queryVersion));
    AzureNamesApart(queryVersion);
    var r := SelectQueries(azureDB, queryVersion, includes, excludes);
    forall k | k in r
      ensures r[k].script in ScriptsOf(Catalog(queryVersion)) + (if azureDB then ScriptsOf(AzureCatalog) else {})
    {
      var e :| e in Candidates(azureDB, queryVersion) && e.name == k;
      assert e.script in ScriptsOf(Candidates(azureDB, queryVersion));
    }
  }
}
