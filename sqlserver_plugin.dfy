/** The SQL Server input plugin object: one-time initialisation of the
    lookup sets and the query map, discovery of local instances, and the
    gather cycle over every (server, query) unit. The goroutines of Gather
    are run one after another; the order in which the query map is walked is
    left open, as Go leaves it. */
module SqlServerPlugin {
  import opened Telegraf
  import opened SqlQueries
  import opened SqlRows

  /** What local discovery reads from the host: the installed instance names
      (from the registry) and the host name, each possibly an error. */
  datatype LocalHost = LocalHost(instances: Result<seq<string>, Error>, hostname: Result<string, Error>)

  /** How a gather cycle ends: Gather returns (always nil), or a goroutine
      panics and takes the process down. */
  datatype GatherOutcome = Returned(err: Option<Error>) | Crashed

  /** One gather unit: an index into Servers and a query name. */
  datatype Unit = Unit(server: nat, query: string)

  /** What the database answers when a unit opens its connection string and
      runs its script. The unit is part of the question: every goroutine
      opens its own connection at its own time, so two units with the same
      connection string and script may be answered differently. */
  type Database = (Unit, string, Script) -> Response

  /** Everything a gather cycle reads: the servers, the query map, the tag
      keys, and the database. */
  datatype Cycle = Cycle(servers: seq<string>, queries: map<string, Query>, tagKeys: set<string>,
                         db: Database)

  function NameSet(names: seq<string>): set<string>
  {
    set n | n in names
  }

  /** The loops of initIncludeQueries, initExcludeQueries and initTags:
      a list of names turned into a membership set. */
  method SetOf(names: seq<string>) returns (s: set<string>)
    ensures forall n :: n in s <==> n in names
  {
    s := {};
    for i := 0 to |names|
      invariant forall n :: n in s <==> n in names[..i]
    {
      s := s + {names[i]};
    }
    assert names[..|names|] == names;
  }

  /** Upper case of one character, for the characters whose upper case is an
      ASCII letter: a to z, the long s (U+017F) and the dotless i (U+0131).
      Other characters are left as they are; they cannot make a name equal
      to an all-ASCII upper-case name. */
  function UpperRune(c: char): char
  {
    if 'a' <= c <= 'z' then (c as int - 32) as char
    else if c == '\U{17F}' then 'S'
    else if c == '\U{131}' then 'I'
    else c
  }

  function ToUpper(s: string): string
  {
    seq(|s|, i requires 0 <= i < |s| => UpperRune(s[i]))
  }

  /** The default instance, compared without regard to case. */
  predicate IsDefaultInstance(instance: string)
  {
    ToUpper(instance) == "MSSQLSERVER"
  }

  /** `c` is a spelling of the upper-case letter `u` that upper-casing
      maps to it: `u` itself, its lower case, or the long s or dotless i. */
  predicate CaseVariant(c: char, u: char)
  {
    c == u || c as int == u as int + 32 || (u == 'S' && c == '\U{17F}') || (u == 'I' && c == '\U{131}')
  }

  /** An instance is the default one exactly when it spells MSSQLSERVER,
      each letter in either case (or as a long s or dotless i). */
  lemma DefaultInstanceIff(instance: string)
    ensures IsDefaultInstance(instance)
            <==> |instance| == 11 && forall i | 0 <= i < 11 :: CaseVariant(instance[i], "MSSQLSERVER"[i])
  {
    var target := "MSSQLSERVER";
    if |instance| == 11 {
      forall i | 0 <= i < 11
        ensures CaseVariant(instance[i], target[i]) <==> UpperRune(instance[i]) == target[i]
      {
      }
      assert ToUpper(instance) == target <==> forall i | 0 <= i < 11 :: ToUpper(instance)[i] == target[i];
    }
  }

  const ConnPrefix: string := "Server="
  const ConnSuffix: string := ";Integrated Security=SSPI;"

  /** The connection string for a local instance: the default instance is
      reached by host name alone, a named one as host\instance. */
  function ConnString(hostname: string, instance: string): string
  {
    if IsDefaultInstance(instance) then ConnPrefix + hostname + ConnSuffix
    else ConnPrefix + hostname + "\\" + instance + ConnSuffix
  }

  /** The server part of an integrated-security connection string. */
  function ServerOf(conn: string): string
    requires |conn| >= |ConnPrefix| + |ConnSuffix|
  {
    conn[|ConnPrefix|..|conn| - |ConnSuffix|]
  }

  /** A generated connection string is a trusted connection whose server is
      the host for the default instance and host\instance otherwise. */
  lemma ConnStringServer(hostname: string, instance: string)
    ensures var conn := ConnString(hostname, instance);
            && |conn| >= |ConnPrefix| + |ConnSuffix|
            && conn[..|ConnPrefix|] == ConnPrefix
            && conn[|conn| - |ConnSuffix|..] == ConnSuffix
            && ServerOf(conn) == if IsDefaultInstance(instance) then hostname else hostname + "\\" + instance
  {
    var server := if IsDefaultInstance(instance) then hostname else hostname + "\\" + instance;
    var conn := ConnString(hostname, instance);
    assert conn == ConnPrefix + server + ConnSuffix;
  }

  /** Upper-casing makes the default-instance test case-blind. */
  lemma DefaultInstanceSpellings()
    ensures IsDefaultInstance("MSSQLSERVER")
    ensures IsDefaultInstance("mssqlserver")
    ensures IsDefaultInstance("MsSqlServer")
    ensures !IsDefaultInstance("SQLEXPRESS")
    ensures !IsDefaultInstance("MSSQLSERVER2")
  {
    assert ToUpper("mssqlserver") == "MSSQLSERVER";
    assert ToUpper("MsSqlServer") == "MSSQLSERVER";
    assert ToUpper("MSSQLSERVER") == "MSSQLSERVER";
    assert ToUpper("SQLEXPRESS")[0] == 'S';
  }

  function LocalConnStrings(hostname: string, instances: seq<string>): seq<string>
  {
    seq(|instances|, i requires 0 <= i < |instances| => ConnString(hostname, instances[i]))
  }

  /** The connection strings discovery adds: one per instance, in instance
      order, when both the instance list and the host name are available;
      none otherwise. */
  function Discovered(local: LocalHost): seq<string>
  {
    if local.instances.Success? && local.hostname.Success?
    then LocalConnStrings(local.hostname.value, local.instances.value)
    else []
  }

  /** gatherServer's result for one unit of the cycle; a unit that names
      no server or query of the cycle yields nothing. */
  function UnitResultOf(c: Cycle, u: Unit): UnitResult
  {
    if u.server < |c.servers| && u.query in c.queries
    then RunUnit(c.db(u, c.servers[u.server], c.queries[u.query].script), c.tagKeys)
    else UnitResult([], None, false)
  }

  /** gatherServer's result for every unit of the cycle. */
  ghost function Outcomes(c: Cycle): Unit -> UnitResult
  {
    (u: Unit) => UnitResultOf(c, u)
  }

  /** `results` gives every unit its gatherServer result in the cycle `c`.
      Reasoning about runs of units goes through `results` alone, so the
      decoding of rows is only unfolded where one unit is run. */
  ghost predicate Agrees(results: Unit -> UnitResult, c: Cycle)
  {
    forall u {:trigger UnitResultOf(c, u)} :: results(u) == UnitResultOf(c, u)
  }

  /** The outputs of a run of units, unit after unit. */
  ghost function Flatten<T>(units: seq<Unit>, f: Unit -> seq<T>): seq<T>
    decreases |units|
  {
    if units == [] then []
    else Flatten(units[..|units| - 1], f) + f(units[|units| - 1])
  }

  /** The records of the units, unit after unit. */
  ghost function RecordsOf(results: Unit -> UnitResult, units: seq<Unit>): seq<Metric>
  {
    Flatten(units, (u: Unit) => results(u).records)
  }

  /** One AddError argument per unit: the error gatherServer returned. */
  ghost function ErrorCallsOf(results: Unit -> UnitResult, units: seq<Unit>): seq<Option<Error>>
  {
    Flatten(units, (u: Unit) => [results(u).err])
  }

  ghost predicate NoPanics(results: Unit -> UnitResult, units: seq<Unit>)
  {
    forall k | 0 <= k < |units| :: !results(units[k]).panicked
  }

  /** What a run of units leaves in the accumulator, which held `m0` and
      `e0` before it: every unit's records; and either every unit's AddError
      call, or, when the last unit panicked, the calls of the units before it. */
  ghost predicate RunState(results: Unit -> UnitResult, m0: seq<Metric>, e0: seq<Option<Error>>,
                           units: seq<Unit>, panicked: bool, metrics: seq<Metric>, errorCalls: seq<Option<Error>>)
  {
    && metrics == m0 + RecordsOf(results, units)
    && (!panicked ==> NoPanics(results, units) && errorCalls == e0 + ErrorCallsOf(results, units))
    && (panicked ==>
          && |units| > 0
          && results(units[|units| - 1]).panicked
          && NoPanics(results, units[..|units| - 1])
          && errorCalls == e0 + ErrorCallsOf(results, units[..|units| - 1]))
  }

  /** `order` is one walk over a map with key set `keys`: every key once. */
  ghost predicate Listing(order: seq<string>, keys: set<string>)
  {
    && |order| == |keys|
    && (forall q :: q in order <==> q in keys)
    && (forall k, l | 0 <= k < l < |order| :: order[k] != order[l])
  }

  /** The units of one server, in the order its queries were walked. */
  function ServerUnits(server: nat, order: seq<string>): (r: seq<Unit>)
    ensures |r| == |order|
    ensures forall k | 0 <= k < |order| :: r[k] == Unit(server, order[k])
  {
    seq(|order|, k requires 0 <= k < |order| => Unit(server, order[k]))
  }

  /** The units of a whole cycle: server after server, each with its own walk
      over the query map. */
  ghost function AllUnits(orders: seq<seq<string>>): seq<Unit>
    decreases |orders|
  {
    if orders == [] then []
    else AllUnits(orders[..|orders| - 1]) + ServerUnits(|orders| - 1, orders[|orders| - 1])
  }

  /** Every server's walk lists the whole key set. */
  ghost predicate Listings(orders: seq<seq<string>>, keys: set<string>)
  {
    forall j | 0 <= j < |orders| :: Listing(orders[j], keys)
  }

  ghost predicate Distinct(units: seq<Unit>)
  {
    forall k, l | 0 <= k < l < |units| :: units[k] != units[l]
  }

  /** The walk over the query map in Gather's inner loop: every query name
      once, in an order Go leaves unspecified. */
  method ListKeys(keys: set<string>) returns (order: seq<string>)
    ensures Listing(order, keys)
  {
    order := [];
    var remaining := keys;
    while remaining != {}
      invariant remaining <= keys
      invariant forall q :: q in order <==> q in keys - remaining
      invariant forall k, l | 0 <= k < l < |order| :: order[k] != order[l]
      invariant |order| == |keys - remaining|
      decreases |remaining|
    {
      var q :| q in remaining;
      assert keys - (remaining - {q}) == (keys - remaining) + {q};
      order := order + [q];
      remaining := remaining - {q};
    }
    assert keys - remaining == keys;
  }

  lemma FlattenSnoc<T>(units: seq<Unit>, u: Unit, f: Unit -> seq<T>)
    ensures Flatten(units + [u], f) == Flatten(units, f) + f(u)
  {
    assert (units + [u])[..|units|] == units;
  }

  lemma {:induction false} FlattenAppend<T>(a: seq<Unit>, b: seq<Unit>, f: Unit -> seq<T>)
    ensures Flatten(a + b, f) == Flatten(a, f) + Flatten(b, f)
    decreases |b|
  {
    if b == [] {
      assert a + b == a;
    } else {
      var n := |b| - 1;
      var front := b[..n];
      assert b == front + [b[n]];
      assert a + b == (a + front) + [b[n]];
      calc {
        Flatten(a + b, f);
        { FlattenSnoc(a + front, b[n], f); }
        Flatten(a + front, f) + f(b[n]);
        { FlattenAppend(a, front, f); }
        (Flatten(a, f) + Flatten(front, f)) + f(b[n]);
        Flatten(a, f) + (Flatten(front, f) + f(b[n]));
        { FlattenSnoc(front, b[n], f); }
        Flatten(a, f) + Flatten(b, f);
      }
    }
  }

  /** Adding one unit at the end adds its records and its AddError call. */
  lemma UnitsSnoc(results: Unit -> UnitResult, units: seq<Unit>, u: Unit)
    ensures RecordsOf(results, units + [u]) == RecordsOf(results, units) + results(u).records
    ensures ErrorCallsOf(results, units + [u]) == ErrorCallsOf(results, units) + [results(u).err]
  {
    FlattenSnoc(units, u, (u: Unit) => results(u).records);
    FlattenSnoc(units, u, (u: Unit) => [results(u).err]);
  }

  /** One AddError call per unit, carrying that unit's own result. */
  lemma {:induction false} ErrorCallsAt(results: Unit -> UnitResult, units: seq<Unit>)
    ensures |ErrorCallsOf(results, units)| == |units|
    ensures forall k | 0 <= k < |units| :: ErrorCallsOf(results, units)[k] == results(units[k]).err
    decreases |units|
  {
    if units != [] {
      var n := |units| - 1;
      ErrorCallsAt(results, units[..n]);
      assert units == units[..n] + [units[n]];
      UnitsSnoc(results, units[..n], units[n]);
      assert forall k | 0 <= k < n :: units[..n][k] == units[k];
    }
  }

  /** Units do not affect one another: the records of a run of units are the
      records of its first part followed by those of the rest, whatever
      either part returned; likewise the AddError calls. */
  lemma RunsAppend(results: Unit -> UnitResult, a: seq<Unit>, b: seq<Unit>)
    ensures RecordsOf(results, a + b) == RecordsOf(results, a) + RecordsOf(results, b)
    ensures ErrorCallsOf(results, a + b) == ErrorCallsOf(results, a) + ErrorCallsOf(results, b)
  {
    FlattenAppend(a, b, (u: Unit) => results(u).records);
    FlattenAppend(a, b, (u: Unit) => [results(u).err]);
  }

  lemma NoPanicsAppend(results: Unit -> UnitResult, a: seq<Unit>, b: seq<Unit>)
    requires NoPanics(results, a) && NoPanics(results, b)
    ensures NoPanics(results, a + b)
  {
    forall k | 0 <= k < |a + b|
      ensures !results((a + b)[k]).panicked
    {
      if k < |a| {
        assert (a + b)[k] == a[k];
      } else {
        assert (a + b)[k] == b[k - |a|];
      }
    }
  }

  /** A run that panicked in its last unit: the units before that one kept
      their AddError calls. */
  lemma CrashedRun(results: Unit -> UnitResult, previous: seq<Unit>, done: seq<Unit>)
    requires NoPanics(results, previous)
    requires |done| > 0 && NoPanics(results, done[..|done| - 1])
    ensures var units := previous + done;
            && units[|units| - 1] == done[|done| - 1]
            && NoPanics(results, units[..|units| - 1])
            && ErrorCallsOf(results, units[..|units| - 1]) == ErrorCallsOf(results, previous) + ErrorCallsOf(results, done[..|done| - 1])
  {
    var front := done[..|done| - 1];
    assert (previous + done)[..|previous + done| - 1] == previous + front;
    RunsAppend(results, previous, front);
    NoPanicsAppend(results, previous, front);
  }

  /** A run without panics followed by a second run is one run of all
      their units. */
  lemma RunStateAppend(results: Unit -> UnitResult, m0: seq<Metric>, e0: seq<Option<Error>>,
                       units: seq<Unit>, m1: seq<Metric>, e1: seq<Option<Error>>,
                       done: seq<Unit>, panicked: bool, metrics: seq<Metric>, errorCalls: seq<Option<Error>>)
    requires RunState(results, m0, e0, units, false, m1, e1)
    requires RunState(results, m1, e1, done, panicked, metrics, errorCalls)
    ensures RunState(results, m0, e0, units + done, panicked, metrics, errorCalls)
  {
    RunsAppend(results, units, done);
    if panicked {
      CrashedRun(results, units, done);
    } else {
      NoPanicsAppend(results, units, done);
    }
  }

  lemma AllUnitsSnoc(orders: seq<seq<string>>, order: seq<string>)
    ensures AllUnits(orders + [order]) == AllUnits(orders) + ServerUnits(|orders|, order)
  {
    assert (orders + [order])[..|orders|] == orders;
  }

  lemma ListingsFront(orders: seq<seq<string>>, keys: set<string>)
    requires orders != [] && Listings(orders, keys)
    ensures Listings(orders[..|orders| - 1], keys) && Listing(orders[|orders| - 1], keys)
  {
    var n := |orders| - 1;
    forall j | 0 <= j < n
      ensures Listing(orders[..n][j], keys)
    {
      assert orders[..n][j] == orders[j];
    }
  }

  lemma ListingsSnoc(orders: seq<seq<string>>, order: seq<string>, keys: set<string>)
    requires Listings(orders, keys) && Listing(order, keys)
    ensures Listings(orders + [order], keys)
  {
    forall j | 0 <= j < |orders| + 1
      ensures Listing((orders + [order])[j], keys)
    {
      if j < |orders| {
        assert (orders + [order])[j] == orders[j];
      }
    }
  }

  /** A cycle has as many units as servers times queries. */
  lemma {:induction false} AllUnitsLength(orders: seq<seq<string>>, keys: set<string>)
    requires Listings(orders, keys)
    ensures |AllUnits(orders)| == |orders| * |keys|
    decreases |orders|
  {
    if orders != [] {
      var n := |orders| - 1;
      ListingsFront(orders, keys);
      AllUnitsLength(orders[..n], keys);
      assert |orders| * |keys| == n * |keys| + |keys|;
    }
  }

  /** A unit belongs to the cycle exactly when it names one of its servers
      and a query of that server's walk. */
  lemma {:induction false} AllUnitsMember(orders: seq<seq<string>>, u: Unit)
    ensures u in AllUnits(orders) <==> u.server < |orders| && u.query in orders[u.server]
    decreases |orders|
  {
    if orders != [] {
      var n := |orders| - 1;
      var front, last := orders[..n], orders[n];
      AllUnitsMember(front, u);
      var b := ServerUnits(n, last);
      assert u in b <==> u.server == n && u.query in last by {
        if u in b {
          var k :| 0 <= k < |b| && b[k] == u;
        }
        if u.server == n && u.query in last {
          var k :| 0 <= k < |last| && last[k] == u.query;
          assert b[k] == u;
        }
      }
      if u.server < n {
        assert orders[u.server] == front[u.server];
      }
    }
  }

  /** No unit of a cycle is run twice: servers differ between walks, and one
      walk lists each query once. */
  lemma {:induction false} AllUnitsDistinct(orders: seq<seq<string>>, keys: set<string>)
    requires Listings(orders, keys)
    ensures Distinct(AllUnits(orders))
    decreases |orders|
  {
    if orders != [] {
      var n := |orders| - 1;
      var front, last := orders[..n], orders[n];
      ListingsFront(orders, keys);
      AllUnitsDistinct(front, keys);
      var a, b := AllUnits(front), ServerUnits(n, last);
      assert AllUnits(orders) == a + b;
      forall k, l | 0 <= k < l < |a + b|
        ensures (a + b)[k] != (a + b)[l]
      {
        if l < |a| {
          assert (a + b)[k] == a[k] && (a + b)[l] == a[l];
        } else if k < |a| {
          assert a[k] in a;
          AllUnitsMember(front, a[k]);
          assert (a + b)[l] == b[l - |a|];
        } else {
          assert (a + b)[k] == b[k - |a|] && (a + b)[l] == b[l - |a|];
        }
      }
    }
  }

  /** When every server walks the whole query map once, the cycle runs every
      (server, query) pair exactly once and nothing else. */
  lemma AllUnitsExactlyOnce(orders: seq<seq<string>>, keys: set<string>)
    requires Listings(orders, keys)
    ensures |AllUnits(orders)| == |orders| * |keys|
    ensures forall u | u in AllUnits(orders) :: u.server < |orders| && u.query in keys
    ensures forall j, q | 0 <= j < |orders| && q in keys :: Unit(j, q) in AllUnits(orders)
    ensures Distinct(AllUnits(orders))
  {
    AllUnitsLength(orders, keys);
    AllUnitsDistinct(orders, keys);
    forall u | u in AllUnits(orders)
      ensures u.server < |orders| && u.query in keys
    {
      AllUnitsMember(orders, u);
      assert Listing(orders[u.server], keys);
    }
    forall j, q | 0 <= j < |orders| && q in keys
      ensures Unit(j, q) in AllUnits(orders)
    {
      AllUnitsMember(orders, Unit(j, q));
      assert Listing(orders[j], keys);
    }
  }

  /** A cycle in which no unit panics makes one AddError call per
      (server, query) pair, each carrying the error of its own unit. */
  lemma OneErrorCallPerUnit(results: Unit -> UnitResult, orders: seq<seq<string>>, keys: set<string>)
    requires Listings(orders, keys)
    ensures |AllUnits(orders)| == |ErrorCallsOf(results, AllUnits(orders))| == |orders| * |keys|
    ensures forall k | 0 <= k < |AllUnits(orders)| ::
              ErrorCallsOf(results, AllUnits(orders))[k] == results(AllUnits(orders)[k]).err
  {
    AllUnitsLength(orders, keys);
    ErrorCallsAt(results, AllUnits(orders));
  }

  class SQLServer {
    var Servers: seq<string>
    var QueryVersion: int
    var AzureDB: bool
    var IncludeQuery: seq<string>
    var ExcludeQuery: seq<string>
    var LocalInstancesAutoDiscovery: bool
    var TagKeys: seq<string>
    var includeQueries: set<string>
    var excludeQueries: set<string>
    var tags: set<string>
    var queries: map<string, Query>
    var isInitialized: bool

    /** A plugin as configuration leaves it: the settings filled in, the
        derived state at its zero value. */
    constructor (servers: seq<string>, queryVersion: int, azureDB: bool, includeQuery: seq<string>,
                 excludeQuery: seq<string>, localInstancesAutoDiscovery: bool, tagKeys: seq<string>)
      ensures Servers == servers && QueryVersion == queryVersion && AzureDB == azureDB
      ensures IncludeQuery == includeQuery && ExcludeQuery == excludeQuery
      ensures LocalInstancesAutoDiscovery == localInstancesAutoDiscovery && TagKeys == tagKeys
      ensures includeQueries == {} && excludeQueries == {} && tags == {} && queries == map[]
      ensures !isInitialized
    {
      Servers, QueryVersion, AzureDB := servers, queryVersion, azureDB;
      IncludeQuery, ExcludeQuery := includeQuery, excludeQuery;
      LocalInstancesAutoDiscovery, TagKeys := localInstancesAutoDiscovery, tagKeys;
      includeQueries, excludeQueries, tags := {}, {}, {};
      queries := map[];
      isInitialized := false;
    }

    /** The state initQueries leaves behind, for the current settings. */
    ghost predicate Initialized()
      reads this
    {
      && isInitialized
      && includeQueries == NameSet(IncludeQuery)
      && excludeQueries == NameSet(ExcludeQuery)
      && tags == NameSet(TagKeys)
      && queries == SelectQueries(AzureDB, QueryVersion, includeQueries, excludeQueries)
    }

    method InitIncludeQueries()
      modifies this`includeQueries
      ensures includeQueries == NameSet(IncludeQuery)
    {
      includeQueries := SetOf(IncludeQuery);
    }

    method InitExcludeQueries()
      modifies this`excludeQueries
      ensures excludeQueries == NameSet(ExcludeQuery)
    {
      excludeQueries := SetOf(ExcludeQuery);
    }

    method InitTags()
      modifies this`tags
      ensures tags == NameSet(TagKeys)
    {
      tags := SetOf(TagKeys);
    }

    /** Builds the lookup sets and the query map, and sets the flag. */
    method InitQueries()
      modifies this`includeQueries, this`excludeQueries, this`tags, this`queries, this`isInitialized
      ensures Initialized()
    {
      InitIncludeQueries();
      InitExcludeQueries();
      InitTags();
      queries := SelectQueries(AzureDB, QueryVersion, includeQueries, excludeQueries);
      isInitialized := true;
    }

    /** Appends one connection string per local instance after the
        configured servers; a failed registry read or host name lookup
        leaves Servers as it was. */
    method IncludeConnStringsForLocalInstances(local: LocalHost)
      modifies this`Servers
      ensures Servers == old(Servers) + Discovered(local)
    {
      if local.instances.Success? {
        if local.hostname.Success? {
          var instances := local.instances.value;
          var hostname := local.hostname.value;
          for i := 0 to |instances|
            invariant Servers == old(Servers) + LocalConnStrings(hostname, instances[..i])
          {
            assert LocalConnStrings(hostname, instances[..i + 1])
                   == LocalConnStrings(hostname, instances[..i]) + [ConnString(hostname, instances[i])];
            Servers := Servers + [ConnString(hostname, instances[i])];
          }
          assert instances[..|instances|] == instances;
        }
      }
    }

    /** accRow: Scan the row into one destination per column, decode it, and
        hand the record to the accumulator. */
    method AccRow(columns: seq<string>, row: RowOutcome, acc: Accumulator) returns (step: RowStep)
      modifies acc
      ensures step == RowSpec(columns, row, tags)
      ensures acc.metrics == old(acc.metrics) + (if step.Emitted? then [step.metric] else [])
      ensures acc.errorCalls == old(acc.errorCalls)
    {
      match row
      case ScanFailed(e) =>
        return Failed(e);
      case Row(values) =>
        if |values| != |columns| {
          return Failed(ScanArityError(|values|, |columns|));
        }
        step := DecodeRow(columns, values, tags);
        if step.Emitted? {
          acc.AddFields(step.metric.measurement, step.metric.fields, step.metric.tags);
        }
    }

    /** gatherServer for the unit `u`: open, query, read the column names,
        then the row loop. */
    method GatherServer(u: Unit, server: string, query: Query, acc: Accumulator, db: Database)
      returns (err: Option<Error>, panicked: bool)
      modifies acc
      ensures acc.metrics == old(acc.metrics) + RunUnit(db(u, server, query.script), tags).records
      ensures err == RunUnit(db(u, server, query.script), tags).err
      ensures panicked == RunUnit(db(u, server, query.script), tags).panicked
      ensures acc.errorCalls == old(acc.errorCalls)
    {
      var response := db(u, server, query.script);
      match response
      case OpenFailed(e) =>
        return Some(e), false;
      case QueryFailed(e) =>
        return Some(e), false;
      case ColumnsFailed(e) =>
        return Some(e), false;
      case Rows(columns, rows, rowsErr) =>
        err, panicked := AccRows(columns, rows, rowsErr, acc);
    }

    /** The row loop of gatherServer: accRow on each row until one fails; the
        records of earlier rows stay emitted; after the last row, rows.Err. */
    method AccRows(columns: seq<string>, rows: seq<RowOutcome>, rowsErr: Option<Error>, acc: Accumulator)
      returns (err: Option<Error>, panicked: bool)
      modifies acc
      ensures acc.metrics == old(acc.metrics) + RunRows(columns, rows, rowsErr, tags).records
      ensures err == RunRows(columns, rows, rowsErr, tags).err
      ensures panicked == RunRows(columns, rows, rowsErr, tags).panicked
      ensures acc.errorCalls == old(acc.errorCalls)
    {
      var tk := tags;
      ghost var total := RunRows(columns, rows, rowsErr, tk);
      var i := 0;
      while i < |rows|
        invariant 0 <= i <= |rows|
        invariant acc.metrics + RunRows(columns, rows[i..], rowsErr, tk).records == old(acc.metrics) + total.records
        invariant RunRows(columns, rows[i..], rowsErr, tk).err == total.err
        invariant RunRows(columns, rows[i..], rowsErr, tk).panicked == total.panicked
        invariant acc.errorCalls == old(acc.errorCalls)
      {
        ghost var m0 := acc.metrics;
        assert rows[i..][0] == rows[i];
        var step := AccRow(columns, rows[i], acc);
        if step.Failed? {
          return Some(step.err), false;
        }
        if step.Panicked? {
          return None, true;
        }
        RunRowsEmitted(columns, rows, rowsErr, tk, i);
        i := i + 1;
      }
      assert rows[i..] == [];
      return rowsErr, false;
    }

    /** One unit of the cycle: gatherServer, then AddError with its result
        unless it panicked. */
    method RunOne(i: nat, q: string, acc: Accumulator, db: Database,
                  ghost results: Unit -> UnitResult, ghost before: seq<Unit>,
                  ghost m0: seq<Metric>, ghost e0: seq<Option<Error>>)
      returns (panicked: bool, ghost units: seq<Unit>)
      requires Agrees(results, Cycle(Servers, queries, tags, db))
      requires i < |Servers| && q in queries
      requires acc.metrics == m0 + RecordsOf(results, before)
      requires acc.errorCalls == e0 + ErrorCallsOf(results, before)
      modifies acc
      ensures units == before + [Unit(i, q)]
      ensures panicked == results(Unit(i, q)).panicked
      ensures acc.metrics == m0 + RecordsOf(results, units)
      ensures !panicked ==> acc.errorCalls == e0 + ErrorCallsOf(results, units)
      ensures panicked ==> acc.errorCalls == e0 + ErrorCallsOf(results, before)
    {
      var u := Unit(i, q);
      assert results(u) == UnitResultOf(Cycle(Servers, queries, tags, db), u);
      UnitsSnoc(results, before, u);
      units := before + [u];
      var err;
      err, panicked := GatherServer(u, Servers[i], queries[q], acc, db);
      if !panicked {
        acc.AddError(err);
      }
    }

    /** One server's share of the gather cycle: gatherServer for every query
        of the map, in the order of one walk over it, each result passed to
        AddError; a panic stops everything. `done` are the units run. */
    method GatherQueries(i: nat, acc: Accumulator, db: Database,
                         ghost results: Unit -> UnitResult)
      returns (panicked: bool, ghost order: seq<string>, ghost done: seq<Unit>)
      requires Agrees(results, Cycle(Servers, queries, tags, db))
      requires i < |Servers|
      modifies acc
      ensures Listing(order, queries.Keys)
      ensures done <= ServerUnits(i, order)
      ensures acc.metrics == old(acc.metrics) + RecordsOf(results, done)
      ensures !panicked ==>
                && done == ServerUnits(i, order)
                && NoPanics(results, done)
                && acc.errorCalls == old(acc.errorCalls) + ErrorCallsOf(results, done)
      ensures panicked ==>
                && |done| > 0
                && results(done[|done| - 1]).panicked
                && NoPanics(results, done[..|done| - 1])
                && acc.errorCalls == old(acc.errorCalls) + ErrorCallsOf(results, done[..|done| - 1])
    {
      ghost var m0, e0 := acc.metrics, acc.errorCalls;
      var keys := ListKeys(queries.Keys);
      order := keys;
      done := [];
      for k := 0 to |keys|
        invariant done == ServerUnits(i, keys[..k])
        invariant NoPanics(results, done)
        invariant acc.metrics == m0 + RecordsOf(results, done)
        invariant acc.errorCalls == e0 + ErrorCallsOf(results, done)
      {
        assert keys[k] in keys;
        ghost var previous := done;
        var p;
        p, done := RunOne(i, keys[k], acc, db, results, done, m0, e0);
        assert ServerUnits(i, keys[..k + 1]) == ServerUnits(i, keys[..k]) + [Unit(i, keys[k])];
        if p {
          assert done[..|done| - 1] == previous;
          assert ServerUnits(i, keys[..k + 1]) <= ServerUnits(i, keys);
          return true, order, done;
        }
      }
      assert keys[..|keys|] == keys;
      panicked := false;
    }

    /** One iteration of the loop over the servers: the units of server `i`
        appended to those of the servers before it. */
    method ServerStep(i: nat, acc: Accumulator, db: Database,
                      ghost results: Unit -> UnitResult, ghost m0: seq<Metric>, ghost e0: seq<Option<Error>>,
                      ghost orders: seq<seq<string>>, ghost units: seq<Unit>)
      returns (panicked: bool, ghost orders': seq<seq<string>>, ghost units': seq<Unit>)
      requires Agrees(results, Cycle(Servers, queries, tags, db))
      requires i < |Servers| && |orders| == i && Listings(orders, queries.Keys)
      requires units == AllUnits(orders)
      requires RunState(results, m0, e0, units, false, acc.metrics, acc.errorCalls)
      modifies acc
      ensures |orders'| == i + 1 && Listings(orders', queries.Keys)
      ensures units' <= AllUnits(orders')
      ensures !panicked ==> units' == AllUnits(orders')
      ensures RunState(results, m0, e0, units', panicked, acc.metrics, acc.errorCalls)
    {
      ghost var m1, e1 := acc.metrics, acc.errorCalls;
      ghost var order, done;
      panicked, order, done := GatherQueries(i, acc, db, results);
      RunStateAppend(results, m0, e0, units, m1, e1, done, panicked, acc.metrics, acc.errorCalls);
      AllUnitsSnoc(orders, order);
      ListingsSnoc(orders, order, queries.Keys);
      orders', units' := orders + [order], units + done;
      if panicked {
        assert (units + ServerUnits(i, order))[..|units + done|] == units + done;
      }
    }

    /** The fan-out of Gather, one server after another: every server walks
        the query map once; a panic ends the cycle. */
    method GatherServers(acc: Accumulator, db: Database,
                         ghost results: Unit -> UnitResult, ghost m0: seq<Metric>, ghost e0: seq<Option<Error>>)
      returns (crashed: bool, ghost orders: seq<seq<string>>, ghost units: seq<Unit>)
      requires Agrees(results, Cycle(Servers, queries, tags, db))
      requires acc.metrics == m0 && acc.errorCalls == e0
      modifies acc
      ensures |orders| <= |Servers| && Listings(orders, queries.Keys)
      ensures units <= AllUnits(orders)
      ensures !crashed ==> |orders| == |Servers| && units == AllUnits(orders)
      ensures RunState(results, m0, e0, units, crashed, acc.metrics, acc.errorCalls)
    {
      orders, units := [], [];
      assert m0 + RecordsOf(results, units) == m0 && e0 + ErrorCallsOf(results, units) == e0;
      for i := 0 to |Servers|
        invariant |orders| == i && Listings(orders, queries.Keys)
        invariant units == AllUnits(orders)
        invariant RunState(results, m0, e0, units, false, acc.metrics, acc.errorCalls)
      {
        var panicked;
        panicked, orders, units := ServerStep(i, acc, db, results, m0, e0, orders, units);
        if panicked {
          return true, orders, units;
        }
      }
      crashed := false;
    }

    /** The gather cycle. On the first call it initialises the queries and,
        if configured, discovers local instances; it then runs every
        (server, query) unit, each server walking the query map once,
        passes each unit's result to AddError, and returns nil; a panic in
        any unit crashes the process. */
    method Gather(acc: Accumulator, local: LocalHost, db: Database)
      returns (outcome: GatherOutcome, ghost orders: seq<seq<string>>, ghost units: seq<Unit>)
      modifies this`Servers, this`includeQueries, this`excludeQueries, this`tags, this`queries, this`isInitialized
      modifies acc
      ensures isInitialized
      ensures old(isInitialized) ==>
                && Servers == old(Servers) && queries == old(queries) && tags == old(tags)
                && includeQueries == old(includeQueries) && excludeQueries == old(excludeQueries)
      ensures !old(isInitialized) ==>
                && Initialized()
                && Servers == old(Servers) + (if LocalInstancesAutoDiscovery then Discovered(local) else [])
      ensures Listings(orders, queries.Keys)
      ensures units <= AllUnits(orders)
      ensures acc.metrics == old(acc.metrics) + RecordsOf(Outcomes(Cycle(Servers, queries, tags, db)), units)
      ensures outcome.Returned? ==>
                && outcome.err == None
                && |orders| == |Servers|
                && units == AllUnits(orders)
                && NoPanics(Outcomes(Cycle(Servers, queries, tags, db)), units)
                && acc.errorCalls == old(acc.errorCalls)
                                     + ErrorCallsOf(Outcomes(Cycle(Servers, queries, tags, db)), units)
      ensures outcome.Crashed? ==>
                && |units| > 0
                && UnitResultOf(Cycle(Servers, queries, tags, db), units[|units| - 1]).panicked
                && NoPanics(Outcomes(Cycle(Servers, queries, tags, db)), units[..|units| - 1])
                && acc.errorCalls == old(acc.errorCalls)
                                     + ErrorCallsOf(Outcomes(Cycle(Servers, queries, tags, db)), units[..|units| - 1])
    {
      if !isInitialized {
        InitQueries();
        if LocalInstancesAutoDiscovery {
          IncludeConnStringsForLocalInstances(local);
        }
      }
      ghost var results := Outcomes(Cycle(Servers, queries, tags, db));
      var crashed;
      crashed, orders, units := GatherServers(acc, db, results, acc.metrics, acc.errorCalls);
      outcome := if crashed then Crashed else Returned(None);
    }
  }
}
