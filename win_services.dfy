/** The Windows services input plugin: the service error and its text, the
    permission test, the name filter, the listing of services, the
    collection of one service's information, and the gather loop that turns
    each collected service into one record. The service control manager is
    replaced by a Manager value that says what each of its calls returns;
    the glob library by a GlobLibrary value. */
module WinServicesPlugin {
  import opened Telegraf

  /** An error from the operating system, with what os.IsPermission says
      of it. */
  datatype SysError = SysError(text: string, permission: bool)

  /** The error collectServiceInfo returns: the step that failed, the
      service, and the underlying error. */
  datatype ServiceErr = ServiceErr(message: string, service: string, err: SysError)

  /** An error as IsPermission receives it: a ServiceErr, or any other error. */
  datatype AnyError = IsServiceErr(serviceErr: ServiceErr) | OtherError(other: Error)

  /** The information gathered about one service. */
  datatype ServiceInfo = ServiceInfo(serviceName: string, displayName: string, state: int, startUpMode: int)

  /** The part of a service's configuration the plugin reads. */
  datatype Config = Config(displayName: string, startType: int)

  /** What the calls on an opened service return: Query gives the state. */
  datatype Service = Service(query: Result<int, SysError>, config: Result<Config, SysError>)

  /** What the calls on a connected service manager return. */
  datatype Manager = Manager(list: Result<seq<string>, SysError>, open: string -> Result<Service, SysError>)

  /** The glob library: whether a pattern list compiles, and whether a
      compiled pattern list matches a name. Both are left uninterpreted. */
  datatype GlobLibrary = GlobLibrary(compile: seq<string> -> Option<Error>, matches: (seq<string>, string) -> bool)

  /** A compiled filter, known by the patterns it was compiled from. */
  datatype Filter = Filter(patterns: seq<string>)

  const OpenMessage: string := "could not open service"
  const QueryMessage: string := "could not query service"
  const ConfigMessage: string := "could not get config of service"

  const Measurement: string := "win_services"

  /** The text of a ServiceErr, as its Error method formats it. */
  function ServiceErrText(e: ServiceErr): string
  {
    e.message + ": '" + e.service + "': " + e.err.text
  }

  /** The first position of `c` in `s`, or |s| if it does not occur. */
  function IndexOf(s: string, c: char): (r: nat)
    ensures r <= |s|
    ensures r < |s| ==> s[r] == c
    ensures forall k | 0 <= k < r :: s[k] != c
    decreases |s|
  {
    if s == [] then 0
    else if s[0] == c then 0
    else 1 + IndexOf(s[1..], c)
  }

  /** Splits an error text back into message, service and underlying text:
      the message runs to the first colon, the service to the first quote
      after it. */
  function ParseServiceErrText(s: string): Option<(string, string, string)>
  {
    var i := IndexOf(s, ':');
    if i + 3 <= |s| && s[i..i + 3] == ": '" then
      var rest := s[i + 3..];
      var j := IndexOf(rest, '\'');
      if j + 3 <= |rest| && rest[j..j + 3] == "': " then Some((s[..i], rest[..j], rest[j + 3..]))
      else None
    else None
  }

  lemma IndexOfAfter(a: string, b: string, c: char)
    requires c !in a && |b| > 0 && b[0] == c
    ensures IndexOf(a + b, c) == |a|
  {
    assert forall k | 0 <= k < |a| :: (a + b)[k] == a[k];
    assert (a + b)[|a|] == c;
  }

  /** The text of a ServiceErr keeps all three parts: when the message has
      no colon and the service name no quote, they can be read back. */
  lemma ServiceErrTextRoundTrip(e: ServiceErr)
    requires ':' !in e.message && '\'' !in e.service
    ensures ParseServiceErrText(ServiceErrText(e)) == Some((e.message, e.service, e.err.text))
  {
    var s := ServiceErrText(e);
    var tail := ": '" + e.service + "': " + e.err.text;
    assert s == e.message + tail;
    IndexOfAfter(e.message, tail, ':');
    var i := |e.message|;
    assert s[i..i + 3] == ": '";
    var rest := s[i + 3..];
    var after := "': " + e.err.text;
    assert rest == e.service + after;
    IndexOfAfter(e.service, after, '\'');
    var j := |e.service|;
    assert rest[j..j + 3] == "': ";
    assert s[..i] == e.message;
    assert rest[..j] == e.service && rest[j + 3..] == e.err.text;
  }

  /** None of the three step messages holds a colon. */
  lemma MessagesHaveNoColon()
    ensures ':' !in OpenMessage && ':' !in QueryMessage && ':' !in ConfigMessage
  {
  }

  /** Only a ServiceErr can be a permission error, and then exactly when
      the operating system says its underlying error is one. */
  predicate IsPermission(err: AnyError)
    ensures IsPermission(err) ==> err.IsServiceErr?
  {
    match err
    case IsServiceErr(e) => e.err.permission
    case OtherError(_) => false
  }

  /** collectServiceInfo: open the service, query its status, read its
      configuration; the first step that fails names itself in the error. */
  function CollectServiceInfo(m: Manager, serviceName: string): Result<ServiceInfo, ServiceErr>
  {
    match m.open(serviceName)
    case Failure(e) => Failure(ServiceErr(OpenMessage, serviceName, e))
    case Success(srv) =>
      match srv.query
      case Failure(e) => Failure(ServiceErr(QueryMessage, serviceName, e))
      case Success(state) =>
        match srv.config
        case Failure(e) => Failure(ServiceErr(ConfigMessage, serviceName, e))
        case Success(cfg) => Success(ServiceInfo(serviceName, cfg.displayName, state, cfg.startType))
  }

  /** Collection succeeds exactly when all three steps do, and then copies
      the name, display name, state and start type; otherwise the error names
      the service, the first failing step, and that step's own error. */
  lemma CollectServiceInfoOutcome(m: Manager, serviceName: string)
    ensures var r := CollectServiceInfo(m, serviceName);
            && (r.Success? <==> m.open(serviceName).Success? && m.open(serviceName).value.query.Success?
                                && m.open(serviceName).value.config.Success?)
            && (r.Success? ==>
                  var srv := m.open(serviceName).value;
                  r.value == ServiceInfo(serviceName, srv.config.value.displayName, srv.query.value, srv.config.value.startType))
            && (r.Failure? ==>
                  && r.error.service == serviceName
                  && (m.open(serviceName).Failure? ==> r.error == ServiceErr(OpenMessage, serviceName, m.open(serviceName).error))
                  && (m.open(serviceName).Success? && m.open(serviceName).value.query.Failure? ==>
                        r.error == ServiceErr(QueryMessage, serviceName, m.open(serviceName).value.query.error))
                  && (m.open(serviceName).Success? && m.open(serviceName).value.query.Success? ==>
                        r.error == ServiceErr(ConfigMessage, serviceName, m.open(serviceName).value.config.error)))
  {
  }

  /** A failed collection is a permission error exactly when the step that
      failed was refused by the operating system for lack of permission. */
  lemma CollectErrorPermission(m: Manager, serviceName: string)
    requires CollectServiceInfo(m, serviceName).Failure?
    ensures var e := CollectServiceInfo(m, serviceName).error;
            IsPermission(IsServiceErr(e))
            <==> (match m.open(serviceName)
                  case Failure(oe) => oe.permission
                  case Success(srv) =>
                    if srv.query.Failure? then srv.query.error.permission else srv.config.error.permission)
  {
  }

  /** The text of a failed collection's error reads back as the failing
      step's message, the service and that step's own error. */
  lemma CollectErrorText(m: Manager, serviceName: string)
    requires '\'' !in serviceName
    requires CollectServiceInfo(m, serviceName).Failure?
    ensures var e := CollectServiceInfo(m, serviceName).error;
            && e.message in {OpenMessage, QueryMessage, ConfigMessage}
            && ParseServiceErrText(ServiceErrText(e)) == Some((e.message, serviceName, e.err.text))
  {
    var e := CollectServiceInfo(m, serviceName).error;
    MessagesHaveNoColon();
    ServiceErrTextRoundTrip(e);
  }

  /** The names a filter keeps, in the order they are given. */
  function Matching(lib: GlobLibrary, f: Filter, names: seq<string>): seq<string>
    decreases |names|
  {
    if names == [] then []
    else
      var n := |names| - 1;
      Matching(lib, f, names[..n]) + (if lib.matches(f.patterns, names[n]) then [names[n]] else [])
  }

  /** Filtering keeps exactly the matching names, never adds one, and
      keeps their relative order: filtering two lists one after the other is
      filtering their concatenation. */
  lemma {:induction false} MatchingMeaning(lib: GlobLibrary, f: Filter, names: seq<string>)
    ensures forall s :: s in Matching(lib, f, names) <==> s in names && lib.matches(f.patterns, s)
    ensures |Matching(lib, f, names)| <= |names|
    decreases |names|
  {
    if names != [] {
      var n := |names| - 1;
      MatchingMeaning(lib, f, names[..n]);
      assert names == names[..n] + [names[n]];
    }
  }

  lemma {:induction false} MatchingAppend(lib: GlobLibrary, f: Filter, a: seq<string>, b: seq<string>)
    ensures Matching(lib, f, a + b) == Matching(lib, f, a) + Matching(lib, f, b)
    decreases |b|
  {
    if b == [] {
      assert a + b == a;
    } else {
      var n := |b| - 1;
      assert (a + b)[..|a + b| - 1] == a + b[..n];
      assert (a + b)[|a + b| - 1] == b[n];
      MatchingAppend(lib, f, a, b[..n]);
    }
  }

  /** listServices: the manager's list, filtered, in the manager's order;
      a failed listing gives no names and the wrapped error. */
  method ListServices(m: Manager, lib: GlobLibrary, f: Filter) returns (r: Result<seq<string>, Error>)
    ensures r.Failure? <==> m.list.Failure?
    ensures r.Failure? ==> r.error == Error("Could not list services: " + m.list.error.text)
    ensures r.Success? ==> r.value == Matching(lib, f, m.list.value)
  {
    if m.list.Failure? {
      return Failure(Error("Could not list services: " + m.list.error.text));
    }
    var names := m.list.value;
    var services: seq<string> := [];
    for i := 0 to |names|
      invariant services == Matching(lib, f, names[..i])
    {
      assert names[..i + 1][..i] == names[..i];
      if lib.matches(f.patterns, names[i]) {
        services := services + [names[i]];
      }
    }
    assert names[..|names|] == names;
    return Success(services);
  }

  /** The record for one collected service: the service name as a tag, the
      display name as a tag only when it is not empty, state and start-up
      mode as integer fields. */
  function ServiceMetric(info: ServiceInfo): Metric
  {
    var tags := map["service_name" := info.serviceName];
    Metric(Measurement,
           map["state" := VInt(info.state), "startup_mode" := VInt(info.startUpMode)],
           if |info.displayName| > 0 then tags["display_name" := info.displayName] else tags)
  }

  lemma ServiceMetricShape(info: ServiceInfo)
    ensures var r := ServiceMetric(info);
            && r.measurement == "win_services"
            && r.tags.Keys == {"service_name"} + (if info.displayName != "" then {"display_name"} else {})
            && r.tags["service_name"] == info.serviceName
            && ("display_name" in r.tags ==> r.tags["display_name"] == info.displayName)
            && r.fields.Keys == {"state", "startup_mode"}
            && r.fields["state"] == VInt(info.state)
            && r.fields["startup_mode"] == VInt(info.startUpMode)
  {
  }

  /** The records the gather loop emits for `names`: one per service that
      collects, in order; a service that fails adds nothing. */
  function ServiceRecords(m: Manager, names: seq<string>): seq<Metric>
    decreases |names|
  {
    if names == [] then []
    else
      var n := |names| - 1;
      var info := CollectServiceInfo(m, names[n]);
      ServiceRecords(m, names[..n]) + (if info.Success? then [ServiceMetric(info.value)] else [])
  }

  lemma {:induction false} ServiceRecordsAppend(m: Manager, a: seq<string>, b: seq<string>)
    ensures ServiceRecords(m, a + b) == ServiceRecords(m, a) + ServiceRecords(m, b)
    decreases |b|
  {
    if b == [] {
      assert a + b == a;
    } else {
      var n := |b| - 1;
      assert (a + b)[..|a + b| - 1] == a + b[..n];
      assert (a + b)[|a + b| - 1] == b[n];
      ServiceRecordsAppend(m, a, b[..n]);
    }
  }

  /** A service that fails to collect is skipped: the records are those of
      the services before it followed by those of the services after it. */
  lemma FailingServiceSkipped(m: Manager, names: seq<string>, k: nat)
    requires k < |names| && CollectServiceInfo(m, names[k]).Failure?
    ensures ServiceRecords(m, names) == ServiceRecords(m, names[..k]) + ServiceRecords(m, names[k + 1..])
  {
    assert names == names[..k] + [names[k]] + names[k + 1..];
    ServiceRecordsAppend(m, names[..k] + [names[k]], names[k + 1..]);
    ServiceRecordsAppend(m, names[..k], [names[k]]);
    assert ServiceRecords(m, [names[k]]) == ServiceRecords(m, [names[k]][..0]) + [];
  }

  /** Every record is the record of a listed service that collected, every
      such service has its record, and there are never more records than
      services; when every service collects there is one record each. */
  lemma {:induction false} ServiceRecordsMeaning(m: Manager, names: seq<string>)
    ensures forall r | r in ServiceRecords(m, names) ::
              exists i | 0 <= i < |names| :: CollectServiceInfo(m, names[i]).Success?
                                             && r == ServiceMetric(CollectServiceInfo(m, names[i]).value)
    ensures forall i | 0 <= i < |names| && CollectServiceInfo(m, names[i]).Success? ::
              ServiceMetric(CollectServiceInfo(m, names[i]).value) in ServiceRecords(m, names)
    ensures |ServiceRecords(m, names)| <= |names|
    ensures (forall i | 0 <= i < |names| :: CollectServiceInfo(m, names[i]).Success?) ==>
              |ServiceRecords(m, names)| == |names|
    decreases |names|
  {
    if names != [] {
      var n := |names| - 1;
      var front := names[..n];
      ServiceRecordsMeaning(m, front);
      assert forall i | 0 <= i < n :: front[i] == names[i];
    }
  }

  /** The state the plugin keeps: the configured names and, once compiled,
      the filter. */
  class WinServices {
    var ServiceNames: seq<string>
    var filter: Option<Filter>

    constructor (serviceNames: seq<string>)
      ensures ServiceNames == serviceNames && filter == None
    {
      ServiceNames := serviceNames;
      filter := None;
    }

    /** An empty name list stands for every service; the list is then
        compiled into the filter, which stays unset if compiling fails. */
    method InitFilter(lib: GlobLibrary) returns (err: Option<Error>)
      modifies this
      ensures ServiceNames == if old(ServiceNames) == [] then ["*"] else old(ServiceNames)
      ensures err == lib.compile(ServiceNames)
      ensures filter == if err.None? then Some(Filter(ServiceNames)) else None
    {
      if |ServiceNames| == 0 {
        ServiceNames := ServiceNames + ["*"];
      }
      err := lib.compile(ServiceNames);
      filter := if err.None? then Some(Filter(ServiceNames)) else None;
    }

    /** The gather cycle: compile the filter on first use, connect to the
        service manager, list and filter the services, and emit one record
        per service that collects; services that fail are skipped. A failure
        to compile, connect or list ends the cycle with that error and no
        records. */
    method Gather(acc: Accumulator, lib: GlobLibrary, connect: Result<Manager, SysError>)
      returns (err: Option<Error>)
      modifies this, acc
      ensures acc.errorCalls == old(acc.errorCalls)
      ensures old(filter).Some? ==> ServiceNames == old(ServiceNames) && filter == old(filter)
      ensures old(filter).None? ==> ServiceNames == if old(ServiceNames) == [] then ["*"] else old(ServiceNames)
      ensures old(filter).None? && lib.compile(ServiceNames).Some? ==>
                && err == lib.compile(ServiceNames) && filter == None
                && acc.metrics == old(acc.metrics)
      ensures old(filter).None? && lib.compile(ServiceNames).None? ==> filter == Some(Filter(ServiceNames))
      ensures filter.Some? && connect.Failure? ==>
                && err == Some(Error("Could not open service manager: " + connect.error.text))
                && acc.metrics == old(acc.metrics)
      ensures filter.Some? && connect.Success? && connect.value.list.Failure? ==>
                && err == Some(Error("Could not list services: " + connect.value.list.error.text))
                && acc.metrics == old(acc.metrics)
      ensures filter.Some? && connect.Success? && connect.value.list.Success? ==>
                && err == None
                && acc.metrics == old(acc.metrics)
                                  + ServiceRecords(connect.value,
                                                   Matching(lib, filter.value, connect.value.list.value))
    {
      if filter.None? {
        var e := InitFilter(lib);
        if e.Some? {
          return e;
        }
      }
      if connect.Failure? {
        return Some(Error("Could not open service manager: " + connect.error.text));
      }
      var scmgr := connect.value;
      var listed := ListServices(scmgr, lib, filter.value);
      if listed.Failure? {
        return Some(listed.error);
      }
      var serviceNames := listed.value;
      ghost var m0, names0, filter0 := acc.metrics, ServiceNames, filter;
      for i := 0 to |serviceNames|
        invariant acc.metrics == m0 + ServiceRecords(scmgr, serviceNames[..i])
        invariant ServiceNames == names0 && filter == filter0
        invariant acc.errorCalls == old(acc.errorCalls)
      {
        assert serviceNames[..i + 1][..i] == serviceNames[..i];
        var service := CollectServiceInfo(scmgr, serviceNames[i]);
        if service.Failure? {
          continue;
        }
        var info := service.value;
        var tags := map["service_name" := info.serviceName];
        if |info.displayName| > 0 {
          tags := tags["display_name" := info.displayName];
        }
        var fields := map["state" := VInt(info.state), "startup_mode" := VInt(info.startUpMode)];
        acc.AddFields(Measurement, fields, tags);
      }
      assert serviceNames[..|serviceNames|] == serviceNames;
      return None;
    }
  }

  /** A scenario: of three listed services the filter keeps two; the first
      collects with a display name, the second cannot be opened; the cycle
      emits one record, tagged with both names. */
  lemma GatherExample()
    ensures var open := (n: string) => if n == "A" then Success(Service(Success(4), Success(Config("Alpha", 2))))
                                       else Failure(SysError("Access is denied.", true));
            var m := Manager(Success(["A", "B", "C"]), open);
            var lib := GlobLibrary((p: seq<string>) => None, (p: seq<string>, n: string) => n != "C");
            ServiceRecords(m, Matching(lib, Filter(["*"]), m.list.value))
            == [Metric("win_services", map["state" := VInt(4), "startup_mode" := VInt(2)],
                       map["service_name" := "A", "display_name" := "Alpha"])]
  {
    var open := (n: string) => if n == "A" then Success(Service(Success(4), Success(Config("Alpha", 2))))
                               else Failure(SysError("Access is denied.", true));
    var m := Manager(Success(["A", "B", "C"]), open);
    var lib := GlobLibrary((p: seq<string>) => None, (p: seq<string>, n: string) => n != "C");
    var f := Filter(["*"]);
    assert ["A", "B", "C"][..2] == ["A", "B"] && ["A", "B"][..1] == ["A"] && ["A"][..0] == [];
    assert Matching(lib, f, ["A", "B", "C"]) == ["A", "B"];
    assert ServiceRecords(m, ["A", "B"]) == ServiceRecords(m, ["A"]);
  }
}
