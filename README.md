# SQL Server and Windows services input plugins, modelled in Dafny

This project models two Telegraf input plugins.

The first is the metric-gathering engine of the SQL Server input plugin:
- it selects the named diagnostic queries to run (two catalogs chosen by `QueryVersion`, two extra Azure queries, an include and an exclude list);
- it initialises once, optionally appending connection strings for the local instances;
- it runs every (server, query) unit and passes each unit's result to `AddError`;
- it turns each result row into one record by classifying each column as the measurement, a tag or a field.

The second is the record-shaping loop of the Windows services input plugin:
- the service error and its text, and the permission test;
- the default `["*"]` name filter;
- listing and filtering the services, and collecting one service's information;
- one `win_services` record per service that collects.

Files:
- `telegraf.dfy` (module `Telegraf`): the shared types. These are option and result types, Go errors kept as their text, dynamically typed values, the metric record, and the `Accumulator` class, which records every `AddFields` and `AddError` call in order.
- `sqlserver_queries.dfy` (module `SqlQueries`): the catalogs, the filter closure and the selection fold, with their lemmas.
- `sqlserver_rows.dfy` (module `SqlRows`): the database's answers as a `Response` value, row decoding (`accRow`) and the row loop of `gatherServer`.
- `sqlserver_plugin.dfy` (module `SqlServerPlugin`): the `SQLServer` class, local-instance connection strings, and the gather cycle with its unit bookkeeping.
- `win_services.dfy` (module `WinServicesPlugin`): the Windows services plugin.

Design decisions:
- The database, the registry, the host name, the service control manager and the glob library are inputs. A `Response` says how far one unit gets: open, query, columns, then one outcome per row. `LocalHost` gives the instance list and the host name, each possibly an error. `Manager` gives the result of each service manager call. `GlobLibrary` gives whether a pattern list compiles and whether it matches a name.
- The goroutines of the SQL Server `Gather` run one after another. Go leaves the order of a walk over the query map unspecified, so each server's walk is an arbitrary listing of the map's keys, returned as a ghost value. The order in which `accRow` walks `columnMap` is left open in the same way.
- A failed type assertion in `accRow` panics in Go. Here it is an explicit outcome, `Panicked`. A panicking goroutine takes the whole process down, so in `Gather` it ends the cycle (`Crashed`) before that unit's `AddError` call.

Behaviour of the code worth knowing, which the model keeps as written:
- **Query selection.** The plugin's sample configuration describes `include_query` as "A list of queries to include" (sqlserver.go:108). But the exclude test overwrites the include result (sqlserver.go:163-166). So when the exclude list is not empty, the include list has no effect, and a catalog name in neither list is selected. `SelectedWithExclude` and `ExcludeOverridesInclude` state this.
- **Missing measurement column.** A row without a `measurement` column is not an error. The code emits the record with an empty measurement name (sqlserver.go:403, 415). `MissingMeasurementIsEmpty` states this.
- **Error context.** The error a unit passes to `AddError` is the driver's error, unchanged (sqlserver.go:339). It does not name the server or the query, and the model does the same.
- **Database answers per unit.** The database is asked once per unit, with the unit, its connection string and its script. So two units with the same connection string and script, such as a configured server that discovery appends again, may be answered differently, as two goroutines opening their own connections can be.

## Model

| member | source | states |
|---|---|---|
| `SqlQueries.SelectQueriesMeaning` | plugins/inputs/sqlserver/sqlserver.go:157-288 | The selected names are exactly the candidate names (the Azure names when AzureDB is set, then the catalog of the chosen version) that the filter admits. Each selected name is bound to its own catalog script. |
| `SqlQueries.SelectedWithoutExclude` | plugins/inputs/sqlserver/sqlserver.go:157-162 | With an empty exclude list: an empty include list selects every candidate, and a non-empty include list selects candidates ∩ include. |
| `SqlQueries.SelectedWithExclude` | plugins/inputs/sqlserver/sqlserver.go:163-166 | With a non-empty exclude list, the selected names are exactly the candidates minus the exclude list, whatever the include list holds. |
| `SqlQueries.ExcludeOverridesInclude` | plugins/inputs/sqlserver/sqlserver.go:160-166 | A concrete case: with include {Cpu} and exclude {Schedulers}, PerformanceCounters is selected and Schedulers is not. |
| `SqlQueries.SelectedFromOneCatalog` | plugins/inputs/sqlserver/sqlserver.go:174-288 | The selected keys lie within the catalog chosen by the version (V2 iff QueryVersion == 2), plus the Azure names. An Azure name is selected iff AzureDB is set and the filter admits it. Every selected script comes from those catalogs. |
| `SqlQueries.AddSelectedKeys` | plugins/inputs/sqlserver/sqlserver.go:175-287 | The run of `if filter(name) { queries[name] = ... }` statements adds exactly the admitted names to the map's keys. |
| `SqlQueries.AddSelectedValues` | plugins/inputs/sqlserver/sqlserver.go:175-287 | Over entries with distinct names, each admitted name ends up bound to its entry's script, and names not in the run keep their bindings. |
| `SqlQueries.CandidatesDistinct` | plugins/inputs/sqlserver/sqlserver.go:174-288 | Within each version the tested names are pairwise distinct, so no assignment overwrites another. |
| `SqlQueries.AzureNamesApart` | plugins/inputs/sqlserver/sqlserver.go:174-181 | No Azure query name coincides with a catalog query name. |
| `SqlRows.DecodeMeaning` | plugins/inputs/sqlserver/sqlserver.go:396-415 | A row panics iff the measurement column or a tag-key column holds a non-string. Otherwise: the measurement is that column's text ("" when absent); the tags are exactly the tag-key columns other than `measurement`, each with its text; the fields are exactly the other columns, with values unchanged. |
| `SqlRows.Decode` | plugins/inputs/sqlserver/sqlserver.go:404-417 | Once Scan has succeeded, decoding never returns an error: it emits a record or panics. |
| `SqlRows.MissingMeasurementIsEmpty` | plugins/inputs/sqlserver/sqlserver.go:403-415 | A row without a `measurement` column (and no mistyped tag) is emitted with measurement "". |
| `SqlRows.DecodeExample` | plugins/inputs/sqlserver/sqlserver.go:378-418 | Columns measurement="m", host="h1" (a tag key) and value=42 give the record {measurement m, tags {host: h1}, fields {value: 42}}. |
| `SqlRows.ColumnMapKeys` | plugins/inputs/sqlserver/sqlserver.go:383-388 | The column map holds exactly the column names. |
| `SqlRows.ColumnMapAt` | plugins/inputs/sqlserver/sqlserver.go:383-391 | A column whose name does not recur later holds its own scanned value. |
| `SqlRows.VisitColumn` | plugins/inputs/sqlserver/sqlserver.go:404-412 | Visiting one more column extends exactly one of measurement, tags or fields, as its name classifies it. |
| `SqlRows.BuildColumnMap` | plugins/inputs/sqlserver/sqlserver.go:383-388 | The first loop of accRow builds the column map, the last occurrence of a name winning. |
| `SqlRows.ClassifyColumns` | plugins/inputs/sqlserver/sqlserver.go:398-412 | The classification loop, visiting columns in an arbitrary order, gives the same record or panic as `Decode`. |
| `SqlRows.DecodeRow` | plugins/inputs/sqlserver/sqlserver.go:379-412 | Both loops of accRow after a successful Scan equal `Decode` of the column map. |
| `SqlRows.RunRowsStopsAtFirstFailure` | plugins/inputs/sqlserver/sqlserver.go:369-375 | A unit's records are exactly the records of its rows before the first row that yields none, and they stay emitted. That row's Scan error or panic ends the unit. If every row yields a record, the unit returns rows.Err. |
| `SqlRows.RunRowsEmitted` | plugins/inputs/sqlserver/sqlserver.go:369-374 | A row that yields a record puts it in front of the records of later rows and leaves the unit's error unchanged. |
| `SqlRows.UnitFailsBeforeRows` | plugins/inputs/sqlserver/sqlserver.go:350-367 | A unit whose open, query or column read fails emits nothing and returns that step's error. |
| `SqlServerPlugin.SetOf` | plugins/inputs/sqlserver/sqlserver.go:125-150 | The loops of initIncludeQueries, initExcludeQueries and initTags build exactly the set of listed names. |
| `SqlServerPlugin.SQLServer.InitIncludeQueries` | plugins/inputs/sqlserver/sqlserver.go:125-132 | includeQueries becomes the set of IncludeQuery names. |
| `SqlServerPlugin.SQLServer.InitExcludeQueries` | plugins/inputs/sqlserver/sqlserver.go:134-141 | excludeQueries becomes the set of ExcludeQuery names. |
| `SqlServerPlugin.SQLServer.InitTags` | plugins/inputs/sqlserver/sqlserver.go:143-150 | tags becomes the set of TagKeys names. |
| `SqlServerPlugin.SQLServer.InitQueries` | plugins/inputs/sqlserver/sqlserver.go:152-292 | Builds the three lookup sets and the selected query map, and sets isInitialized. |
| `SqlServerPlugin.SQLServer.constructor` | plugins/inputs/sqlserver/sqlserver.go:20-34 | A configured plugin with the derived state empty and isInitialized false. |
| `SqlServerPlugin.DefaultInstanceIff` | plugins/inputs/sqlserver/sqlserver.go:298 | An instance gets the host-only connection string iff its name is MSSQLSERVER in any letter case: eleven characters, each the upper-case letter, its lower case, or a character (long s, dotless i) that upper-cases to it. |
| `SqlServerPlugin.DefaultInstanceSpellings` | plugins/inputs/sqlserver/sqlserver.go:298 | Examples: MSSQLSERVER, mssqlserver and MsSqlServer are the default instance; SQLEXPRESS and MSSQLSERVER2 are not. |
| `SqlServerPlugin.ConnStringServer` | plugins/inputs/sqlserver/sqlserver.go:298-302 | A generated connection string is `Server=<server>;Integrated Security=SSPI;`, where server is the host for the default instance and host\instance otherwise. |
| `SqlServerPlugin.SQLServer.IncludeConnStringsForLocalInstances` | plugins/inputs/sqlserver/sqlserver.go:294-306 | Servers becomes the old Servers followed by one string per discovered instance, in order. If the registry read or the host name lookup fails, Servers is unchanged. |
| `SqlServerPlugin.SQLServer.AccRow` | plugins/inputs/sqlserver/sqlserver.go:378-418 | A Scan failure (or a column-count mismatch) returns the error and emits nothing. Otherwise the decoded record is handed to AddFields, or the row panics. |
| `SqlServerPlugin.SQLServer.AccRows` | plugins/inputs/sqlserver/sqlserver.go:369-375 | The row loop emits exactly the records the row specification gives and returns its error or panic. |
| `SqlServerPlugin.SQLServer.GatherServer` | plugins/inputs/sqlserver/sqlserver.go:348-376 | One unit emits exactly the records of `RunUnit` for its response, returns that unit's error, and makes no AddError call itself. |
| `SqlServerPlugin.ListKeys` | plugins/inputs/sqlserver/sqlserver.go:335 | A walk over the query map lists every key exactly once. |
| `SqlServerPlugin.AllUnitsExactlyOnce` | plugins/inputs/sqlserver/sqlserver.go:334-342 | When every server walks the query map once, the cycle has exactly |Servers|×|queries| units. Every (server, query) pair occurs, and each occurs once. |
| `SqlServerPlugin.OneErrorCallPerUnit` | plugins/inputs/sqlserver/sqlserver.go:334-342 | A full cycle makes |Servers|×|queries| AddError calls, the k-th carrying the k-th unit's own error. |
| `SqlServerPlugin.ErrorCallsAt` | plugins/inputs/sqlserver/sqlserver.go:339 | One AddError call per unit run, carrying that unit's result. |
| `SqlServerPlugin.RunsAppend` | plugins/inputs/sqlserver/sqlserver.go:337-341 | Units are isolated: the records and AddError calls of a run are those of its first part followed by those of the rest, whatever either part returned. |
| `SqlServerPlugin.SQLServer.RunOne` | plugins/inputs/sqlserver/sqlserver.go:337-340 | One goroutine body: gatherServer, then AddError with its result unless it panicked. |
| `SqlServerPlugin.SQLServer.GatherQueries` | plugins/inputs/sqlserver/sqlserver.go:335-341 | One server's units, in the order of one walk over the query map. Each unit's records and AddError call are appended, and a panic stops the cycle. |
| `SqlServerPlugin.SQLServer.ServerStep` | plugins/inputs/sqlserver/sqlserver.go:334-342 | The units of server i are appended to those of the servers before it. |
| `SqlServerPlugin.SQLServer.GatherServers` | plugins/inputs/sqlserver/sqlserver.go:334-344 | Every server walks the query map once. The accumulator ends with every unit's records and AddError calls, or, after a panic, with those of the units before it. |
| `SqlServerPlugin.SQLServer.Gather` | plugins/inputs/sqlserver/sqlserver.go:324-346 | After any call isInitialized holds. The first call initialises queries and (if configured) appends the discovered servers; later calls leave Servers, queries and the lookup sets unchanged. The cycle runs all |Servers|×|queries| units, with one AddError call each and the records of all units, and returns nil unless a unit panicked. |
| `WinServicesPlugin.ServiceErrTextRoundTrip` | plugins/inputs/win_services/win_services.go:23-25 | The text `Message: 'Service': err` keeps its three parts: when the message has no colon and the service no quote, they read back exactly. |
| `WinServicesPlugin.MessagesHaveNoColon` | plugins/inputs/win_services/win_services.go:205-225 | None of the three step messages contains a colon, so their error texts parse back. |
| `WinServicesPlugin.IsPermission` | plugins/inputs/win_services/win_services.go:28-33 | Only a ServiceErr can be a permission error. |
| `WinServicesPlugin.CollectErrorPermission` | plugins/inputs/win_services/win_services.go:28-33 | For any service name, the error of a failed collection is a permission error iff the failing step's own error is one. |
| `WinServicesPlugin.CollectErrorText` | plugins/inputs/win_services/win_services.go:23-25 | The error of a failed collection carries one of the three step messages, and its text reads back as that message, the service name and the step's own error (for a name without a quote). |
| `WinServicesPlugin.CollectServiceInfoOutcome` | plugins/inputs/win_services/win_services.go:201-237 | Collection succeeds iff open, query and config all succeed, and then copies the name, display name, state and start type. Otherwise the error names the service and the first failing step ("could not open service", "could not query service", "could not get config of service") with that step's own error. |
| `WinServicesPlugin.MatchingMeaning` | plugins/inputs/win_services/win_services.go:190-195 | The filtered list holds exactly the listed names the filter matches, and is no longer than the list. |
| `WinServicesPlugin.MatchingAppend` | plugins/inputs/win_services/win_services.go:190-195 | Filtering preserves order: filtering a concatenation is the concatenation of the filtered parts. |
| `WinServicesPlugin.ListServices` | plugins/inputs/win_services/win_services.go:184-198 | It fails iff the manager's listing fails, with "Could not list services: " and the error. Otherwise it returns the matching names in the manager's order. |
| `WinServicesPlugin.ServiceMetricShape` | plugins/inputs/win_services/win_services.go:165-177 | A record is named win_services. It has a service_name tag, a display_name tag iff the display name is non-empty, and exactly the integer fields state and startup_mode. |
| `WinServicesPlugin.ServiceRecordsMeaning` | plugins/inputs/win_services/win_services.go:154-178 | Every record belongs to a listed service that collected, and every such service has its record. There are never more records than services, and one per service when all collect. |
| `WinServicesPlugin.ServiceRecordsAppend` | plugins/inputs/win_services/win_services.go:154-178 | The records of a list of services are the records of its parts, in order. |
| `WinServicesPlugin.FailingServiceSkipped` | plugins/inputs/win_services/win_services.go:155-163 | A service that fails to collect adds nothing, and the loop goes on with the next service. |
| `WinServicesPlugin.GatherExample` | plugins/inputs/win_services/win_services.go:154-178 | Three listed services: the filter drops one, one cannot be opened, and one collects. The cycle emits exactly the collected service's record, with both name tags. |
| `WinServicesPlugin.WinServices.constructor` | plugins/inputs/win_services/win_services.go:98-104 | A configured plugin with no filter compiled yet. |
| `WinServicesPlugin.WinServices.InitFilter` | plugins/inputs/win_services/win_services.go:124-132 | An empty ServiceNames becomes ["*"], and a non-empty one is kept. The filter is compiled from it and stays unset if compiling fails, whose error is returned. |
| `WinServicesPlugin.WinServices.Gather` | plugins/inputs/win_services/win_services.go:135-181 | The filter is compiled only when unset, and is set after a successful compile. A compile, connect or list failure returns its error and emits nothing. Otherwise the call, the first one included, returns nil after emitting exactly the records of the matching services that collect, in the manager's order. |

## Left out

- Query texts (sqlserver.go:426-3708): each is represented by the name of the Go constant that holds it.
- `sql.Open`, `conn.Query`, `rows.Columns`, `rows.Next`, `rows.Scan`, `rows.Err` and the deferred `Close` calls: database driver I/O. They are replaced by the `Response` value. Connection release (`defer conn.Close()`, `defer rows.Close()`) is not modelled, because Go's `defer` runs it on every return path.
- Scan's conversions: a scanned row is a sequence of dynamic values. A Scan with the wrong number of destinations is modelled only by the error text database/sql gives for it.
- `getLocalInstances` (Windows registry) and `os.Hostname`: OS calls. They are inputs in `LocalHost`.
- Goroutines and `sync.WaitGroup`: the units run one after another, each server walking the query map in an order left open. Interleavings, and records from other goroutines arriving while a panicking one dies, are not modelled.
- `time.Now()` timestamps on records: wall-clock time. Records carry no timestamp.
- `ToUpper`: only the characters whose upper case is an ASCII letter are mapped, which is all a comparison with "MSSQLSERVER" can observe. Other characters are left unchanged.
- `filter.Compile` and `filter.Match` glob semantics: a library not part of this model. They are the uninterpreted `GlobLibrary`. A failed compile is modelled as leaving the filter unset.
- `os.IsPermission`: a flag on each operating-system error.
- The `WinSvcMgr` and `MgProvider` wrappers (win_services.go:59-85), `Disconnect` and `Close`: foreign calls. The manager is a `Manager` value and Connect's result is an input.
- The Debug-versus-Error logging choice for a failed service (win_services.go:157-161): logging only. The service is skipped either way.
- `SampleConfig`, `Description` and the `init` registrations in both files: boilerplate.
