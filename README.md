# collect-bridge core, modelled in Dafny

collect-bridge is a network-management platform written in Go. It has
three parts. The first is a driver runtime: drivers are registered by name
and may be written as Lua coroutines. The second is an SNMP polling,
sampling and discovery engine. The third is a class-table-inheritance
object store. This project models the sequential decision logic and the
bookkeeping of that core, and proves properties of the model. Anything
outside that logic (the Lua VM, sockets, HTTP, SQL, MongoDB, clocks,
goroutines) is turned into an input of the model.

There is one Dafny module per Go source file:

- `Common` (common.dfy): Go's `interface{}` as a `Value` datatype, `Option`, the application error record, and string helpers.
- `Drivers` (drivers.dfy), from commons/driver.go: the DriverManager registry as a class; SimpleResult as a value with setters; the `AsObjects` coercion; DefaultDrv.
- `MetricsDispatch`, `SamplingDispatch` and `MetricManagers`: the metric dispatchers of metrics/metrics_driver.go and sampling/driver.go, and the metric-definition loader of metrics/metric_driver.go.
- `LuaApi`, `LuaBinding` and `Bridge`: the two coroutine bridges (lua_binding/lua_driver.go and bridge/lua_driver.go). A coroutine is a `Fiber` whose resume outcomes are fixed in advance. The model proves:
  - how each resume is classified;
  - the native-method table rules;
  - the `unsupport action` fallback;
  - the balance of the `waitG` pending-fiber counter.
- `Discovery` (network_discovery/discoverer.go): parameter defaulting, the device and address maps, the grow-only scanned-range set, /24 derivation, and the round/depth termination of `serve`, as a loop over given rounds.
- `DataStoreClient`, `CtiPolicy` and `Query`: the data-store client's checks, including the snapshot `Diff`; the class-table-inheritance policy over a tree of tables; the column and row helpers of data_store/query.go (ds/query.go is a copy of it, except for the unknown-type message at line 133, which `Query.Copy` and `Query.UnknownTypeMessage` model).
- `SnmpMetric` (metrics/snmp.go): parameter copying, the table-walk callback protocol, and the device-type arithmetic over MIB-II values (RFC 1213, RFC 1493).
- `Validators`, `Classes` and `MdbDriver`: the mdb validators, class definitions with their loader, and the mdb driver's request routing.
- `AlertAction` and `PollerServer`: the alert repeat counter, and the poller's job table with its reconcile loop.
- `SnmpClient` and `PingerDrivers`: the UDP SNMP client's request-id and pending-request table, and the pinger registry.
- `Nmap` (nmap/icmp.go): ICMP echo encoding and parsing. This covers the RFC 792 header, the echo request of section 4.1 of RFC 4443, and the Internet checksum of RFC 1071. The model proves that every v4 request carries a valid checksum.
- `SnmpTools` (sampling/snmptools/main.go): the encoding guesses, the proxy URLs, OID aliasing and answer interpretation.
- `CircularBuffers`: a ring buffer class written to the assertions of commons/circular_buffer_test.go.

Where Go leaves map iteration order unspecified, a method either picks
keys by an arbitrary `:|` choice or returns the order it used as an
out-parameter. Either way, its contract holds for every order.

## Model

| member | source | states |
|---|---|---|
| Drivers.DriverManager.constructor | commons/driver.go:12-15 | a new manager has no drivers registered |
| Drivers.DriverManager.Connect | commons/driver.go:73-76 | finds a driver exactly when its name is registered, and returns that driver |
| Drivers.DriverManager.Register | commons/driver.go:61-67 | panics exactly when the name is already taken, leaving the map as it was; otherwise adds exactly that entry, which Connect then finds |
| Drivers.DriverManager.Unregister | commons/driver.go:69-71 | removes only the given name; every other name connects as before, and an unknown name changes nothing |
| Drivers.DriverManager.Stop | commons/driver.go:17-26 | calls Stop once on a registered Startable driver; an unknown or non-Startable driver gets no call |
| Drivers.DriverManager.Start | commons/driver.go:28-42 | an unknown name gives the not-found error and no call; a non-Startable driver gives no error; a Startable driver is started once and its error is returned |
| Drivers.DriverManager.Reset | commons/driver.go:44-59 | the same cases as Start, with Stop called before Start on a Startable driver |
| Drivers.DriverManager.Names | commons/driver.go:78-84 | lists every registered name exactly once and nothing else |
| Drivers.Result.SetErrorMessage | commons/driver.go:254-264 | an empty message changes nothing; otherwise the result has an error with that message, whose code is kept or is 500 when there was no error; no field but the error changes |
| Drivers.Result.SetErrorCode | commons/driver.go:266-277 | code 0 changes nothing; otherwise the result has an error with that code and the old message (empty when there was no error); no field but the error changes |
| Drivers.Result.SetError | commons/driver.go:279-291 | (0, "") changes nothing; otherwise the error has exactly that code and message; no field but the error changes |
| Drivers.Result.SetOption | commons/driver.go:246-252 | the options map exists afterwards and maps the key to the value; every other key keeps its presence and value; no field but the options changes |
| Drivers.SimpleResult.constructor | commons/driver.go:209-217 | the result holds the given fields |
| Drivers.SimpleResult.SetValue | commons/driver.go:231-234 | replaces the value and nothing else |
| Drivers.SimpleResult.SetOptions | commons/driver.go:241-244 | replaces the options map and nothing else |
| Drivers.SimpleResult.SetOption | commons/driver.go:246-252 | updates the receiver in place as Result.SetOption says |
| Drivers.SimpleResult.SetErrorMessage | commons/driver.go:254-264 | updates the receiver in place as Result.SetErrorMessage says |
| Drivers.SimpleResult.SetErrorCode | commons/driver.go:266-277 | updates the receiver in place as Result.SetErrorCode says |
| Drivers.SimpleResult.SetError | commons/driver.go:279-291 | updates the receiver in place as Result.SetError says |
| Drivers.SimpleResult.SetWarnings | commons/driver.go:293-296 | replaces the warnings and nothing else |
| Drivers.SimpleResult.SetEffected | commons/driver.go:298-301 | replaces the effected count and nothing else |
| Drivers.SimpleResult.SetLastInsertId | commons/driver.go:303-306 | replaces the last insert id and nothing else |
| Drivers.Return | commons/driver.go:219-221 | carries the value with no error (code -1, message ""), effected -1 and no options |
| Drivers.ReturnError | commons/driver.go:223-225 | a nil value that has an error exactly when code and message are not both empty, and then exactly that code and message |
| Drivers.ReturnWithError | commons/driver.go:227-229 | has an error exactly when the runtime error's code and message are not both empty |
| Drivers.SettersOnCleanResult | commons/driver.go:254-291 | on a fresh result the empty setters change nothing, a message alone gets code 500, a code alone gets an empty message, and setting code then message equals SetError |
| Drivers.AsObject | commons/driver.go:416-421 | succeeds exactly on a map value and returns that map; anything else gives IsNotMap |
| Drivers.AsObjects | commons/driver.go:423-442 | a []map is returned as is; a list all of whose elements are maps becomes those maps in order; a list holding a non-map gives IsNotMap; anything else gives IsNotArray |
| Drivers.DefaultDrv.Call | commons/driver.go:187-207 | each operation answers its canned value, with an error exactly when its canned code and message are not both empty |
| MetricsDispatch.MetricNotDefined | metrics/metrics_driver.go:10-12 | a not-found error whose message quotes the metric name |
| MetricsDispatch.Stamp | metrics/metrics_driver.go:45-49 | adds "created_at" with the current time only when the result has none; every other entry is kept |
| MetricsDispatch.StampIdempotent | metrics/metrics_driver.go:45-49 | stamping a result twice keeps the first stamp |
| MetricsDispatch.Registered | metrics/metrics_driver.go:23-29 | the drivers registered from a set of factory keys are exactly the drivers those factories built, under their keys |
| MetricsDispatch.RegisterAll | metrics/metrics_driver.go:23-29 | no error exactly when every factory builds, and then every built driver is registered under its key; an error is the message of some failing factory; only built drivers are ever registered |
| MetricsDispatch.Metrics.constructor | metrics/metrics_driver.go:20 | the dispatcher holds its own registry and the shared driver manager |
| MetricsDispatch.Metrics.Dispatch | metrics/metrics_driver.go:34-102 | no "metric" parameter gives MetricNotExists, an unknown metric gives MetricNotDefined, a known one forwards to its driver; Get, Put and Create stamp a present result map and Delete returns the driver's answer unchanged |
| MetricsDispatch.NewMetrics | metrics/metrics_driver.go:19-32 | the registry is published in every case; it succeeds exactly when every factory builds, with the registry holding every built driver, and otherwise returns no dispatcher |
| SamplingDispatch.MetricNotExists | sampling/driver.go:7 | a nil-valued result with the bad-request code and the "'metric' is required." message |
| SamplingDispatch.MetricNotDefined | sampling/driver.go:9-11 | a nil-valued result with the not-found code and a message quoting the metric name |
| SamplingDispatch.Metrics.constructor | sampling/driver.go:19 | the dispatcher holds its own registry and the shared driver manager |
| SamplingDispatch.Metrics.Dispatch | sampling/driver.go:33-83 | no "metric" parameter gives MetricNotExists, an unknown metric gives MetricNotDefined, and a known one answers exactly what its driver answers |
| SamplingDispatch.NewMetrics | sampling/driver.go:18-31 | the registry is published in every case; it succeeds exactly when every factory builds, with every built driver registered, and otherwise returns no dispatcher |
| MetricManagers.Dispatcher.constructor | metrics/metric_driver.go:12 | a new dispatcher holds no specs |
| MetricManagers.Dispatcher.RegisterSpec | metrics/metric_driver.go:53 | the spec is stored under its id, replacing any spec with that id |
| MetricManagers.Dispatcher.UnregisterSpec | metrics/metric_driver.go:95 | only the spec with that id is removed |
| MetricManagers.Dispatcher.Clear | metrics/metric_driver.go:17 | no spec is left |
| MetricManagers.BodyCheck | metrics/metric_driver.go:34-40 | passes exactly when "body" is present and non-empty; a missing body and an empty body give their own messages |
| MetricManagers.SpecFailures | metrics/metric_driver.go:72-80 | there are no failures exactly when every definition builds a spec, and never more failures than definitions |
| MetricManagers.RegisterEach | metrics/metric_driver.go:73-80 | registering definitions never loses a spec id already present |
| MetricManagers.RegisterEachHolds | metrics/metric_driver.go:73-80 | the id of every definition that builds a spec is in the table afterwards |
| MetricManagers.MetricManager.constructor | metrics/metric_driver.go:10-13 | a manager starts with empty definitions text and the given dispatcher |
| MetricManagers.MetricManager.Clear | metrics/metric_driver.go:15-18 | empties both the definitions text and the dispatcher |
| MetricManagers.MetricManager.Get | metrics/metric_driver.go:20-30 | succeeds exactly for no id or the id "definitions", answering the definitions text; any other id is "not implemented" |
| MetricManagers.MetricManager.Put | metrics/metric_driver.go:32-56 | a bad body answers false with its message; a decoding failure answers false with the message and the body; a definition that does not build answers nil and its error; otherwise its spec is registered and "ok" answered; only the last case changes the table |
| MetricManagers.MetricManager.Create | metrics/metric_driver.go:58-88 | true exactly without error; body and decoding failures change nothing; when every definition builds, all are registered in order; when any fails, every failure is reported joined by newlines and text and table are cleared |
| MetricManagers.MetricManager.Delete | metrics/metric_driver.go:90-97 | a missing id answers "id is required" and changes nothing; otherwise the spec with that id is unregistered and true answered |
| LuaApi.At | lua_binding/lua_driver.go:242-260 | a positive stack index counts from the bottom and a negative one from the top |
| LuaApi.PushReadRoundTrip | lua_binding/lua_driver.go:242-280 | reading back what the bridge pushed gives the original: any value, a params table, an error and a string |
| LuaApi.Fiber.constructor | lua_binding/lua_driver.go:695 | a new coroutine is live, has status LUA_OK, an empty stack and no resumes yet |
| LuaApi.Fiber.Resume | lua_binding/lua_driver.go:569 | returns the next scripted outcome, leaves its values on the stack and records it; the coroutine is dead once a resume did not yield; a yield uses up one outcome |
| LuaBinding.StatusCode | lua_binding/lua_driver.go:167-174 | END, CONTINUE, YIELD and FAILED are the codes 0 to 3 |
| LuaBinding.RegisterAllGrows | lua_binding/lua_driver.go:396-413 | CallbackWith never removes or replaces an entry, and keeps every entry keyed by its own non-empty name with a callback |
| LuaBinding.RegisterAllPrefix | lua_binding/lua_driver.go:396-413 | every accepted entry before the first nil or rejected one is registered; a nil entry, or reaching the end, gives no error; an empty name and a nil callback give their messages |
| LuaBinding.RegisterAllKeeps | lua_binding/lua_driver.go:407-410 | an entry already in the table keeps its method through CallbackWith |
| LuaBinding.RegisterDuplicate | lua_binding/lua_driver.go:407-409 | a name already registered is refused with "already exists" and the table is unchanged |
| LuaBinding.DefaultRegistration | lua_binding/lua_driver.go:328-394 | NewLuaDriver's registration succeeds and yields exactly get, put, create, delete and log, a valid table |
| LuaBinding.ClassifyOutcomes | lua_binding/lua_driver.go:573-620 | code 0 ends; a yield with no values or a non-string first value is YIELD with an error and code LUA_YIELD; a registered action is CONTINUE with its method; every other code is FAILED with that code; an unknown action is exactly a well-formed yield naming no registered method |
| LuaBinding.MissingTraceStep | lua_binding/lua_driver.go:597-603 | a run of unknown-action resumes grows by the resume that answers the last one with method_missing's reply |
| LuaBinding.Continuous.constructor | lua_binding/lua_driver.go:218-231 | a Continuous holds the given fiber, fields and unshift hook |
| LuaBinding.Continuous.Clear | lua_binding/lua_driver.go:233-240 | resets method, error, int, string, params and value, and keeps the status |
| LuaBinding.LuaDriver.constructor | lua_binding/lua_driver.go:328-394 | a new driver has no interpreter, no pending fiber and exactly the default method table |
| LuaBinding.LuaDriver.CallbackWith | lua_binding/lua_driver.go:396-413 | the table and the error are those of registering the entries in order up to the first nil or rejected one |
| LuaBinding.LuaDriver.ResumeOnce | lua_binding/lua_driver.go:569-620 | one resume with the given arguments is recorded; it settles the frame as the classification says, except an unknown action, which leaves method_missing and its error in the frame |
| LuaBinding.LuaDriver.Eval | lua_binding/lua_driver.go:542-623 | a failing Write resumes nothing and fails with "push arguments failed"; otherwise the resumes are the written arguments, then method_missing's reply to each unknown action, and the frame is settled by the last resume, which does not name an unknown action |
| LuaBinding.LuaDriver.ServeMissing | lua_binding/lua_driver.go:556-621 | after a resume that named an unknown action, the loop resumes with method_missing's reply until a resume that does not; history only grows, the trace stays a run of unknown actions, and the frame is settled by the last resume |
| LuaBinding.LuaDriver.RunCallback | lua_binding/lua_driver.go:337-392 | a driver call on an unregistered name sets "driver '…' is not exists."; a registered one stores the driver's value and error; log appends its line |
| LuaBinding.LuaDriver.DriveWhileContinue | lua_binding/lua_driver.go:732-747 | runs callbacks and resumes until the status is not CONTINUE; a frame that was not CONTINUE is left as it was |
| LuaBinding.LuaDriver.NewContinuous | lua_binding/lua_driver.go:647-710 | no interpreter gives "lua status is nil."; a main fiber that ends gives "'core.lua' is directly exited."; other non-yields fail; waitG is raised by one exactly when the child is left CONTINUE |
| LuaBinding.LuaDriver.SwitchToMain | lua_binding/lua_driver.go:653-681 | the main fiber is resumed with the action and params; anything but a yield becomes FAILED with its reason |
| LuaBinding.LuaDriver.SpawnChild | lua_binding/lua_driver.go:689-709 | a top of stack that is not a thread fails with its message; otherwise the child is run and waitG is raised exactly when it is CONTINUE |
| LuaBinding.LuaDriver.Invoke | lua_binding/lua_driver.go:712-754 | every waitG Add is matched by one Done, at most one per request, and waitG is back at zero; an END answers the value and the error the child's last resume left at stack slots 2 and 3; any other outcome answers nil |
| LuaBinding.LuaDriver.InvokeAndReturnBool | lua_binding/lua_driver.go:756-767 | relative to invoke's answer: nil gives false with no panic, Bool(x) gives x, any other value panics; a true answer therefore comes from a child that ended with a true value; no interpreter gives false and "lua status is nil." |
| LuaBinding.LuaDriver.AtStart | lua_binding/lua_driver.go:469-507 | a load failure panics; otherwise the main fiber runs until it stops and the driver keeps it only when it yielded, panicking otherwise |
| LuaBinding.LuaDriver.AtStop | lua_binding/lua_driver.go:509-540 | no interpreter does nothing; a main fiber that is not suspended panics; the exit request must end the main fiber, after which the interpreter is dropped |
| Bridge.CodeValue | bridge/lua_driver.go:66-72 | END, CONTINUE and FAILED are the codes 0 to 2 |
| Bridge.ExecuteTask | bridge/lua_driver.go:157-177 | an unregistered driver gives "driver '…' is not exists."; get, put, create and delete are answered by that driver; any other action is unsupported |
| Bridge.Served | bridge/lua_driver.go:190-213 | after a handled yield eval always pushes back exactly two values, the result and the error |
| Bridge.LogNeverReachesDriver | bridge/lua_driver.go:199-202 | a "log" request is answered (nil, nil) whatever drivers are registered and whatever they answer |
| Bridge.OperationReachesDriver | bridge/lua_driver.go:203-206 | a driver operation on a registered driver is answered with exactly that driver's value and error |
| Bridge.ServedTraceStep | bridge/lua_driver.go:181-214 | a run of handled yields grows by the resume that answers the last one |
| Bridge.ContinuousOutcomes | bridge/lua_driver.go:321-346 | a yield continues with the request it carries (a log level and message, or a driver and params, the other fields kept); 0 ends with the result and error; every other code fails with "script execute failed" |
| Bridge.Continuous.constructor | bridge/lua_driver.go:82-92 | a Continuous holds the given coroutine, status and error and empty request fields |
| Bridge.Continuous.ExecuteContinuous | bridge/lua_driver.go:321-346 | updates the record as ContinuousOutcomes describes, from the coroutine's stack |
| Bridge.LuaDriver.constructor | bridge/lua_driver.go:99-104 | a new driver has no interpreter and no pending child |
| Bridge.LuaDriver.Eval | bridge/lua_driver.go:179-217 | the resumes are the given arguments, then the two-value reply to each handled yield; it returns the code of the first resume that is not a handled yield |
| Bridge.LuaDriver.ServeOnce | bridge/lua_driver.go:190-213 | one handled yield is answered by resuming with its reply |
| Bridge.LuaDriver.AgainContinue | bridge/lua_driver.go:313-319 | resumes the child with its value and error and reads the outcome as executeContinuous does |
| Bridge.LuaDriver.NewContinuous | bridge/lua_driver.go:277-311 | no interpreter crashes the call, and no Continuous is made; a main fiber that ends gives "'lua_init.lua' is directly exited."; another non-yield gives "switch to main fiber failed"; a non-thread result gives its message; otherwise the child is resumed once with no arguments; waitG is raised exactly when the child is CONTINUE |
| Bridge.LuaDriver.ServeChild | bridge/lua_driver.go:386-410 | a log request without a message panics; otherwise the loop ends with the child out of CONTINUE, and an END holds the value and error at the child's stack slots -2 and -1 |
| Bridge.LuaDriver.Invoke | bridge/lua_driver.go:366-416 | every waitG Add is matched by one Done, also when a log request without a message panics; no interpreter crashes the call with no Add; an END answers the value and the error at the child's stack slots -2 and -1; anything else answers nil with an error, which for a child that ran is the failure of its last resume code |
| Bridge.LuaDriver.InvokeAndReturnBool | bridge/lua_driver.go:418-428 | relative to invoke's answer: a crash or panic of invoke is passed on; nil gives false, Bool(x) gives x, and any other value panics; a true answer comes from a child that ended with a true value |
| Bridge.LuaDriver.AtStart | bridge/lua_driver.go:218-250 | a load failure panics; otherwise the main fiber runs and the driver keeps it only when it yielded, panicking otherwise |
| Bridge.LuaDriver.AtStop | bridge/lua_driver.go:252-275 | no interpreter does nothing; a main fiber that is not suspended panics; "__exit__" must end the main fiber, after which the interpreter is dropped |
| Discovery.SubnetInjective | network_discovery/discoverer.go:273-276 | distinct addresses give distinct "/24" ranges, so the range list holds no duplicate |
| Discovery.PingerProbes | network_discovery/discoverer.go:303-309 | one pinger sends one request per address of the range |
| Discovery.PingerProbesCover | network_discovery/discoverer.go:303-309 | every address of a range is probed on port 161 by the pinger walking it |
| Discovery.RangeProbesCover | network_discovery/discoverer.go:302-311 | scanning a range probes every one of its addresses on every pinger |
| Discovery.DetectScansRanges | network_discovery/discoverer.go:280-315 | the scanned set only grows, and only by ranges of the list; every range of the list ends up scanned; a range not scanned before had every address probed on every pinger |
| Discovery.DetectScannedIsNoop | network_discovery/discoverer.go:296-299 | a list whose ranges are all scanned already sends nothing and changes nothing |
| Discovery.Discoverer.constructor | network_discovery/discoverer.go:105-118 | a new discoverer has no devices, no interface addresses, no scanned range, has sent nothing and is running |
| Discovery.Discoverer.AlreadyScanned | network_discovery/discoverer.go:241-245 | the range is marked scanned and nothing else is added |
| Discovery.Discoverer.AddDevice | network_discovery/discoverer.go:219-233 | panics exactly when the device's address, or the address of a map row of a map-shaped "$address", is missing or not a string, storing nothing on a bad device address; otherwise the device is stored under its address, and exactly the addresses of those map rows are mapped to it |
| Discovery.Discoverer.ManageRows | network_discovery/discoverer.go:228-232 | panics exactly when some map row has no string address; otherwise every map row's address, and nothing else, is mapped to the device's address |
| Discovery.Discoverer.AddressesOf | network_discovery/discoverer.go:252-272 | panics exactly when a map row of a list- or map-shaped table has no string address; otherwise collects the addresses of every map row, skipping non-map rows |
| Discovery.Discoverer.ItemAddresses | network_discovery/discoverer.go:254-262 | panics exactly when some map row of the list has no string address; otherwise the addresses of its map rows |
| Discovery.Discoverer.FieldAddresses | network_discovery/discoverer.go:263-271 | panics exactly when some map row of the map has no string address; otherwise the addresses of its map rows |
| Discovery.Discoverer.SubnetsOf | network_discovery/discoverer.go:273-276 | one "/24" range per address, each exactly once |
| Discovery.Discoverer.ScanRange | network_discovery/discoverer.go:302-311 | sends one request per address of the range for each pinger in turn |
| Discovery.Discoverer.DetectNewRange | network_discovery/discoverer.go:280-315 | sends and marks exactly what Detect prescribes: empty, invalid, unparseable and scanned entries are skipped, and each new range is probed on every pinger and then marked |
| Discovery.Discoverer.DetectNewAddress | network_discovery/discoverer.go:247-278 | a table with a map row lacking a string address panics before anything is sent; otherwise hands detectNewRange the "/24" range of every row address, each once, and a nil table hands nothing |
| Discovery.Discoverer.CollectRound | network_discovery/discoverer.go:345-363 | reads events up to the first "ping_failed" or timeout, or up to a device addDevice panics on, which is the last event read and the only such device; every other device read is added and pending, in order |
| Discovery.Discoverer.Serve | network_discovery/discoverer.go:329-377 | a failed local read stops at once; a panic has its cause in the local table or in a device read, and without one every device read was addable; otherwise the local subnets and configured ranges are scanned, at most max(depth, 1) rounds run, every round but the last brought a device, every device before the last round has its subnets scanned, and a last round that brings no device ends the discovery before the depth is reached |
| Discovery.Discoverer.RunRounds | network_discovery/discoverer.go:343-376 | at least one and at most max(depth, 1) rounds run; a panic is caused by a malformed device read; every device before the last round has its subnets scanned, every round but the last brought a device, and a last round with no device ends before the depth |
| Discovery.Discoverer.ExploreAll | network_discovery/discoverer.go:373-375 | panics exactly when some pending device's "$address" table has a map row without a string address; otherwise every pending device's interface subnets are scanned |
| Discovery.Discoverer.DetectAndExplore | network_discovery/discoverer.go:247-278 | a malformed table panics and scans nothing; otherwise every "/24" range of the table's rows that stands for a range is scanned afterwards |
| Discovery.Discoverer.Result | network_discovery/discoverer.go:429-435 | a copy holding exactly the devices, under their addresses |
| Discovery.Discoverer.Read | network_discovery/discoverer.go:446-457 | no message gives "timeout"; a message is returned, and "end" marks the discovery completed |
| Discovery.NewDiscoverer | network_discovery/discoverer.go:51-132 | nil params fail; the timeout and community defaults are written back; a listen failure, a missing "snmp" and a missing "metrics" driver fail with their messages; otherwise the discoverer is fresh with one pinger per community and depth 0 becomes 2 |
| Discovery.DefaultCommunities | network_discovery/discoverer.go:60-73 | computes the community list that Communities describes |
| Discovery.ListenAll | network_discovery/discoverer.go:88-93 | returns the first listen failure, in community order |
| Discovery.Communities | network_discovery/discoverer.go:60-73 | "public" is always in the list; a given list is kept as a prefix, "public" is appended only when missing, and no list becomes ["public"] |
| Discovery.FirstListenError | network_discovery/discoverer.go:88-93 | there is an error exactly when some community fails to listen |
| DataStoreClient.CreateJson | data_store/client.go:66-82 | the server's error is passed on; a nil lastInsertId and the string "-1" are internal errors; success exactly when neither holds, returning the result and the printed id |
| DataStoreClient.CreateJsonAcceptsNumericMinusOne | data_store/client.go:76-79 | a numeric -1 id passes the check and is reported as the id "-1" |
| DataStoreClient.CreateJsonChecked | data_store/client.go:76-79 | corrected check: success exactly when there is no error, the id is not nil and it does not print as "-1"; the id returned is never "-1" |
| DataStoreClient.CreateJsonCheckedRefines | data_store/client.go:66-82 | the corrected check agrees with the original on every answer except a non-string id printing as "-1" |
| DataStoreClient.SaveBy | data_store/client.go:41-64 | corrected create check (CreateJsonChecked): a marshal failure is a bad request with outcome "unknow"; otherwise the id and error of the create call; outcome "new" exactly when is_created is present and true, "update" exactly when present and not true, else "unknow" |
| DataStoreClient.UpdateJson | data_store/client.go:109-119 | the server's error gives -1; an effected count of -1 is an internal error; success exactly otherwise, with the count |
| DataStoreClient.DeleteBy | data_store/client.go:126-137 | the server's error comes back with -1; an effected count of -1 is the internal error "effected rows is -1" with -1; any other count comes back with no error; the same check as UpdateJson |
| DataStoreClient.UpdateById | data_store/client.go:84-97 | a marshal failure is reported; otherwise success exactly when there is no error and exactly one row changed; another count gives the "effected row is" message with the id and the count |
| DataStoreClient.GetRecordVersionFrom | data_store/client.go:164-181 | no version exactly when both stamps are nil; a failure exactly when a stamp does not convert, created_at first; a version holds both converted stamps |
| DataStoreClient.DiffPartition | data_store/client.go:183-222 | new, updated and deleted ids are pairwise disjoint; an id with a nil new version and a non-nil old one is in none; an id with two versions is updated exactly when it got newer; an id in neither list is one that did not need reloading |
| DataStoreClient.SnapshotTable.Diff | data_store/client.go:183-222 | the three lists hold, without duplicates, exactly the new, updated and deleted ids; the old table loses every id of the new one and keeps exactly the deleted ids |
| DataStoreClient.SnapshotTable.Reconcile | data_store/client.go:187-213 | the first loop lists exactly the new and updated ids, without duplicates, and removes every visited id from the old table |
| DataStoreClient.SnapshotTable.RemainingIds | data_store/client.go:215-219 | the second loop lists every id left in the table once |
| DataStoreClient.BatchesCover | data_store/client.go:327-347 | the requested slices concatenate to the id list in order; every slice but the last has 100 ids; the last has at most 100 and is empty only for an empty list |
| DataStoreClient.Walk | data_store/client.go:327-347 | the slices are requested in order; without an error all are requested; an error comes from the last slice requested |
| DataStoreClient.EachByMultId | data_store/client.go:327-347 | the requests made, the rows passed to the callback and the error are those of walking the 100-id slices in order |
| DataStoreClient.FullBatches | data_store/client.go:328-337 | the loop over full slices ends with an error that is the walk's, or with at most 100 ids left and the walk of the rest still to do |
| DataStoreClient.MatchingMapsSound | data_store/client.go:446-450 | filtering keeps exactly the accepted maps, and everything when there are no matchers |
| DataStoreClient.GetChildrenForm | data_store/client.go:418-453 | nil gives nothing; a map is kept when accepted; a list keeps its accepted maps; a []map is returned whole without matchers and as nil with matchers |
| DataStoreClient.GetChildrenFormDropsMatches | data_store/client.go:441-452 | a []map whose first map is accepted has a non-empty filtered list, which GetChildrenForm drops |
| DataStoreClient.GetChildrenFormFixed | data_store/client.go:441-452 | corrected: the []map case answers the filtered list; every other case is unchanged |
| DataStoreClient.FilterItems | data_store/client.go:430-438 | the loop over a []interface{} keeps exactly the accepted maps, in order |
| DataStoreClient.FilterMaps | data_store/client.go:446-450 | the loop over a []map keeps exactly the accepted maps, in order |
| CtiPolicy.ConcreteNotAbstract | data_store/cti_policy.go:41-60 | none of the tables the policy queries is abstract; a table is queried exactly when it is not abstract, and it always comes first |
| CtiPolicy.TotalIsSum | data_store/cti_policy.go:41-60 | a count, update or delete over a tree totals the answers of its concrete tables in pre-order, stopping at the first error |
| CtiPolicy.Total | data_store/cti_policy.go:41-60 | the loop over the own table and the children, recursing through the policy, computes that total |
| CtiPolicy.Count | data_store/cti_policy.go:41-60 | count is the pre-order sum of the simple driver's counts over the concrete tables, or the first error |
| CtiPolicy.Update | data_store/cti_policy.go:162-182 | update is the pre-order sum of the simple driver's changed-row counts, or the first error |
| CtiPolicy.Delete | data_store/cti_policy.go:211-231 | delete is the pre-order sum of the simple driver's deleted-row counts, or the first error |
| CtiPolicy.CollectIsConcat | data_store/cti_policy.go:62-83 | find and snapshot give the concrete tables' rows concatenated in pre-order; ErrNoRows is tolerated and any other error stops the query |
| CtiPolicy.Collect | data_store/cti_policy.go:112-133 | the loop over the own rows and the children's rows computes that concatenation |
| CtiPolicy.Find | data_store/cti_policy.go:112-133 | find answers the simple driver's rows of every concrete table in pre-order, or the first error that is not ErrNoRows |
| CtiPolicy.Snapshot | data_store/cti_policy.go:62-83 | snapshot answers the simple driver's versions of every concrete table in pre-order, or the first error that is not ErrNoRows |
| CtiPolicy.FirstAnswerNoRows | data_store/cti_policy.go:85-110 | a by-id search answers ErrNoRows exactly when every concrete table answered ErrNoRows; otherwise its answer is one table's answer |
| CtiPolicy.SearchIsFirst | data_store/cti_policy.go:85-110 | findById, updateById and deleteById answer the first concrete table in pre-order that does not report ErrNoRows |
| CtiPolicy.Search | data_store/cti_policy.go:85-110 | the loop that returns at the first success or the first real error computes that search |
| CtiPolicy.FindById | data_store/cti_policy.go:85-110 | findById answers the first concrete table's row, or its error, that is not ErrNoRows |
| CtiPolicy.UpdateById | data_store/cti_policy.go:135-160 | updateById answers the first concrete table's answer that is not ErrNoRows |
| CtiPolicy.DeleteById | data_store/cti_policy.go:184-209 | deleteById answers the first concrete table's answer that is not ErrNoRows |
| CtiPolicy.FirstError | data_store/cti_policy.go:233-250 | no error exactly when no concrete table's walk failed |
| CtiPolicy.ForEachIsFirstError | data_store/cti_policy.go:233-250 | forEach walks the concrete tables in pre-order and stops at the first error |
| CtiPolicy.ForEachTable | data_store/cti_policy.go:233-250 | the loop over the own walk and the children's walks computes that first error |
| CtiPolicy.ForEach | data_store/cti_policy.go:233-250 | forEach answers the first error of the simple driver's walks over the concrete tables |
| CtiPolicy.Insert | data_store/cti_policy.go:36-39 | insert goes straight to the simple driver for the table itself, even an abstract one with children |
| Query.MergeAsWrittenKeys | data_store/query.go:21-34 | mergeAttributes as written adds exactly the own attributes of every table in the tree that has children |
| Query.MergeAsWrittenDropsLeafColumns | data_store/query.go:23-28 | a column of a subtable without children of its own never reaches the merged map |
| Query.MergeKeys | data_store/query.go:21-34 | the corrected merge adds exactly the own attributes of every proper subtable, leaves included |
| Query.MergeAttributes | data_store/query.go:21-34 | the loop over the children, recursing into those with children, computes the corrected merge |
| Query.ValuesOf | data_store/query.go:61-63 | ranging over an attribute map visits every key once and yields each key's column |
| Query.ToColumns | data_store/query.go:36-67 | corrected merge (MergeAttributes): without single-table inheritance every attribute appears once; with it the merged attributes appear once each, the "type" column first and nowhere else, and a missing "type" is the panic |
| Query.Names | data_store/query.go:69-83 | one name per column, in order |
| Query.WriteColumns | data_store/query.go:69-83 | the buffer gains nothing for no columns and otherwise exactly the names joined by ", " |
| Query.ColumnListShape | data_store/query.go:69-83 | the column list is empty, a single name, or the first name, ", " and the rest |
| Query.QueryImpl.Bind | data_store/query.go:94-97 | the parameters are replaced wholesale, everything else is unchanged, and the same query is answered |
| Query.QueryImpl.Build | data_store/query.go:99-101 | the builder answers itself |
| Query.RowByColumns | data_store/query.go:172-193 | a scan error is passed on; otherwise the record stamps "type" with the table's name and converts each column in order, stopping at the first conversion error |
| Query.RowFromContents | data_store/query.go:183-192 | with distinct column names a converted record holds "type" and each column under its own name, each value being that column's conversion |
| Query.StiSubtable | data_store/query.go:121-135 | a row's subtable is found only when the type column converts to a string that names a subtable |
| Query.RowBySingleTableInheritance | data_store/query.go:107-154 | a scan error is passed on; a type that fails to convert, is not a string or names no subtable is an error (the two copies differ in that message); otherwise the record holds "type" and the columns the subtable has, converted in order |
| Query.StiRowOmitsForeignColumns | data_store/query.go:137-146 | a column the concrete subtable lacks never appears in its record |
| Query.AllRows | data_store/query.go:156-170 | a successful list has one record per row, in order, and only when the cursor ended without error |
| Query.CollectRows | data_store/query.go:195-209 | the loop over the rows stops at the first row error, then reports the cursor's error, else answers every record in order |
| SnmpMetric.InitAsWrittenBindsNothing | metrics/snmp.go:49-54 | a driver manager without "snmp" makes Init report success while binding no driver |
| SnmpMetric.InitChecked | metrics/snmp.go:30-55 | corrected Init: success exactly when a driver is bound; a driver under "snmp" is preferred; otherwise the manager's "snmp" driver; the errors are the required message, the not-a-manager message and the not-exists message |
| SnmpMetric.InitCheckedRefines | metrics/snmp.go:30-55 | the corrected Init agrees with the original whenever the original binds a driver or reports an error |
| SnmpMetric.SnmpBase.Init | metrics/snmp.go:30-55 | corrected Init (InitChecked): the driver is bound exactly when Init reports no error, and is unchanged otherwise |
| SnmpMetric.CopyParameter | metrics/snmp.go:57-91 | success exactly when the version and the address are present and the version is v3 or the community of `rw` is present; each missing item gives its required error; on success the map holds the version, address and port, plus the v3 entries or the community |
| SnmpMetric.V3NeedsNoCommunity | metrics/snmp.go:73-81 | a v3 request succeeds without a community, writes none, and carries the pass phrases of `rw` and the address |
| SnmpMetric.SnmpBase.Request | metrics/snmp.go:93-115 | a parameter error is passed on; complete parameters with no driver bound give the nil-driver failure; a values map is answered only when the parameters copied, a driver is bound, it reported no error and its value is a map |
| SnmpMetric.SnmpBase.GetResult | metrics/snmp.go:117-163 | a call that reaches a nil driver panics with the runtime's nil-dereference text, and only that call; every other error is an internal-error result; success exactly when the read succeeded, the result type is known and the typed reader succeeded, with the reader's value; an unknown type names itself in the message |
| SnmpMetric.SnmpBase.GetTable | metrics/snmp.go:213-260 | a failed request is its error, and a nil driver's panic is recovered into an error with the runtime's text; otherwise the rows are visited once each, in map order, as Walk describes, and every row is visited unless the walk stopped |
| SnmpMetric.Walk | metrics/snmp.go:244-259 | a walk visits at most the given rows; a non-map row or a callback error stops it with the row's message; InterruptError stops it with success |
| SnmpMetric.WalkRows | metrics/snmp.go:244-259 | the range loop visits distinct keys of the table and ends in the state Walk gives for the visited order; without a stop it visited every key |
| SnmpMetric.WalkPrefix | metrics/snmp.go:244-259 | every row of a walk before the last was a map the callback accepted |
| SnmpMetric.FirstMatchStops | metrics/snmp.go:262-276 | under the OneInTable wrapper all rows before the last answered ContinueError, and a successful stop is at a map the callback accepted |
| SnmpMetric.OneInTable | metrics/snmp.go:262-276 | the table is walked with the wrapper that turns nil into InterruptError and ContinueError into going on |
| SnmpMetric.GetOneResult | metrics/snmp.go:283-304 | a failed request or walk is an internal-error result; otherwise the result of the last row handed to the callback, nil when there was none |
| SnmpMetric.LastVisitedIsMap | metrics/snmp.go:244-251 | a walk ending without error visited only maps |
| SnmpMetric.AppendedAll | metrics/snmp.go:306-322 | on a walk without error every visited row's result is collected in order, except a last row that stopped the walk |
| SnmpMetric.GetAllResult | metrics/snmp.go:306-322 | a failed request or walk is an internal-error result; otherwise the callback's results for the visited rows, in visiting order |
| SnmpMetric.SystemTypeEncoding | metrics/snmp.go:497-533 | without an OID-table hit the type is 2 for a router and 1 for a bridge, added together, from ipForwarding and the bridge port count; failing that, from the layer-3 and layer-2 bits of sysServices |
| Validators.Reject | mdb/validator.go:20-163 | a rejection answers false with an error |
| Validators.PatternCheck | mdb/validator.go:20-32 | passes exactly for a string that matches the pattern, or any string without a pattern; the verdict is true exactly when there is no error |
| Validators.StringLengthCheck | mdb/validator.go:38-53 | passes exactly for a string whose length is within every non-negative bound, inclusive; a negative bound is disabled |
| Validators.IntegerCheck | mdb/validator.go:60-75 | passes exactly for a value that converts to an integer within the bounds whose flags are set, inclusive |
| Validators.DateCheck | mdb/validator.go:103-117 | passes exactly for a time within the bounds whose flags are set, inclusive; a non-time fails |
| Validators.IndexEnumerationCheck | mdb/validator.go:123-135 | as written, passes exactly when the value is an integer index 0 .. len(Values)-1 |
| Validators.IndexEnumerationValidate | mdb/validator.go:123-135 | the range loop over the indices computes that check |
| Validators.IndexEnumerationComparesIndices | mdb/validator.go:125-126 | a listed string value is rejected while the index 1 is accepted |
| Validators.EnumerationCheck | mdb/validator.go:123-135 | the corrected validator passes exactly when the value is one of Values |
| Validators.EnumerationValidate | mdb/validator.go:123-135 | the loop over the values computes the corrected check |
| Validators.StringEnumerationCheck | mdb/validator.go:141-163 | passes exactly for a string or *string contained in Values; any other type fails with the not-a-string message |
| Validators.StringEnumerationValidate | mdb/validator.go:141-163 | the loop over the values computes that check |
| Validators.Validate | mdb/validator.go:12-14 | every validator answers (true, nil) or (false, an error); an enumeration is checked by the corrected EnumerationCheck |
| Classes.FailuresNoneIffAllPass | mdb/class_definitions.go:29-47 | no error is collected exactly when every validator of the property accepts the value |
| Classes.FailuresBounded | mdb/class_definitions.go:35-41 | at most one error per validator is collected |
| Classes.ValidateProperty | mdb/class_definitions.go:29-47 | with the corrected enumeration check: true with no error exactly when no validator rejects the value; otherwise false and a multi-error named after the property holding every failing validator's error, in order |
| Classes.Ancestors | mdb/class_definitions.go:49-61 | the Super chain starts at the class, links each class to its Super, and ends at a class without Super |
| Classes.CollectionName | mdb/class_definitions.go:55-61 | the collection name is the name of the root of the Super chain |
| Classes.Attempts | mdb/class_definitions.go:80-122 | a property's restrictions are tried in the fixed order enumeration, pattern, range, length, min/max length |
| Classes.AttemptsAccounted | mdb/class_definitions.go:80-122 | every present restriction gives either a validator or an error, and an absent one neither |
| Classes.AllBuiltNoErrors | mdb/class_definitions.go:80-122 | when no present builder fails, no error is recorded and every present restriction has its validator |
| Classes.TriedIsReference | mdb/class_definitions.go:80-122 | trying the restrictions one by one appends exactly the validators of the successful builders and the errors of the failing ones, in order |
| Classes.PropertyOfErrs | mdb/class_definitions.go:67-125 | LoadProperty only appends to the errors it is given |
| Classes.BuildRestriction | mdb/class_definitions.go:80-122 | the five builder steps compute the restrictions tried in order |
| Classes.LoadProperty | mdb/class_definitions.go:67-125 | the default value is converted first, its error recorded, then the builders are tried in order |
| Classes.PropertiesFrom | mdb/class_definitions.go:164-170 | the class holds one property per distinct property name |
| Classes.DefineClassAsWrittenLosesBase | mdb/class_definitions.go:152-162 | as written, a class loaded with a known base has a nil Super and is its own collection |
| Classes.DefineClassSharesBaseCollection | mdb/class_definitions.go:152-162 | corrected, a class loaded with a known base shares its base's collection name |
| Classes.LoadFromKeepsFirst | mdb/class_definitions.go:144-172 | a loaded class is never replaced, and only the names of definitions are added |
| Classes.LoadFromReportsDuplicates | mdb/class_definitions.go:145-150 | errors only accumulate, and every definition whose name is already loaded is reported |
| Classes.DefineClassGrows | mdb/class_definitions.go:144-172 | one definition keeps the loaded names, only appends errors, and a repeated name appends its report |
| Classes.LoadFromLinked | mdb/class_definitions.go:152-171 | loading keeps every Super inside the loaded classes, stored under its own name |
| Classes.LinkedCollectionName | mdb/class_definitions.go:55-61 | in linked classes a derived class shares its Super's collection |
| Classes.LoadResultOutcome | mdb/class_definitions.go:127-178 | a read, unmarshal or empty-list failure is an error and changes nothing; otherwise nil exactly when no error accumulated |
| Classes.ClassDefinitions.Find | mdb/class_definitions.go:180-185 | the class loaded under the name, and nil exactly for an unknown name |
| Classes.ClassDefinitions.LoadFromXml | mdb/class_definitions.go:127-178 | corrected Super (SuperOf): the answer and the new class table are those of the load described by the definitions loop |
| Classes.LoadProperties | mdb/class_definitions.go:164-170 | the property loop stores each loaded property under its name, carrying the errors along |
| MdbDriver.FindClassByBody | mdb/mdb_driver.go:38-57 | no body or no "type" names no class; a class is found exactly when "type" is a string naming a known class; a non-string or unknown type is a bad request |
| MdbDriver.FindClass | mdb/mdb_driver.go:59-74 | the body's type wins, found or failing; only without it is params["mdb.type"] used, and then it is required |
| MdbDriver.ClassOfParams | mdb/mdb_driver.go:147-155 | Get and Delete look the class up exactly as findClass does without a body |
| MdbDriver.Create | mdb/mdb_driver.go:76-104 | a missing body is BodyNotExists and an undecodable one an internal error; success only when the body decoded, its class was found and the insert answered the returned id |
| MdbDriver.DbFailure | mdb/mdb_driver.go:134-141 | a database error reading "not found" is RecordNotFound, any other an internal error |
| MdbDriver.Put | mdb/mdb_driver.go:106-144 | the id is checked first, then its object-id form, then the body; success only when all of them, the class lookup and the update succeeded |
| MdbDriver.DeleteRouteOf | mdb/mdb_driver.go:156-174 | "" is a missing id, "all" removes all, "query" removes by query, anything else is an object id |
| MdbDriver.RemoveReply | mdb/mdb_driver.go:161-173 | the removal's verdict is passed on, with an internal error exactly when the database reported one |
| MdbDriver.Delete | mdb/mdb_driver.go:146-191 | a failed class lookup is its error; then routing on the id: a missing id, remove all, remove by query, a malformed id, or removal by id, true exactly when it succeeded |
| MdbDriver.GetRouteOf | mdb/mdb_driver.go:204-217 | "" and "query" find by query, "count" counts, anything else is an object id |
| MdbDriver.QueryReply | mdb/mdb_driver.go:206-210 | the query's rows, or an internal error exactly when the query failed |
| MdbDriver.Get | mdb/mdb_driver.go:193-232 | a failed class lookup is its error; then routing on the id: find by query, count, a malformed id, or lookup by id, with "not found" as RecordNotFound |
| MdbDriver.MalformedIdRejected | mdb/mdb_driver.go:112-115 | once the class is known, a malformed object id is the same bad request for Put, Delete and Get |
| MdbDriver.ParamsLookupAgrees | mdb/mdb_driver.go:59-74 | without a type in the body, findClass and the params lookup agree |
| AlertAction.Advance | poller/alert_action.go:35-45 | a new status restarts the count at 1 with nothing sent; the same status adds one, and a count reaching the guard is reset to max_repeated+10 |
| AlertAction.AdvanceInRange | poller/alert_action.go:35-45 | the count never goes negative and stays below the guard except right after the reset |
| AlertAction.AdvanceKeepsThreshold | poller/alert_action.go:38-40 | once the count reached max_repeated, further equal statuses keep it there, across the overflow reset too |
| AlertAction.RepeatCounts | poller/alert_action.go:35-45 | after a change to a new status, the k-th equal result in a row sees the count k |
| AlertAction.FirstFireAtThreshold | poller/alert_action.go:47-53 | the first event of a new status is sent exactly from its max_repeated-th result on |
| AlertAction.NoResendAfterDelivery | poller/alert_action.go:51-53 | after a delivered event, further results of the same status send nothing |
| AlertAction.AtMostOneSendPerStatus | poller/alert_action.go:47-79 | a run of results of one status sends at most one delivered event |
| AlertAction.RetryAfterFailedSend | poller/alert_action.go:76-84 | a send that was not delivered leaves the action ready to send on the next equal result |
| AlertAction.Event | poller/alert_action.go:55-73 | the event holds the result overlaid by the options, triggered_at and current_value only when absent from both, and the current status |
| AlertAction.Overlay | poller/alert_action.go:56-63 | copying a map key by key gives the map overlaid by the source |
| AlertAction.BuildEvent | poller/alert_action.go:55-73 | the copy loops and the defaults build exactly that event |
| AlertAction.Alert.constructor | poller/alert_action.go:129-137 | the new action's result is {"name": name}, with nothing seen and nothing sent |
| AlertAction.Alert.Run | poller/alert_action.go:29-91 | a checker error is returned with nothing changed; otherwise the counters advance, and once they fire the event is handed over: delivered sets already_send, reset_error replaces the cached object, any error is returned |
| AlertAction.ClampMaxRepeated | poller/alert_action.go:120-127 | max_repeated ≤ 0 becomes 1, ≥ MAX_REPEATED becomes MAX_REPEATED-20, and anything between is kept |
| AlertAction.MakeChecker | poller/alert_action.go:140-166 | expression_style is required; only "json" builds a checker; another style names itself in the error |
| AlertAction.AlertSettingsOf | poller/alert_action.go:100-127 | a name is required, then a non-nil channel of the right type, then a checker; max_repeated defaults to 1 and is clamped |
| AlertAction.NewAlertAction | poller/alert_action.go:100-138 | a failed check answers nil with its error; otherwise a fresh action with the settings, the options and clean counters |
| PollerServer.StringWithDefault | poller/server.go:75-77 | a missing attribute gives the default |
| PollerServer.StartFailure | poller/server.go:80-83 | the errorJob for a failed stage carries the trigger's id (default "unknow_id") and the message "<stage> 'id:name' failed, e" |
| PollerServer.StartedJob | poller/server.go:74-99 | a newJob failure gives an errorJob for "create", a Start failure one for "start", and a running job only when both succeeded |
| PollerServer.LoadedJob | poller/server.go:102-113 | a failed fetch gives an errorJob under the requested id with the fetch's message; a fetched trigger is started as startJob does |
| PollerServer.StopIn | poller/server.go:115-123 | an unknown id changes nothing; a known one is stopped once and removed, every other job kept |
| PollerServer.FetchFailureIsKeyed | poller/server.go:104-107 | a failed fetch files its errorJob under exactly the requested id |
| PollerServer.VersionsOf | poller/server.go:213-217 | the old snapshot has one entry per job, holding that job's Version as its updated_at |
| PollerServer.LoadEachKeys | poller/server.go:221-223 | loading ids that file under their own id adds exactly those ids, stops nothing and keeps the other jobs |
| PollerServer.ReloadEachKeys | poller/server.go:227-230 | stop-then-load of such ids leaves exactly the old ids plus those, other jobs unchanged |
| PollerServer.StopEachKeys | poller/server.go:234-236 | stopping ids removes exactly those ids and keeps every remaining job as it was |
| PollerServer.ReconcileMirrorsSnapshot | poller/server.go:213-237 | after the load/reload/stop of Diff's lists, the job table's ids are exactly the new snapshot's ids and an unchanged id keeps its job |
| PollerServer.PageAt | poller/server.go:139-141 | past the pages the service holds, the answer is an empty (nil) page |
| PollerServer.DeletesOf | poller/server.go:142-156 | at most one delete per cookie; none when every cookie belongs to a loaded trigger, one per cookie when none does |
| PollerServer.CookiesFrom | poller/server.go:128-161 | the first request from page k is at offset 100*k |
| PollerServer.CookiesOffsets | poller/server.go:128 | the offsets asked for are 100*k, 100*(k+1), ... in order |
| PollerServer.ShortPageIsLast | poller/server.go:139-160 | a nil page or one shorter than 100 ends the loop without an error, asking for no further offset |
| PollerServer.CookiesStep | poller/server.go:128-161 | a full page contributes its deletes and its offset ahead of those of the following pages, and the error is the later pages' |
| PollerServer.PageDeletes | poller/server.go:142-156 | the loop over one page requests exactly DeletesOf's deletes, in order |
| PollerServer.LoadCookies | poller/server.go:125-163 | the paging loop answers exactly CookiesFrom from page 0: its error, its deletes and its offsets |
| PollerServer.OnStartOutcome | poller/server.go:165-193 | a fetch failure or a zero trigger id is reported before any job starts and leaves the table as it was; success means every trigger was started in order; no cookie deletes when cookie loading is off |
| PollerServer.IndexTriggers | poller/server.go:171-179 | reports a zero id exactly when some trigger's id is 0; otherwise the ids collected are exactly the ids of all triggers |
| PollerServer.StartEachKeys | poller/server.go:188-190 | starting the triggers adds exactly each started job's own id and stops nothing |
| PollerServer.RangeOrder | poller/server.go:196 | a range over the job map visits every key exactly once |
| PollerServer.Server.constructor | poller/server.go:62-72 | a new server has an empty job table and no last error |
| PollerServer.Server.StartJob | poller/server.go:74-100 | the job table becomes StartIn of the old one: StartedJob filed under its own id |
| PollerServer.Server.LoadJob | poller/server.go:102-113 | the job table becomes LoadIn of the old one |
| PollerServer.Server.StopJob | poller/server.go:115-123 | the job table becomes StopIn of the old one |
| PollerServer.Server.OnStop | poller/server.go:195-202 | every job is stopped exactly once and the table is left empty |
| PollerServer.Server.OldSnapshots | poller/server.go:213-217 | the loop builds exactly VersionsOf the job table |
| PollerServer.Server.LoadAll | poller/server.go:220-224 | the table becomes LoadEach of the new ids |
| PollerServer.Server.ReloadAll | poller/server.go:226-231 | the table becomes ReloadEach of the updated ids |
| PollerServer.Server.StopAll | poller/server.go:233-237 | the table becomes StopEach of the deleted ids |
| PollerServer.Server.OnIdle | poller/server.go:204-238 | the fire time is recorded; a snapshot error is kept as last error with the table unchanged; otherwise the error is cleared, the three lists are exactly Diff's new, updated and deleted ids, each without repeats, and the table is reconciled with them |
| PollerServer.Server.OnStart | poller/server.go:165-193 | the error, the cookie deletes and the new table are exactly OnStartOutcome |
| SnmpClient.SetRequestId | snmp/udp_client.go:420 | the tagged pdu carries the new id and keeps its type and kind |
| SnmpClient.CreatePdu | snmp/udp_client.go:60-72 | a pdu is created exactly for a type in 0..SNMP_PDU_REPORT and a known version, with id 0; v1 and v2c share the V2C kind, v3 has its own; an out-of-range type is rejected with its number in the message |
| SnmpClient.Unpack | snmp/udp_client.go:103-120 | no value is "return empty.", more than two is "num of return value is error.", one or two values are unpacked into pdu and error, and a value of the wrong type is a failed type assertion |
| SnmpClient.BadNetReplies | snmp/udp_client.go:281-287 | one BADNET reply per pending request, to that request's replier, with no pdu |
| SnmpClient.RangeOrder | snmp/udp_client.go:284 | a range over the pendings table visits every id exactly once |
| SnmpClient.UdpClient.constructor | snmp/udp_client.go:54-58 | a new client has sent nothing and has no pending request |
| SnmpClient.UdpClient.SendPdu | snmp/udp_client.go:407-460 | a ctx/callback pair not of exactly one panics with nothing changed; otherwise the counter goes up by one and tags the pdu; a taken id or an encode failure replies with the error and files nothing; otherwise the request is pending before the write, and a failed write drops the connection and replies BADNET; the pending ids stay unique, positive and at most the counter |
| SnmpClient.UdpClient.RemoveRequest | snmp/udp_client.go:74-76 | only that id leaves the pendings table |
| SnmpClient.UdpClient.HandleDisconnection | snmp/udp_client.go:281-287 | every pending request gets exactly one BADNET reply and the table is kept |
| SnmpClient.UdpClient.SendAndRecv | snmp/udp_client.go:85-121 | the answer is Unpack of the returned values, and the request's id is removed afterwards when one was assigned |
| PingerDrivers.Pinger.constructor | snmp/pinger.go:248-257 | a new pinger has sent nothing, is open, and will receive the given arrivals |
| PingerDrivers.Pinger.Recv | snmp/pinger.go:277-285 | the next arrival is taken in order; with none left the answer is a timeout |
| PingerDrivers.Pinger.Send | snmp/pinger.go:269-271 | the probe is recorded after the earlier ones and the send's result is returned |
| PingerDrivers.Pinger.Close | snmp/pinger.go:259-263 | the pinger is closed and nothing else changes |
| PingerDrivers.Drain | snmp/pinger_driver.go:50-60 | receiving up to the first timeout consumes at most the inbox, and an error answered is that of a failed receive in it |
| PingerDrivers.DrainCollects | snmp/pinger_driver.go:50-61 | arrivals without an error before a timeout are all returned, in order, and the rest of the inbox is left |
| PingerDrivers.HostSteps | snmp/pinger_driver.go:111-116 | one probe per host of the range, to "host:port" on that version, in range order |
| PingerDrivers.RangePlan | snmp/pinger_driver.go:105-117 | the whole range once per version, restarted for each version |
| PingerDrivers.PutPlan | snmp/pinger_driver.go:99-118 | one plan part per entry of the body's list, in order |
| PingerDrivers.ThenAssoc | snmp/pinger_driver.go:99-118 | running plans one after another does not depend on how the nesting is grouped |
| PingerDrivers.Run | snmp/pinger_driver.go:99-118 | a run sends at most one probe per step |
| PingerDrivers.RunAppend | snmp/pinger_driver.go:99-118 | running a concatenation is running its parts in turn, the second only if the first did not fail |
| PingerDrivers.RunStep | snmp/pinger_driver.go:99-118 | the run up to step i+1 is the run up to step i followed by step i |
| PingerDrivers.RunStops | snmp/pinger_driver.go:101-115 | once a run has failed nothing more is sent |
| PingerDrivers.RunSendsAll | snmp/pinger_driver.go:99-119 | with no failing step every planned probe is sent, in plan order, and the run succeeds |
| PingerDrivers.RunFailsAtFirst | snmp/pinger_driver.go:101-115 | a run fails with the first failing step's error, having sent exactly the probes before it and that step's own |
| PingerDrivers.HostRunStops | snmp/pinger_driver.go:111-116 | the host loop ends at its first failed send |
| PingerDrivers.RangeRunStops | snmp/pinger_driver.go:105-117 | the version loop ends at its first failure |
| PingerDrivers.PutRunStops | snmp/pinger_driver.go:99-118 | the address loop ends at its first failure |
| PingerDrivers.HostRunIsRun | snmp/pinger_driver.go:111-116 | the host loop does exactly what its plan says |
| PingerDrivers.RangeRunIsRun | snmp/pinger_driver.go:105-117 | the version loop does exactly what its plan says |
| PingerDrivers.PutRunIsRun | snmp/pinger_driver.go:99-118 | the address loop does exactly what its plan says |
| PingerDrivers.PutSendsEveryProbe | snmp/pinger_driver.go:99-119 | when every range parses and no send fails, Put sends every planned probe, entry by entry, version by version, host by host |
| PingerDrivers.PutStopsAtFirstFailure | snmp/pinger_driver.go:99-118 | Put stops at its first failing step, having sent the probes before it |
| PingerDrivers.ProbeVersions | snmp/pinger_driver.go:93-97 | both v2c and v3 are probed unless the request names one version, which is then the only one |
| PingerDrivers.SendHosts | snmp/pinger_driver.go:111-116 | the host loop sends exactly HostRun's probes and answers its error |
| PingerDrivers.SendRange | snmp/pinger_driver.go:105-117 | the version loop sends exactly RangeRun's probes and answers its error |
| PingerDrivers.SendEntry | snmp/pinger_driver.go:100-117 | one list entry sends exactly EntryRun's probes and answers its error |
| PingerDrivers.SendAll | snmp/pinger_driver.go:99-118 | the address loop sends exactly PutRun's probes and answers its error |
| PingerDrivers.PingerDriver.constructor | snmp/pinger_driver.go:17-19 | a new driver has no pinger |
| PingerDrivers.PingerDriver.Get | snmp/pinger_driver.go:40-62 | a missing id is IdNotExists, an unknown one RecordNotFound; otherwise the answer is the pinger's arrivals up to the first timeout, or the first receive error; only that pinger's inbox changes, and every other pinger, and every pinger on an error, is unchanged |
| PingerDrivers.PingerDriver.Put | snmp/pinger_driver.go:64-120 | IdNotExists, RecordNotFound, BodyNotExists, IsRequired("body") and the BadRequest for a body that is not a JSON list are checked in that order; otherwise the probes sent and the answer are exactly PutRun's; only the target's sent probes change, its inbox and closed flag stay, and every other pinger, and every pinger on an error, is unchanged |
| PingerDrivers.PingerDriver.Create | snmp/pinger_driver.go:122-158 | an empty body reads as "{}"; network and address come from the body, else the request; a missing network, a taken id or a failed NewPinger changes nothing; otherwise a fresh pinger is stored under "network,address" and every other entry is kept |
| PingerDrivers.PingerDriver.Delete | snmp/pinger_driver.go:160-173 | a missing id is IdNotExists, an unknown one RecordNotFound; otherwise the entry is removed and its pinger closed with its inbox and probes kept; every other pinger, and every pinger on an error, is unchanged |
| Nmap.RepeatBytes | nmap/icmp.go:204 | the repetition is count copies of the filler long |
| Nmap.RepeatCopy | nmap/icmp.go:204 | byte r of copy q of the repetition is byte r of the filler |
| Nmap.RepeatIndex | nmap/icmp.go:204 | byte k of the repetition is byte k mod the filler's length |
| Nmap.RepeatCovers | nmap/icmp.go:204 | (msglen-8)/len(filler)+1 copies always cover the msglen-8 body bytes |
| Nmap.Filled | nmap/icmp.go:204 | the body laid out over n bytes is exactly n long |
| Nmap.InfoMessage | nmap/icmp.go:202-214 | the information message is exactly msglen bytes |
| Nmap.NewInfoMessage | nmap/icmp.go:202-214 | the array built in place holds exactly InfoMessage: zero type, code and checksum, big-endian identifier and sequence number, then the filler repeated |
| Nmap.ParseEchoReply | nmap/icmp.go:216-222 | identifier and sequence number are 16-bit values and the body is everything after the 8-byte header |
| Nmap.ParseInfoMessage | nmap/icmp.go:202-222 | parsing an information message gives back its identifier and sequence number modulo 2^16 and the filler laid out over the body |
| Nmap.V4EchoRequest | nmap/icmp.go:173-194 | the v4 echo request is exactly msglen bytes |
| Nmap.SumWords | nmap/icmp.go:178-185 | the summing loop computes the sum of the 16-bit little-endian words, an odd last byte as a low byte, modulo 2^32 |
| Nmap.NewV4EchoRequest | nmap/icmp.go:173-194 | the in-place build with the checksum loop yields exactly V4EchoRequest |
| Nmap.FoldStep | nmap/icmp.go:186-187 | one end-around carry step shrinks a value of 17 bits or more and keeps it modulo 0xFFFF |
| Nmap.EndAroundProps | nmap/icmp.go:186-187 | end-around folding fits 16 bits, keeps the value modulo 0xFFFF and is zero only for zero |
| Nmap.FoldIsEndAround | nmap/icmp.go:186-187 | the source's two folds of a uint32 are end-around folding in the low 16 bits |
| Nmap.WordSumBound | nmap/icmp.go:179-185 | for messages of at most 2^17 bytes the uint32 accumulator never wraps |
| Nmap.WordSumReplace | nmap/icmp.go:190-191 | changing the checksum bytes changes the word sum by exactly the change in that word |
| Nmap.ChecksumBytes | nmap/icmp.go:190-191 | the two bytes written hold the complement of the folded sum's low 16 bits |
| Nmap.OnesComplementCloses | nmap/icmp.go:186-191 | a sum plus the complement of its folded form folds to all ones |
| Nmap.ChecksumCloses | nmap/icmp.go:177-191 | on a message whose checksum bytes start at zero, writing the checksum makes the whole message fold to 0xFFFF |
| Nmap.V4ChecksumVerifies | nmap/icmp.go:173-194 | every v4 echo request of at most 2^17 bytes carries a valid Internet checksum: its ones'-complement word sum is 0xFFFF |
| Nmap.V4Fields | nmap/icmp.go:172-222 | the v4 request reads back as type 8, code 0, with the message's identifier, sequence number and body |
| Nmap.V6EchoRequest | nmap/icmp.go:196-200 | the v6 echo request is exactly msglen bytes |
| Nmap.NewV6EchoRequest | nmap/icmp.go:196-200 | the build yields exactly V6EchoRequest |
| Nmap.V6Fields | nmap/icmp.go:195-222 | the v6 request reads back as type 128, code 0, checksum left zero, with the message's fields |
| Nmap.EchoRequest | nmap/icmp.go:166-171 | the v6 builder is used exactly for AF_INET6, the v4 one otherwise |
| Nmap.NewEchoRequest | nmap/icmp.go:166-171 | the request is EchoRequest, and its type byte is 128 for AF_INET6 and 8 otherwise |
| Nmap.To4 | nmap/icmp.go:20 | an address converts to IPv4 exactly when it is 4 bytes or an IPv4-mapped 16-byte one, giving its last four bytes |
| Nmap.Family | nmap/icmp.go:16-24 | AF_INET6 exactly for an address longer than 4 bytes that is not IPv4-mapped; AF_INET otherwise, including no address |
| Nmap.NetworkFamily | nmap/icmp.go:58-66 | only "ip4:icmp" and "ip6:icmp" are accepted, and AF_INET6 exactly for "ip6:icmp" |
| Nmap.SendRequest | nmap/icmp.go:68-75 | the corrected request holds the header and one copy of the filler |
| Nmap.SendRequestFields | nmap/icmp.go:68-75 | the corrected request reads back with the endpoint's identifier, the new sequence number and the filler |
| Nmap.SendRequestAsWritten | nmap/icmp.go:75 | as written, the request is as long as the sequence number |
| Nmap.SendAsWrittenShiftsFields | nmap/icmp.go:75 | as written, the identifier field carries the family and the sequence field the identifier |
| Nmap.SendAsWrittenExample | nmap/icmp.go:48-75 | the first v4 request of an endpoint with identifier 1234 is 61456 bytes long and its identifier field reads 2 |
| Nmap.Icmp.constructor | nmap/icmp.go:37-56 | a new endpoint starts at sequence number 61455 with nothing written |
| Nmap.Icmp.Send | nmap/icmp.go:68-87 | corrected request (SendRequest): the sequence number goes up by one; the given filler is used, else the endpoint's; a resolve or write error is reported with its message and nothing is written; otherwise the request for the endpoint's family is written |
| Nmap.NewIcmp | nmap/icmp.go:37-66 | an unsupported network or a failed listen gives no endpoint and the source's message; otherwise a fresh endpoint of the network's family with identifier pid & 0xffff |
| SnmpTools.IsAsciiAndPrintable | sampling/snmptools/main.go:101-112 | true exactly when every byte is below MaxASCII and printable |
| SnmpTools.Unit16 | sampling/snmptools/main.go:135 | a little-endian pair of bytes is a 16-bit value |
| SnmpTools.IsUtf16AndPrintable | sampling/snmptools/main.go:129-141 | true exactly when the length is even and every little-endian 16-bit unit is printable |
| SnmpTools.RuneOf32 | sampling/snmptools/main.go:149-150 | rune(u32) is the int32 with the same 32 bits |
| SnmpTools.IsUtf32AndPrintable | sampling/snmptools/main.go:143-155 | true exactly when the length is a multiple of four and every little-endian 32-bit unit, read as a rune, is printable |
| SnmpTools.Runes | sampling/snmptools/main.go:115-125 | decoding to the end gives at most one rune per byte, the first being the decoder's first rune |
| SnmpTools.Utf8ScanAllRunes | sampling/snmptools/main.go:114-127 | the scan succeeds exactly when no decoded rune is RuneError and every one is printable |
| SnmpTools.IsUtf8AndPrintable | sampling/snmptools/main.go:114-127 | the re-slicing loop answers exactly the scan |
| SnmpTools.VersionOf | sampling/snmptools/main.go:446-450 | "2", "2c", "v2", "v2c", "1", "v1" read as v2c, "3" and "v3" as v3, anything else as unknown |
| SnmpTools.ReplaceDots | sampling/snmptools/main.go:448-450 | every '.' of the OID becomes '_' and nothing else changes |
| SnmpTools.Keys | sampling/snmptools/main.go:448-455 | the keys of the parameters, in order |
| SnmpTools.AuthParams | sampling/snmptools/main.go:451-455 | auth_pass is sent exactly when given, and priv_pass exactly when it and auth_pass are both given |
| SnmpTools.ColumnsParams | sampling/snmptools/main.go:441-444 | snmp.columns is sent exactly for a table request with columns given |
| SnmpTools.UrlParams | sampling/snmptools/main.go:448-450 | the first parameter is the OID with its dots replaced |
| SnmpTools.CreateUrl | sampling/snmptools/main.go:440-461 | an unknown version is exactly the error "version is error." |
| SnmpTools.UrlKeys | sampling/snmptools/main.go:446-456 | v2c sends oid, version and community, then the columns; v3 sends oid, version, secmodel and secname, then the columns, then the pass phrases |
| SnmpTools.CreateUrlColumns | sampling/snmptools/main.go:441-444 | the URL names columns exactly for a table request with columns given |
| SnmpTools.CreateUrlPassPhrases | sampling/snmptools/main.go:448-456 | pass phrases appear only for v3, auth when given, priv only together with auth, and the OID parameter holds no '.' |
| SnmpTools.MetricParams | sampling/snmptools/main.go:355-365 | the metric URL's parameters start with the version |
| SnmpTools.MetricUrlParams | sampling/snmptools/main.go:353-370 | the metric URL always names the charset, never the columns, and its unprefixed pass phrases follow the same v3 rule |
| SnmpTools.MetricUrl | sampling/snmptools/main.go:353-370 | an unknown version is exactly the error "version is error." |
| SnmpTools.ParseArgs | sampling/snmptools/main.go:234-253 | no argument keeps the default target and OID, one sets the target, two set both, and more than two give the usage text |
| SnmpTools.FindTableFirst | sampling/snmptools/main.go:264-270 | the lookup finds nothing exactly when no table has the name, and otherwise the OID of the first table with it |
| SnmpTools.LookupTable | sampling/snmptools/main.go:264-270 | the table loop finds exactly FindTable's OID |
| SnmpTools.ResolveOid | sampling/snmptools/main.go:264-279 | the table loop and the switch give exactly Alias's OID and action |
| SnmpTools.TableOidsAreNotAliases | sampling/snmptools/main.go:272-279 | no table's OID is one of the switch's names, so the switch never undoes a table lookup |
| SnmpTools.AliasTable | sampling/snmptools/main.go:264-270 | a known table name becomes its OID with action "table", whatever the action flag said |
| SnmpTools.AliasSystem | sampling/snmptools/main.go:272-275 | "system" becomes 1.3.6.1.2.1.1 with action "table" |
| SnmpTools.AliasSystemDescr | sampling/snmptools/main.go:276-278 | "system.descr" and "system.description" become a get of 1.3.6.1.2.1.1.1.0 |
| SnmpTools.NoTableNamedDescr | sampling/snmptools/main.go:60-99 | no table is named "system.descr" or "system.description" |
| SnmpTools.AliasOther | sampling/snmptools/main.go:264-279 | any other OID and action are left as given |
| SnmpTools.Dispatch | sampling/snmptools/main.go:280-304 | a non-numeric OID is a metric call, its walk turned into a get; a numeric one runs walk, next, get or table, or reports the unsupported action |
| SnmpTools.FirstErrorValue | sampling/snmptools/main.go:504-513 | no error value is found exactly when no value starts with "[error", and one found is the first such in iteration order |
| SnmpTools.ValuesIn | sampling/snmptools/main.go:504-517 | the values, in iteration order |
| SnmpTools.OrderCovers | sampling/snmptools/main.go:504 | an iteration order of a map visits only its keys, and is empty exactly for an empty map |
| SnmpTools.InterpretValues | sampling/snmptools/main.go:498-519 | an empty result is an error with the body; the first error value ends it with "walk end." or "invalid value"; otherwise the next OID is the last key visited and every value was printed in order |
| CircularBuffers.Window | commons/circular_buffer_test.go:11-78 | the window keeps the last min(len, n) values pushed, oldest first |
| CircularBuffers.WindowPush | commons/circular_buffer_test.go:81-84 | pushing onto the window of a history gives the window of the longer history |
| CircularBuffers.CircularBuffer.All | commons/circular_buffer_test.go:16-18 | All holds as many values as the buffer retains |
| CircularBuffers.CircularBuffer.constructor | commons/circular_buffer_test.go:8 | a buffer over a non-empty array starts empty and uses that array |
| CircularBuffers.CircularBuffer.Size | commons/circular_buffer_test.go:42-48 | the size is the length of All and never exceeds the capacity |
| CircularBuffers.CircularBuffer.Get | commons/circular_buffer_test.go:27-31 | Get(i) is All()[i] |
| CircularBuffers.CircularBuffer.First | commons/circular_buffer_test.go:67-73 | First is the oldest retained value |
| CircularBuffers.CircularBuffer.Last | commons/circular_buffer_test.go:63-65 | Last is the newest retained value |
| CircularBuffers.CircularBuffer.Push | commons/circular_buffer_test.go:81-84 | the value is retained as the newest, and when full the oldest is dropped: All is the window of the history plus the value |
| CircularBuffers.TestChecks | commons/circular_buffer_test.go:10-79 | after pushing 0..c into a buffer of capacity 10, the size, the contents, Get, First and Last are exactly what the test checks |
| CircularBuffers.TestCircularBuffer | commons/circular_buffer_test.go:7-85 | the test's loop of 100 pushes, with every check, leaves 90..99 in the buffer |
| CircularBuffers.WindowPushOfRange | commons/circular_buffer_test.go:81-84 | one more push of i turns the window of 0..i-1 into the window of 0..i |

## Left out

Shared choices:

- Where a bug of the source is listed under "## Findings", the operational member that stands for the buggy function uses the corrected half, and the as-written half is kept beside it with the lemma that exhibits the bug. Each such member is named on its own line below.

- The Go packages disagree with each other about the driver API. For example, commons/driver.go:181 has `Driver.Get` return a Result, while the metric and pinger drivers return `(map, error)`. Each module uses the form its own source file uses.
- Go's `interface{}` is the `Value` datatype, holding only the shapes the core inspects. Reference identity and aliasing of maps shared between callers are not modelled.
- Logging and `fmt.Print*` output are left out everywhere, because they are I/O.
- `%v`, `%q` and `%T` renderings are either oracles or left out of messages, as each member's comment says. `Nmap.Quote` wraps a string in quotes without Go's escaping.
- Integers are unbounded, and no core arithmetic depends on Go's int width. The exceptions are written out: the ICMP uint32 checksum accumulator, byte truncation, and `rune(uint32)`.

Drivers, dispatchers and results:

- `SimpleResult.ToJson`, the `As*` coercions other than `AsObject` and `AsObjects`, and the `StringMap` getters are left out, because they are JSON and reflection helpers.
- metrics/metric_driver.go: the dispatcher's own code is not part of this model. It is a spec table keyed by id.
- The metrics and sampling `NewMetrics` factories are inputs. The clock that stamps `created_at` is a parameter.

Lua bridges:

- The Lua VM is left out: lua_resume, the stack and file loading. A coroutine is a `Fiber` with a fixed script of resume outcomes, and `toAny`/`pushAny` are conversions assumed to be exact.
- `SafelyCall`'s timeout and the shared executor are left out. Every call is taken to complete, so the `waitG` balance is claimed only under that assumption.
- The elapsed-time computation at lua_binding/lua_driver.go:737-738 is left out, because it is wall-clock arithmetic.
- The Lua scripts in lua_binding/lua_init_script.go are protocol reference only, not Go logic.
- The `toContinuous` type checks and the logger's output are left out.
- `Bridge`: the "log" request's text is not recorded, only that it never reaches a driver and that the reply is (nil, nil).

Discovery:

- Left out: `pollAddress`, `readMetric`, `initDevice`, `readLocal`, `Control`, `IsCompleted`, `Close`, the log channel, the goroutines and the mutex. They are concurrency or SNMP I/O. `serve` is a sequential loop over a given stream of events.
- The `DiscoveryParams` declaration is not part of this model. Its fields are taken from their uses.

Data store:

- `DataStoreClient`: the thin HTTP wrappers are left out, because each is only URL building plus an HTTP call. They are Create, CreateByParent, UpdateBy, DeleteById, Count, FindById, FindBy, FindByMultIdWithIncludes, FindByIdWithIncludes, Children, Parent and Snapshot.
- `DataStoreClient.SaveBy`: models the corrected create check (CreateJsonChecked), not data_store/client.go:53's createJson. A numeric lastInsertId of -1 is an error here, while the source reports it as the id "-1".
- `DataStoreClient`: NewClient, MarshalError and json.Marshal are inputs. Time parsing (AsTime) and `commons.IsMatch` are oracles.
- `CtiPolicy`: `postgresql_cti_policy` (data_store/cti_policy.go:252-435) is left out, because it builds SQL text.
- `CtiPolicy`: on an error, Go returns `(0, e)`. The model returns only the error.
- `Query`: `QueryImpl.One`/`All` (data_store/query.go:211-237) are database calls. A cursor over `rows.Next` and `Scan` becomes a given sequence of scanned rows.
- `Query.ToColumns`: models the corrected merge (MergeAttributes), not data_store/query.go:47-48's mergeAttributes. A leaf child's own columns appear here, while the source drops them.
- `Query.RowBySingleTableInheritance` requires a first column that is present. `toColumns` always puts "type" first, and the source would panic without it.
- The commented-out code of ds/query.go is left out.

SNMP metrics, validators and mdb:

- `SnmpMetric`: GetString through GetUint64 (metrics/snmp.go:165-211) and EachInTable (278-281) are thin wrappers, and are left out.
- `SnmpMetric`: the `Call` wrappers at metrics/snmp.go:324-448 are left out, since each only reads a fixed OID. `ErrorIsRestric` and the commented-out systemType `Init` are left out too. The `recover()` guard in GetTable is modelled only for the nil driver's panic, because the callbacks are total functions that cannot panic.
- `SnmpMetric.SnmpBase.Init`: models the corrected Init (InitChecked), not metrics/snmp.go:49-54. A driver manager without "snmp" is an error here, while the source reports success with a nil driver. A nil driver is still modelled, since a new SnmpBase has none: `GetResult` panics on it, and `GetTable` recovers the panic into an error.
- `SnmpMetric`: the typed readers of the metrics package are oracles.
- The OID-prefix dispatcher of metrics/dispatcherBase_test.go is left out. Its only source is commented out.
- `Validators`: DecimalValidator is left out (floating point). PatternValidator is modelled by `Validators.PatternCheck`, but its regular-expression engine is not: the match is a parameter.
- `Validators.Validate`: models the corrected enumeration check (EnumerationCheck), not mdb/validator.go:125-126's comparison of indices. An enumeration accepts exactly its listed values here.
- `Classes.ValidateProperty`: runs `Validators.Validate`, so it too checks an enumeration by value, not by index.
- `Validators.StringLengthCheck` counts characters, not UTF-8 bytes.
- `Classes`: the hard-coded file test/test1.xml and the XML declarations are not modelled. Type definitions are oracles.
- `Classes.DefineClass`: models the corrected Super (SuperOf), not the shadowed `super` of mdb/class_definitions.go:152-162. A class with a known base has that base as its Super here, while the source stores nil.
- `Classes.LoadFrom`: folds `Classes.DefineClass`, so it stores the corrected Super too.
- `Classes.ClassDefinitions.LoadFromXml`: stores `SuperOf` in its loop, so it also models the corrected Super.
- mdb/class_definitions_test.go is left out. It uses an API that the class-definitions file does not have.
- `MdbDriver`: NewMdbDriver is left out, because it searches for a file and dials MongoDB. Every MongoDB call is an oracle.
- `MdbDriver`: the removal answer is an `Option`. A failed removal that reports no error would panic in the source.

Poller and alerts:

- `AlertAction`: the channel send and receive are a per-run reply parameter, and the data object's channel is left out.
- `PollerServer`: `errorJob`'s methods other than Id and Version are left out. So are the cookie field copies (poller/server.go:145-148), which nothing in the core reads, and the cookie service's HTTP.
- `PollerServer`: the String, wrap, Sync, StatsAll, StatsById, StatsByName and StatsByAddress handlers (poller/server.go:240-392) are left out, because they are HTTP handlers.
- `PollerServer`: poller/job.go and poller/history_action.go are not part of this model. Job construction and Start are inputs.

SNMP client and pingers:

- `SnmpClient`: `newError`'s text formatting and the version text are left out.
- `SnmpClient`: request-id wrap-around, v3 engine discovery (`sendV3PDU`, `discoverEngine*`), `readUDP`, `handleRecv` and `handleSend` are left out. They are wire format and socket I/O.
- `SnmpClient.UdpClient.SendPdu`: the encode failure's cause text is not kept in the error, only its code and context.
- `PingerDrivers`: the sockets and the 500 ms sleep between versions are left out. `ParseIPRange`, `getVersion` and JSON decoding are inputs.
- `PingerDrivers`: the receive timeout is the end of a given inbox, and the channel capacity 256 is not modelled.

ICMP, the SNMP tool and the buffer:

- `Nmap`: `Recv` is left out, because it is a socket read loop. `SetDeadline` and `Printf` are left out too, and the listen, resolve and write results are inputs.
- `Nmap`: AF_INET and AF_INET6 take their Linux values.
- `Nmap.V4ChecksumVerifies` is stated for messages of at most 131072 bytes. Beyond that the uint32 accumulator could wrap, and the claim is not made.
- `Nmap.Icmp.Send` requires a non-empty filler. An empty one would divide by zero in the source.
- `Nmap.Icmp.Send`: writes the corrected request (SendRequest), not nmap/icmp.go:75's call with shifted arguments. The first AF_INET request is 8 bytes plus the filler here, while the source builds a 61456-byte message.
- `SnmpTools`: `unicode.IsPrint` and `utf8.DecodeRune` are inputs.
- `SnmpTools`: `printValue`, the mahonia charset decoders, the HTTP calls, flag parsing and the usage text are left out.
- `SnmpTools`: `commons.ConvertToIntList` is a given flag, `fmt.Sprint` of a value is the value's text, and the answer map's iteration order is a parameter.
- `CircularBuffers`: the implementation is not part of this model. The ring layout is the model's own, written to the test's assertions.
- `CircularBuffers.CircularBuffer.Get` requires an index in range. The test never asks outside it.
- `CircularBuffers.CircularBuffer.First` and `CircularBuffers.CircularBuffer.Last` require a non-empty buffer. The test asks for them only after a push.

## Findings

The bugs below were found in the source by proof. Nothing was executed.

| source | as written | input that shows it | evidently intended | confidence | as-written member | corrected member |
|---|---|---|---|---|---|---|
| data_store/client.go:76-79 | the "-1" check compares the interface{} id with the string "-1" only | a numeric lastInsertId of -1 passes and is reported as id "-1" | reject an id that is -1 whatever its type | not executed | DataStoreClient.CreateJsonAcceptsNumericMinusOne | DataStoreClient.CreateJsonChecked |
| data_store/client.go:441-452 | with matchers, the []map case filters into a list it then discards | a []map whose first map matches gives nil | answer the matching maps in order | not executed | DataStoreClient.GetChildrenFormDropsMatches | DataStoreClient.GetChildrenFormFixed |
| data_store/query.go:24-27 | mergeAttributes copies the visited table's own attributes once per child, not the child's | a root with one leaf child that has a "port" column: "port" is missing from the merge | copy each child's own attributes | not executed | Query.MergeAsWrittenDropsLeafColumns | Query.MergeAttributes |
| metrics/snmp.go:49-52 | after Connect("snmp") the nil check tests `v` instead of the connected driver | a drv_manager with no "snmp" driver: Init succeeds with no driver bound | fail with "'snmp' is not exists in the driver manager" when the manager has no such driver | not executed | SnmpMetric.InitAsWrittenBindsNothing | SnmpMetric.InitChecked |
| mdb/validator.go:125-126 | `for v := range self.Values` ranges over indices | Values ["up","down"]: "up" is rejected and 1 is accepted | accept exactly the listed values | not executed | Validators.IndexEnumerationComparesIndices | Validators.EnumerationCheck |
| mdb/class_definitions.go:152-162 | `super` is re-declared inside the block, so the stored Super stays nil | "router" with base "device" is loaded as its own collection "router" | Super is the base, so the collection is the base's | not executed | Classes.DefineClassAsWrittenLosesBase | Classes.DefineClassSharesBaseCollection |
| nmap/icmp.go:75 | newRequest(id, seqnum, msglen, filler) is called with (family, id, seqnum, filler) | an AF_INET endpoint with identifier 1234: the first request is 61456 bytes and its identifier field reads 2 | build (id, seqnum, 8+len(filler), filler) | not executed | Nmap.SendAsWrittenExample | Nmap.SendRequest |
