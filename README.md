# docker-flow-proxy reconfiguration core, in Dafny

This project models the core of docker-flow-proxy: the reconfiguration engine and the HTTP control server in front of it.

The **reconfiguration engine** (`Reconfigure`) applies one routing intent (`ServiceReconfigure`):

1. It renders the intent into a consul-template fragment for HAProxy (`GetConsulTemplate`).
2. It writes that fragment to `<templatesPath>/service-formatted.ctmpl` with mode 0664.
3. It runs `consul-template -consul <host:port> -template … -once`.
4. It asks the proxy to rebuild its configuration from the templates, then to reload.
5. It PUTs each field of the intent to the key/value store under `docker-flow/<service>/<field>`.

The first failing step aborts the flow.

`ReloadAllServices` replays the whole fleet:

- It fetches the service catalog.
- It rebuilds each service's intent from the store; services without routing data are skipped.
- It renders all of them into one aggregate template.
- It writes, runs, rebuilds and reloads once.

The **control server** (`Server`) routes each request:

- `/v1/test` and `/v2/test` are health checks.
- `/v1/docker-flow-proxy/reconfigure` builds an intent from the query. A request without a service name, or without both a path list and a custom template, is refused with 400. Otherwise the intent goes to `Execute`, which answers 500 or 200 with a JSON echo of the intent.
- `/v1/docker-flow-proxy/remove` hands the service to the Remove capability.
- Any other path gets 404.

On startup the server runs its Run step, replays the fleet, and only then listens on `ip:port`.

Layout:

- `failures.dfy` holds the error kinds and the Result/Option types.
- `strings.dfy` holds `strings.Join`/`strings.Split`/`strings.Replace` and case-insensitive removal, with their algebra.
- `template.dfy` holds `GetConsulTemplate`.
- `kv.dfy` holds the key layout, the record an intent is stored as, and how a record is rebuilt.
- `engine.dfy` holds the engine and the outside world it drives.
- `server.dfy` holds the control server.

The engine and the server are Go struct values, so they are Dafny datatypes with methods. The outside world is a class, `Env`. It holds the store's contents (a `map`, which the methods reassign) and a log of every write and command sent out: file writes, consul-template runs, rebuilds, reloads, PUTs, Run, Remove and Listen. Reads from the store (the catalog GET and the per-key GETs of a replay) are not logged. A fixed `Capabilities` value says which calls fail, which files exist, where the store answers and what the catalog holds. The store answers a URL made of one `http://` or `https://`, in any letter case, followed by a host that holds no slash and is one the store listens at. The HTTP response writer is a class, `ResponseWriter`, with a log of the calls made on it.

Every method is proved against a specification function on values:

| method | specification function |
|---|---|
| `Apply` | `ApplySpec` |
| `Execute` | `ExecuteSpec` |
| `ReloadAllServices` | `ReplaySpec` |
| `RenderFleet` | `Fleet` |
| `PutRecord` | `Puts` |
| `ServeHTTP` | `ServeSpec` |
| `Server.Execute` | `StartupSpec` |

The lemmas prove what the test suites promise about those functions.

## Model

| member | source | states |
|---|---|---|
| Strings.Join | reconfigure_test.go:323 | joining no parts gives "", joining one part gives that part |
| Strings.Split | reconfigure_test.go:475 | splitting always yields at least one piece (strings.Split of "" is [""]) |
| Strings.SplitJoin | reconfigure_test.go:474-475 | splitting the comma-joined path list gives the list back when no path holds a comma |
| Strings.JoinSplit | reconfigure_test.go:497 | joining the pieces of a split gives the original string back |
| Strings.SplitNoSep | reconfigure_test.go:475 | no piece of a split contains the separator |
| Strings.RemoveFoldPrefix | reconfigure_test.go:238 | a leading scheme in any letter case (`HttP://`) is removed like the lower-case one |
| Strings.RemoveFoldFree | reconfigure_test.go:205 | a host with no scheme in it is left as it is |
| Template.GetConsulTemplate | reconfigure_test.go:131-156 | it fails exactly when a custom template path is set and that file cannot be read, and the error names the path; a readable custom file is returned verbatim; without a custom path the built-in fragment is produced |
| Template.RendersExpectedDefault | reconfigure_test.go:40-50 | the intent of the suite renders, byte for byte, the expected frontend/backend fragment |
| Template.RendersExpectedWithDomain | reconfigure_test.go:87-104 | with domain my-domain.com the fragment gains the host acl and use_backend requires both acls, byte for byte |
| Template.DomainAddsHostAcl | reconfigure_test.go:87-104 | for every intent, a domain inserts one host acl line after the path acl and appends the domain acl to use_backend; nothing else changes |
| Template.PathTypeOnlyChangesOperator | reconfigure_test.go:106-112 | replacing every path_beg by path_reg in a default fragment gives the path_reg fragment; an empty path type renders as path_beg |
| Template.ColorSelectsTarget | reconfigure_test.go:114-121 | with a color the fragment contains `service "<name>-<color>"`, and the range line is the only line that changes |
| Template.SkipCheckOnlyInServerLine | reconfigure_test.go:123-129 | the skip-check flag only affects the server line |
| Template.SkipCheckDropsOnlyCheck | reconfigure_test.go:123-129 | the fragment with the check is the one without it plus " check" before the final `{{end}}` line |
| Template.LinesRoundTrip | reconfigure_test.go:40-50 | the fragment is its lines joined by newlines, with no trailing newline |
| Kv.Record | reconfigure_test.go:319-328 | the record holds the six fields color, path, domain, pathtype, skipcheck, consultemplatepath, in that order |
| Kv.ParseFormatBool | reconfigure_test.go:326 | parsing the %t form of a flag gives the flag back |
| Kv.Rebuild | reconfigure_test.go:494-521 | a service is rebuilt exactly when its path or custom-template key holds a value; the rebuilt intent has that name and has no paths exactly when the path key is empty or absent |
| Kv.Key | reconfigure_test.go:472-484 | no contract of its own; KeyInjective states that docker-flow/<service>/<field> names one field of one service |
| Kv.KeyInjective | reconfigure_test.go:472-484 | two keys docker-flow/<service>/<field> are equal exactly when service and field are |
| Kv.StoreTouchesOnlyOwnKeys | reconfigure_test.go:311-332 | writing a record leaves every key of another service, and every key outside the six fields, as it was |
| Kv.StoredRecordReadsBack | reconfigure_test.go:311-332 | after writing a record every field reads back as written |
| Kv.RebuildStored | reconfigure_test.go:311-332 | an accepted intent whose paths hold no comma is rebuilt from the store exactly as it was written |
| Kv.RebuildStoredEmptyPath | reconfigure_test.go:474-475 | a path list joined to "" is not rebuilt as written: without a custom template the service reads as having no data, with one it comes back without paths |
| Engine.NewReconfigure | reconfigure_test.go:369-378 | the engine built from (base, service) hands back exactly (base, service) from GetData |
| Engine.Reconfigure.GetData | reconfigure_test.go:369-378 | the data handed back determines the engine: rebuilding from it gives the same engine |
| Engine.NewReconfigureDistinct | reconfigure_test.go:380-391 | engines built from different base values hand back different bases, and likewise for the service values |
| Engine.WithScheme | reconfigure_test.go:341-346 | the address used for PUTs always has a scheme; an address that has one is kept; the host consul-template is given does not change |
| Engine.WithSchemeIdempotent | reconfigure_test.go:341-346 | adding the scheme twice is adding it once |
| Engine.StripScheme | reconfigure_test.go:205 | stripping never lengthens the address; which schemes it removes is stated by StripSchemePrefix and StripSchemeOfHost |
| Engine.ConsulTemplateArgs | reconfigure_test.go:200-220 | no contract of its own; ConsulTemplateArgsTrimScheme states that the vector is the same for `HttP://host` and `host` and that -consul gets the bare host |
| Engine.StripSchemePrefix | reconfigure_test.go:222-243 | a scheme prefix in any letter case is stripped before the address is used |
| Engine.StripSchemeOfHost | reconfigure_test.go:200-220 | a bare host:port is passed on unchanged |
| Engine.ConsulTemplateArgsTrimScheme | reconfigure_test.go:200-243 | the consul-template arguments for `HttP://host` equal those for `host`, and the -consul argument is the bare host |
| Engine.Env.WriteTemplate | reconfigure_test.go:60-62 | the write is logged with its path, content and mode; it succeeds unless the world makes writes fail; the store is untouched |
| Engine.Env.RunCommand | reconfigure_test.go:530-537 | the consul-template argument vector is logged; it fails exactly when the command fails |
| Engine.Env.CreateConfigs | reconfigure_test.go:279-296 | the rebuild call is logged with (templatesPath, configsPath); it fails exactly when the proxy rebuild fails |
| Engine.Env.ReloadProxy | reconfigure_test.go:298-309 | the reload is logged; it fails exactly when the reload fails |
| Engine.Env.PutKey | reconfigure_test.go:466-485 | the PUT is logged with its URL and value; it succeeds exactly when the store answers at that address and accepts the field, and only then is the key set |
| Engine.Env.GetCatalog | reconfigure_test.go:486-493 | an answering store returns its catalog; otherwise a catalog error naming the catalog URL |
| Engine.Env.RunStartup | server_test.go:97-110 | the Run step is logged; it fails exactly when Run fails |
| Engine.Env.Remove | server_test.go:353-372 | the removal is logged with (serviceName, configsPath, templatesPath); it fails exactly when Remove fails |
| Engine.Env.ListenAndServe | server_test.go:68-95 | listening is logged with its address; it fails exactly when the listener fails |
| Engine.Reconfigure.Apply | reconfigure_test.go:174-309 | error, calls made and store after write/run/rebuild/reload equal ApplySpec's |
| Engine.Reconfigure.Execute | reconfigure_test.go:160-365 | error, calls made and store afterwards equal ExecuteSpec's |
| Engine.Reconfigure.ReloadAllServices | reconfigure_test.go:395-457 | error and calls made equal ReplaySpec's; the store is not written |
| Engine.RenderFleet | reconfigure_test.go:486-521 | the loop computes Fleet: services without data add nothing, the others add their fragment and a separator, in catalog order, and the first render error is returned |
| Engine.PutRecord | reconfigure_test.go:311-339 | error, calls made and store afterwards equal Puts of the record: PUTs in order, stopping at the first failed one |
| Engine.PutsSucceed | reconfigure_test.go:311-339 | the PUTs succeed exactly when the store answers and refuses none of the fields; then they log one PUT per field and leave the record stored |
| Engine.ApplyFailsFast | reconfigure_test.go:269-309 | each failing step (write, consul-template, rebuild, reload) yields its own error and no later call; success exactly when none fails, after all four calls; the store is untouched |
| Engine.ExecuteSucceeds | reconfigure_test.go:160-352 | Execute succeeds exactly when the template renders, the four steps succeed and the store accepts all six PUTs; then the calls are write, run, rebuild, reload and the six PUTs, and the store holds the record |
| Engine.ExecutePersistsIntent | reconfigure_test.go:311-332 | after a successful Execute of an accepted intent, replaying that service from the store gives back the same intent |
| Engine.ExecuteFailsFast | reconfigure_test.go:354-365 | an unreadable custom template fails before any call; a failing step ends Execute before any PUT; an unanswering store is left unchanged |
| Engine.AnswersAtHost | reconfigure_test.go:334-339 | a URL made of one scheme, in any letter case, and a host reaches the store exactly when the host holds no slash and the store listens there |
| Engine.DoubledSchemeUnanswered | reconfigure_test.go:238 | `HttP://` put in front of an address that already has http:// reaches no store, wherever the store listens |
| Engine.ExecuteAtEmptyHostFails | reconfigure_test.go:334-339 | Execute with the address `http:///THIS/URL/DOES/NOT/EXIST` fails, whatever the store and the other steps do |
| Engine.PutsUnansweredKeepStore | reconfigure_test.go:334-339 | at an address where no store answers, the first PUT fails with its URL and nothing is stored |
| Engine.ExecuteSchemeOptional | reconfigure_test.go:341-346 | Execute with a bare host behaves exactly as with http:// in front of it |
| Engine.BlockWithoutData | reconfigure_test.go:519-521 | a service whose keys are all absent contributes nothing to the aggregate |
| Engine.ReplaySkipsDataless | reconfigure_test.go:486-521 | when only one catalogued service has data, the aggregate is that service's block alone |
| Engine.ReplaySucceeds | reconfigure_test.go:395-457 | the replay succeeds exactly when the store answers, every block renders and the four steps succeed; it then logs exactly the aggregate write, the run, the rebuild and the reload, once each; the store is never written |
| Engine.ReplayUnanswered | reconfigure_test.go:395-399 | with no store at the address, the replay fails with the catalog error and makes no write, command, rebuild or reload |
| Engine.ReplayOfRelativeAddressFails | reconfigure_test.go:395-399 | the replay at `this/address/does/not/exist` fails with the catalog error for `http://this/address/does/not/exist/v1/catalog/services`, logs nothing and leaves the store as it was |
| Engine.ReplaySchemeOptional | reconfigure_test.go:452-457 | the replay with a bare host behaves exactly as with http:// in front of it |
| Engine.MockStoreLacks | reconfigure_test.go:519-521 | in the suite's store, every service other than myService has no data |
| Engine.MockStoreRebuildsMyService | reconfigure_test.go:494-518 | the suite's store rebuilds myService with color orange, both paths and domain my-domain.com |
| Engine.MockStoreRendersMyService | reconfigure_test.go:494-518 | myService's block in the suite's store is its rendered fragment plus the separator |
| Engine.ReplayOfMockStore | reconfigure_test.go:486-523 | over the catalog service1, service2, myService the aggregate is myService's fragment alone |
| Engine.ExecuteThenReplay | reconfigure_test.go:311-332 | after a successful Execute, a replay over a catalog where no other service has data renders exactly the executed intent's fragment |
| ControlServer.ResponseWriter.SetContentType | server_test.go:158-168 | the content type is logged |
| ControlServer.ResponseWriter.WriteHeader | server_test.go:417-419 | the status is logged |
| ControlServer.ResponseWriter.Write | server_test.go:412-415 | the body is logged |
| ControlServer.Server.ServeHTTP | server_test.go:137-372 | writer calls, engine calls and store afterwards equal ServeSpec's |
| ControlServer.Server.Respond | server_test.go:257-267 | a failure writes 500 alone; a success writes 200 and the body |
| ControlServer.Server.Execute | server_test.go:68-133 | error and calls made equal StartupSpec's; the store is not written |
| ControlServer.IntentOf | server_test.go:236-255 | the intent's path list joined by commas is the servicePath parameter, no path holds a comma, and the list is empty exactly when the parameter is |
| ControlServer.Route | server_test.go:137-255 | health paths and only they are healthy; a reconfigure carries IntentOf the request; a removal carries the non-empty serviceName parameter |
| ControlServer.Echo | server_test.go:170-217 | the answer is "OK" and reports every field of the intent, so the intent can be read back from it |
| ControlServer.EchoDeterminesIntent | server_test.go:170-217 | two intents get the same echo exactly when they are the same intent |
| ControlServer.RemovedEcho | server_test.go:334-343 | the answer to a removal is the echo of an intent that names only the service |
| ControlServer.RouteNotFound | server_test.go:137-143 | a request is answered 404 exactly when its path is neither a health check nor a control route |
| ControlServer.RouteRejects | server_test.go:219-234 | a request is refused exactly when a reconfigure lacks serviceName or lacks both servicePath and consulTemplatePath, or a remove lacks serviceName |
| ControlServer.RouteIntent | server_test.go:236-255 | the intent handed to the engine carries each query parameter: the name (non-empty), color, domain, custom template, path type, parsed skip flag, and the comma-split path list, and it is an accepted intent |
| ControlServer.RequestRoundTrip | server_test.go:36-43 | the reconfigure URL built from an accepted intent routes back to that same intent |
| ControlServer.ServeStatus | server_test.go:137-267 | status 404, 400, 500 and 200 each hold exactly in their cases: unknown path, refused request, failed engine or removal, success |
| ControlServer.ServeIsJson | server_test.go:158-168 | the JSON content type is set exactly on the two control routes |
| ControlServer.ServeBody | server_test.go:170-217 | a body is written exactly on control-route success; it is the full echo of the intent, or the service name alone for a removal |
| ControlServer.ServeStoreUntouched | server_test.go:322-372 | requests other than reconfigure leave the store as it was; a removal makes exactly one Remove call with the server's paths; others make none |
| ControlServer.ServedIntentPersists | server_test.go:236-255 | when a reconfigure request is answered 200, the store afterwards rebuilds exactly the requested intent |
| ControlServer.ReplayNeverListens | server_test.go:112-121 | the replay never starts the listener |
| ControlServer.StartupOrder | server_test.go:68-133 | startup succeeds exactly when Run, the replay and listening succeed; Run comes first, then the replay's calls; the listener starts on ip:port only when Run and the replay succeed; the store is untouched |

## Left out

- reconfigure.go and server.go are not part of this model. The behaviour is taken from what reconfigure_test.go and server_test.go assert. Where the tests are silent, it follows the documented behaviour of docker-flow-proxy. Where the two disagree, the model follows the tests:
  - The `-template` argument is `<templatesPath>/<file>:<templatesPath>/<service>.cfg` on both sides, as reconfigure_test.go:207-213 expects. The documented target is `<configsPath>/<service>.cfg`.
  - The test for an `https://` address (reconfigure_test.go:245-267) overwrites its own address at line 262, so it asserts nothing about https. The model strips `http://` and `https://` in any letter case, every occurrence, because the test's name says `https://` is trimmed and the documented behaviour strips both schemes.
- Real I/O is not modelled: files, processes, HTTP, the consul-template binary and HAProxy. Each is an `Env` call whose success is fixed by `Capabilities`. The key/value store is a `map` that answers at a set of host:port values and may refuse some fields.
- Go's URL parsing and name resolution are not modelled. A URL reaches the store only as one scheme followed by a slash-free host the store listens at. A path after the host, or a second scheme, never reaches it.
- Reads from the store are not logged: the catalog GET and the per-key GETs of a replay leave no `Effect`. Statements that a call "logs nothing" are about writes and commands.
- Concurrency is not modelled: concurrent requests, and the server's goroutines.
- The catalog is a sequence walked in order. The Go code decodes a JSON object, whose order is unspecified.
- JSON encoding is not modelled. The 200 body is a `Response` value, not its bytes. The JSON error bodies of 400 and 500 are not modelled, because the tests check only the status.
- The `args` parameter of `Execute` is not modelled. It is always empty in the tests and carries no behaviour.
- The Remove capability's internals are not modelled. Only the call and its success or failure are.
- The value of ServiceTemplateFilename is not shown by the tests. The model uses "service-formatted.ctmpl".
- The separator after each block of the aggregate ("\n\n") is a modelling choice. The tests do not fix how blocks are joined.
- Engine.Reconfigure.ReloadAllServices: the replay runs consul-template once, with the receiver's own service name as the `.cfg` target. That name is empty when the server replays at startup.
- ControlServer.Server.ServeHTTP: the JSON content type is set before validation, so a 400 on a control route also carries it.
- `Env` methods: errors are kinds (`Error`), not Go error values with messages.
- Integer widths play no part in this core, so none are modelled.
