# spinup provisioning core, modelled in Dafny

spinup provisions single-tenant PostgreSQL instances on one host. Each instance gets a
Docker volume, a Docker network, a container and a host TCP port, and its identity is
recorded in a per-service SQLite file. This project models the two parts of the
repository that make decisions. The rest is I/O.

* **Port allocation and request handling** (`api/create.go`).
  * `portcheck` scans `[min, endingPort)` in order, dialling `localhost:<port>`
    (module `PortScan`). The dial is an oracle `int -> DialResult`: it either
    connects or fails with an error message. As in the code, a failure means
    "free" only when its message contains `connect: connection refused`. Any other
    failure, a timeout included, stops the scan and is returned as is.
  * The handlers `CreateService` and `CreateBackup` are pure functions (module
    `CreateApi`). Each maps the request and its collaborators' answers to the
    sequence of effects the handler performs: error replies, port dials,
    compose preparation and start, opening the database, the inserted row and the
    reply.
* **Resource creation with rollback** (`internal/postgres/postgres.go`).
  * The Docker runtime is a class `DockerRuntime.Docker`. It holds volumes,
    networks (by id) and containers. Each create, remove and exec call has a
    failure flag, a container lookup fails exactly when no container has the
    name, and the runtime logs the calls it receives in a ghost field.
  * `NewPostgresContainer` creates the volume and then the network. Go's
    deferred cleanups are an explicit stack that `RunDeferred` unwinds from the
    top. Each entry removes its resource only when the named result `err` is set.
    A failed removal wraps `err` with `%w` and drops its own error.
  * `ReloadPostgres` looks the container up and runs `pg_ctl -D <datapath> reload`
    inside it.

Go's `error` values are `Errors.Error`: a leaf, or a `%w` wrapper whose cause
`errors.Is` and unwrapping can still reach. `fmt.Errorf` with `%v` becomes
`Errors.Flatten`, which copies only the cause's text.

Where the system's design description and the code disagree, the model follows the code:

* Timeouts. The design says a probe timeout skips the port. The code aborts the
  scan with the timeout error (`PortScan.TimeoutIsFault`, `PortScan.ProbeFaultAborts`).
* Removal errors. The design says a failed compensation is chained onto the
  returned error. The code wraps only the original error and drops the
  removal's own error (`Postgres.UnwindKeepsCause`).
* The container. The design creates it as a third saga step. The code only
  builds a `dockerservice.Container` value, so after the network the only
  possible failures are the two port parses.
* Schedules. The design wants cron fields range-checked. The code stores them
  as received (`CreateApi.OutOfRangeScheduleStored`).
* Persistence errors. The design wants them returned. The code calls
  `log.Fatal`, which this model leaves out (see below).

On rollback the volume is removed by name. If a volume of that name already existed
(Docker's volume creation accepts an existing name), the rollback removes it too:
`NewPostgresContainer` states the resulting set as `old(volumes) - {name}`.

The `memory * 1000000` product is an int64 product and wraps around.
`Postgres.WrapInt64` models the wrap, and `Postgres.MemoryScaling` states exactly
when the product is exact.

## Model

| member | source | states |
|---|---|---|
| `PortScan.Portcheck` | api/create.go:228-244 | the loop returns exactly the `(port, error)` pair, and dials exactly the ports, of the scan function; a nil error comes with a port in range whose dial was refused |
| `PortScan.ProbesAscendInRange` | api/create.go:230-232 | the ports dialled are `min, min+1, ...` in strictly increasing order, all below `endingPort`, and every one before the last connected |
| `PortScan.FirstFreePort` | api/create.go:230-240 | `(q, nil)` is returned iff `min <= q < endingPort`, the dial of `q` was refused and every port in `[min, q)` connected; `q` is then the last port dialled |
| `PortScan.ProbeFaultAborts` | api/create.go:233-236 | a dial error that is not a refusal at `q`, after ports that all connected, returns `(0, that error)` and no port after `q` is dialled |
| `PortScan.TimeoutIsFault` | api/create.go:232-236 | a dial timeout's message does not contain the refusal phrase, so a timeout counts as a probe error and not as a free port |
| `PortScan.Exhaustion` | api/create.go:230-243 | "all allocated ports are occupied" is returned iff every port of the range connects (an empty range included); the port is then 0 and the whole range was dialled |
| `PortScan.OneListenerScenario` | api/create.go:230-240 | with one listener at 15000 in `[15000, 15010)` the scan dials 15000 and 15001 and returns 15001 |
| `CreateApi.ServiceValidationGate` | api/create.go:97-110 | CreateService does any work beyond an error reply iff the request is a POST, its user id equals the token's and its engine is exactly "postgres" |
| `CreateApi.RejectionsBeforeWork` | api/create.go:97-106 | an owner mismatch is refused with "userid doesn't match" whatever the engine; otherwise a non-postgres engine is refused with "db type is currently not supported"; neither dials a port or touches the filesystem |
| `CreateApi.ServiceDialsInOrder` | api/create.go:107-110 | after validation the handler dials `min, min+1, ...` below the end of the range; it then prepares the request, carrying the scanned port and the host's architecture, in `<ProjectDir>/<UserID>/<Name>`, and if preparing succeeds starts that same service there |
| `CreateApi.ServiceResponseFields` | api/create.go:121-170 | the JSON reply is written iff every step succeeds; it carries host "localhost", the port portcheck returned and the container id; the same id, name and port are inserted into `clusterInfo` of `<ProjectDir>/<UserID>/<Name>.db` |
| `CreateApi.ServiceStopsAtFailures` | api/create.go:110-170 | the handler returns at each failure: a `clusterInfo` row is inserted iff the request is valid and preparing, starting, the container-id lookup and opening the database all succeed, and it then holds that container id, the name and the scanned port; nothing is started after a failed prepare, and the database is not opened after a failed start or lookup |
| `CreateApi.DbPathBesideServiceDir` | api/create.go:109-140 | the service directory is `<ProjectDir>/<UserID>/<Name>` and the database opened is that path followed by ".db" |
| `CreateApi.SameDatabaseForBothHandlers` | api/create.go:293-295 | for the same project directory, user and name, CreateBackup opens the very database file CreateService opened |
| `CreateApi.ServicePathInjective` | api/create.go:109 | when user ids hold no slash, different users, or one user's differently named services, never share a directory |
| `CreateApi.ScanErrorReachesResponse` | api/create.go:107-132 | as written: when portcheck fails, the service is still prepared and started with port 0 and recorded with port 0, and the reply announces port 0 |
| `CreateApi.EmptyRangeGivesPortZero` | api/create.go:107-132 | an empty port range yields a reply with port 0 |
| `CreateApi.InvalidTokenStillProvisions` | api/create.go:82-88 | as written: a failed token validation writes a 500 reply and the service is still provisioned and a second reply written |
| `CreateApi.CheckedServiceUsesFreePort` | api/create.go:83-132 | the corrected handler replies only for a valid token, with the first port of the range whose dial was refused |
| `CreateApi.CheckedAgreesOnGoodInput` | api/create.go:77-171 | with a valid token and a successful scan the corrected handler does exactly what the original does |
| `CreateApi.BackupOpensOnlyWhenValid` | api/create.go:281-295 | CreateBackup opens a database iff the request is a POST with backups enabled, destination "AWS" and both credentials non-empty, and the file is `<ProjectDir>/<UserID>/<Name>.db` |
| `CreateApi.BackupCheckOrder` | api/create.go:281-292 | disabled backups are refused with 400 whatever the destination; then a non-AWS destination with 500 whatever the keys; then an empty key id or secret with 500 |
| `CreateApi.ScheduleStoredAsReceived` | api/create.go:321-334 | a backup row is inserted only for a valid request on a reachable database, keyed by `Db.ID`, with the destination and every schedule field unchanged; status 200 is written last |
| `CreateApi.ValidBackupInserted` | api/create.go:293-334 | status 200 is written iff the request is valid and the database opens and answers the ping; the backup row is inserted iff the request is a POST with backups enabled, destination "AWS" and both credentials, and the database opens and answers the ping; this holds whatever the schedule values, since nothing range-checks them |
| `CreateApi.OutOfRangeScheduleStored` | api/create.go:307-334 | minute 60 and hour 24 are stored; a failed schema statement writes an error reply and the row is still inserted |
| `Text.ItoaRoundTrip` | internal/postgres/postgres.go:67 | the decimal text `strconv.Itoa` gives for a port reads back as the same number |
| `DockerRuntime.Docker.CreateVolume` | internal/postgres/postgres.go:38-45 | on success the named volume exists and its name is returned; on failure nothing changes |
| `DockerRuntime.Docker.CreateNetwork` | internal/postgres/postgres.go:54-57 | on success a network with a new id carries the name; on failure nothing changes |
| `DockerRuntime.Docker.RemoveVolume` | internal/postgres/postgres.go:49 | on success the volume is gone; on failure nothing changes and an error is returned |
| `DockerRuntime.Docker.RemoveNetwork` | internal/postgres/postgres.go:61 | on success the network is gone; on failure nothing changes and an error is returned |
| `DockerRuntime.Docker.GetContainer` | internal/postgres/postgres.go:130 | the lookup succeeds iff a container of that name exists |
| `DockerRuntime.Docker.ExecCommand` | internal/postgres/postgres.go:134 | the exec is issued to the named container with the given configuration |
| `Postgres.RunDeferred` | internal/postgres/postgres.go:46-65 | with `err` nil the deferred closures do nothing; otherwise they run last-registered first, the new runtime state lacks exactly the resources whose removal succeeded, and `err` is wrapped once per failed removal |
| `Postgres.RollbackVolume` | internal/postgres/postgres.go:47-57 | after the network fails the deferred volume removal runs: the volume is gone unless its removal failed, and the network error comes back wrapped once per failed removal with `errors.Is` still finding it |
| `Postgres.RollbackBoth` | internal/postgres/postgres.go:47-74 | after a port fails the network is removed, then the volume; each goes unless its removal failed, and the port error comes back wrapped with `errors.Is` still finding it |
| `Postgres.UnwindKeepsCause` | internal/postgres/postgres.go:47-65 | after the deferred removals `errors.Is` still finds the original error, the root is unchanged and the depth grows by the number of failed removals |
| `Postgres.CleanRollbackKeepsError` | internal/postgres/postgres.go:47-65 | when every removal succeeds the caller receives the original error unchanged |
| `Postgres.RollbackOrder` | internal/postgres/postgres.go:47-65 | with both removals registered the network is removed before the volume; when both fail the volume wrapper is outermost |
| `Postgres.VolumeOnlyRollback` | internal/postgres/postgres.go:47-57 | when the network fails only the volume removal runs |
| `Postgres.NewPostgresContainer` | internal/postgres/postgres.go:33-119 | volume first, then network; a volume failure attempts and removes nothing; a network failure removes the volume; a port failure removes the network and then the volume, attempting the volume even when the network removal fails; on success nothing is removed, both resources remain and the container mounts and joins exactly them; the client constructor's error never reaches the caller |
| `Postgres.ContainerConfiguration` | internal/postgres/postgres.go:66-117 | the container is "spinup-postgres-" + name, joins only "<name>_default", mounts the volume at /var/lib/postgresql/data, binds 5432/tcp to 0.0.0.0 on a host port reading back as the requested port, has env [user, password] in that order, keeps the CPU shares and scales memory by 1000000, exact iff in range |
| `Postgres.MemoryScaling` | internal/postgres/postgres.go:94-97 | the int64 product `memory * 1000000` is exact iff the memory is at most 9223372036854 in magnitude |
| `Postgres.NamesDistinct` | internal/postgres/postgres.go:66-101 | instances with different names get different container names and different network names |
| `Postgres.ReloadPostgres` | internal/postgres/postgres.go:121-137 | the container is looked up first; if it is missing no exec is attempted and the error names it; otherwise `pg_ctl -D <datapath> reload` runs as user postgres in `execpath`, and an exec failure is wrapped behind "error executing command pg_ctl" |
| `Postgres.ReloadErrorShapes` | internal/postgres/postgres.go:130-136 | the lookup error's text names the container and its cause is flattened (`errors.Is` no longer finds it); the exec error keeps its cause |

## Left out

- HTTP plumbing. The method check and the error replies survive as effects.
  `Hello` is not modelled: it only writes a greeting. Reading and
  JSON-decoding the body are not modelled either, and the request arrives
  decoded. `CreateService` calls `log.Fatalf` when that step fails, and
  `CreateBackup` replies with `ErrorResponse` and status 500 and returns.
  Marshalling the reply is not modelled.
- `config.ValidateToken`, `config.Cfg` and `misc.MinMax`. Their code is not part of
  this model. The token's user id and validity, the project directory, the
  architecture and the port bounds are inputs.
- `prepareService`, `startService`, `ValidateDockerCompose`,
  `ValidateSystemRequirements` and `lastContainerID` run external processes. Their
  outcomes are inputs, and the effects record what they were given.
- SQLite. Creating `clusterInfo` only logs on failure and is not modelled. The
  `Begin`/`Prepare`/`Exec`/`Commit` sequence, whose failures call `log.Fatal`
  (process termination), is one insert effect assumed to succeed. `OpenSqliteDB`
  and `db.Ping` are success flags.
- The backup insert's arguments. The insert binds `s.Backup.Dest`, a struct, as
  an SQL argument (api/create.go:326). `database/sql`'s default converter refuses
  struct values, and the SQLite driver's handling of them is not part of this
  model. If the driver refuses it too, every valid `CreateBackup` ends in
  `log.Fatal` before status 200. The model assumes the insert succeeds, as for
  every other statement.
- The real TCP dial, its 3-second timeout and the connection it leaves open on
  success. The dial is an oracle, and timing is not modelled.
- The race between probing a port and binding it, and the package-level `ctx`
  reassigned with a discarded cancel function. Both are concurrency or lifetime
  concerns.
- The bodies of `dockerservice.*`. The `Docker` class stands in for them. Network
  ids are numbers. A failing create or remove is chosen by a flag, so Docker's own
  reasons (duplicate network names, removing a missing volume) are not modelled. A
  container lookup fails exactly when no container has that name.
- `nat.NewPort`'s parser. Whether each of the two calls fails is an input. On
  failure it yields an error naming the port string.
- `misc.StringToDockerEnvVal` is a function parameter of the container builder.
- `dockerservice.NewDocker`. Its error is only printed, and the runtime object
  stands for the client in both cases.
- backup/backup.go does not compile and only renders a template to a file.

## Findings

| source | as written | input that shows it | evidently intended | confidence | as-written member | corrected member |
|---|---|---|---|---|---|---|
| api/create.go:107-110 | the error returned by `portcheck` is overwritten by `prepareService`'s at line 110 before it is read | an empty port range (`min == endingPort`), or one where every port connects, with every later step succeeding: the service is created, `clusterInfo` records port 0 and the reply says port 0 | reply with an error and stop when no port was found | high; not executed | `CreateApi.ScanErrorReachesResponse` | `CreateApi.CheckedServiceUsesFreePort` |
| api/create.go:84-87 | a failed token validation writes a 500 reply but does not return | an invalid token whose request user id equals what the validator answered: the service is provisioned and a second reply is written after the error | return after the error reply | high; not executed | `CreateApi.InvalidTokenStillProvisions` | `CreateApi.CheckedServiceUsesFreePort` |

`CreateApi.CreateServiceChecked` is the corrected handler. It returns after a failed
token validation and after a failed scan. `CreateApi.CheckedServiceUsesFreePort`
proves that its reply names a free port and comes only with a valid token.
`CreateApi.CheckedAgreesOnGoodInput` proves it agrees with the original everywhere
else.
