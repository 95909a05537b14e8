/**
  The decision chains of the two HTTP handlers in api/create.go,
  `CreateService` and `CreateBackup`, as pure functions. Each maps a request,
  and what its collaborators answer, to the sequence of effects the handler
  performs: HTTP error replies, port dials, docker-compose preparation and
  start, opening the SQLite file, inserting a row, writing the reply.
  Collaborators whose code is not part of this model (token validation,
  configuration, `misc.MinMax`, the compose helpers, `lastContainerID`,
  SQLite) are answers held in an environment value.
*/
module CreateApi {
  import opened Wrappers
  import opened PortScan

  newtype uint16 = x: int | 0 <= x < 0x1_0000

  /** A crontab schedule, as received: no field is range-checked. */
  datatype Schedule = Schedule(minute: uint16, hour: uint16, dom: uint16, month: uint16, dow: uint16)

  datatype Destination = Destination(name: string, bucketName: string, apiKeyId: string, apiKeySecret: string)

  datatype BackupConfig = BackupConfig(sc: Schedule, dest: Destination)

  datatype DbCluster = DbCluster(name: string, id: string, dbType: string, port: int,
                                 majVersion: nat, minVersion: nat, memory: string, storage: string)

  /** The decoded request body, shared by both handlers. */
  datatype Service = Service(userId: string, architecture: string, db: DbCluster,
                             backupEnabled: bool, backup: BackupConfig)

  datatype ServiceResponse = ServiceResponse(hostName: string, port: int, containerId: string)

  /** A row of table `clusterInfo` (the autoincrement id is the database's). */
  datatype ClusterRow = ClusterRow(clusterId: string, name: string, port: int)

  /** A row of table `backup`. */
  datatype BackupRow = BackupRow(clusterId: string, destination: Destination,
                                 minute: uint16, hour: uint16, dom: uint16, month: uint16, dow: uint16)

  /** What a handler does, in order. */
  datatype Effect =
    | HttpError(status: int, msg: string)       // http.Error or ErrorResponse
    | WriteText(text: string)                   // fmt.Fprintf(w, ...)
    | Dial(port: int)                           // one probe of portcheck
    | PrepareService(svc: Service, path: string) // project directory and compose file
    | StartService(svc: Service, path: string)   // docker-compose up
    | OpenDatabase(path: string)
    | InsertCluster(row: ClusterRow)
    | InsertBackup(backupRow: BackupRow)
    | WriteJson(resp: ServiceResponse)
    | WriteStatus(status: int)

  /** Answers of CreateService's collaborators. */
  datatype ServiceEnv = ServiceEnv(
    tokenUserId: string, tokenValid: bool,   // config.ValidateToken
    projectDir: string, architecture: string, // config.Cfg.Common
    minPort: int, endingPort: int,            // misc.MinMax(config.Cfg.Common.Ports)
    dial: int -> DialResult,
    prepareOk: bool, startOk: bool,           // prepareService, startService
    lastContainer: Option<string>,            // lastContainerID
    dbOpens: bool)                            // OpenSqliteDB

  /** Answers of CreateBackup's collaborators. */
  datatype BackupEnv = BackupEnv(projectDir: string, dbOpens: bool, pingOk: bool, schemaOk: bool)

  const PostgresEngine := "postgres"
  const Aws := "AWS"

  /** The directory of one service: `<ProjectDir>/<UserID>/<Name>`. */
  function ServicePath(projectDir: string, userId: string, name: string): string {
    projectDir + "/" + userId + "/" + name
  }

  /** The metadata database of one service: its directory name followed by ".db". */
  function DbPath(projectDir: string, userId: string, name: string): string {
    projectDir + "/" + userId + "/" + name + ".db"
  }

  function Dials(ports: seq<int>): (es: seq<Effect>)
    ensures |es| == |ports| && forall i :: 0 <= i < |ports| ==> es[i] == Dial(ports[i])
  {
    seq(|ports|, i requires 0 <= i < |ports| => Dial(ports[i]))
  }

  /** The scan `portcheck` performs with the configured range. */
  function ServiceScan(env: ServiceEnv): Scan {
    ScanFrom(env.minPort, env.endingPort, env.dial)
  }

  /** CreateService. */
  function CreateService(env: ServiceEnv, httpMethod: string, s: Service): seq<Effect> {
    if httpMethod != "POST" then [HttpError(405, "Invalid Method")]
    else
      TokenReply(env) + ValidateAndProvision(env, s)
  }

  /** A failed token validation writes an error reply, and the handler carries on. */
  function TokenReply(env: ServiceEnv): seq<Effect> {
    if env.tokenValid then [] else [HttpError(500, "error validating token")]
  }

  function ValidateAndProvision(env: ServiceEnv, s: Service): seq<Effect> {
    if s.userId != env.tokenUserId then [HttpError(500, "userid doesn't match")]
    else if s.db.dbType != PostgresEngine then
      [WriteText("currently we don't support " + s.db.dbType), HttpError(500, "db type is currently not supported")]
    else
      // the scan's error is overwritten by prepareService's before anyone reads it
      Dials(ServiceScan(env).probed) + Provision(env, Provisioned(env, s))
  }

  /** The request as handed to prepareService: the host's architecture and the port portcheck returned. */
  function Provisioned(env: ServiceEnv, s: Service): Service {
    s.(architecture := env.architecture, db := s.db.(port := ServiceScan(env).port))
  }

  function Provision(env: ServiceEnv, s: Service): seq<Effect> {
    var path := ServicePath(env.projectDir, s.userId, s.db.name);
    if !env.prepareOk then
      [PrepareService(s, path), HttpError(500, "Error preparing service")]
    else if !env.startOk then
      [PrepareService(s, path), StartService(s, path), HttpError(500, "Error starting service")]
    else if env.lastContainer.None? then
      [PrepareService(s, path), StartService(s, path), HttpError(500, "Error getting container id")]
    else
      var id := env.lastContainer.value;
      var started := [PrepareService(s, path), StartService(s, path),
                     OpenDatabase(DbPath(env.projectDir, s.userId, s.db.name))];
      if !env.dbOpens then started + [HttpError(500, "error accessing database")]
      else started + [InsertCluster(ClusterRow(id, s.db.name, s.db.port)),
                     WriteJson(ServiceResponse("localhost", s.db.port, id))]
  }

  /** Effects that touch anything beyond the HTTP reply. */
  predicate IsWork(e: Effect) {
    !(e.HttpError? || e.WriteText?)
  }

  /** CreateBackup. */
  function CreateBackup(env: BackupEnv, httpMethod: string, s: Service): seq<Effect> {
    if httpMethod != "POST" then [HttpError(405, "Invalid Method")]
    else if !s.backupEnabled then [HttpError(400, "backup is not enabled")]
    else if s.backup.dest.name != Aws then [HttpError(500, "Destination other than AWS is not supported")]
    else if s.backup.dest.apiKeyId == "" || s.backup.dest.apiKeySecret == "" then
      [HttpError(500, "API key id and API key secret is mandatory")]
    else
      [OpenDatabase(DbPath(env.projectDir, s.userId, s.db.name))] +
      (if !env.dbOpens then [HttpError(500, "error accessing database")]
       else if !env.pingOk then [HttpError(500, "error connecting to database")]
       else
         // a failed schema statement writes an error and carries on
         (if env.schemaOk then [] else [HttpError(500, "internal server error")])
         + [InsertBackup(BackupRowOf(s)), WriteStatus(200)])
  }

  /** The values bound to the backup insert statement. */
  function BackupRowOf(s: Service): BackupRow {
    var sc := s.backup.sc;
    BackupRow(s.db.id, s.backup.dest, sc.minute, sc.hour, sc.dom, sc.month, sc.dow)
  }

  // ---------------------------------------------------------------------------
  // CreateService

  predicate ServiceRequestValid(env: ServiceEnv, httpMethod: string, s: Service) {
    httpMethod == "POST" && s.userId == env.tokenUserId && s.db.dbType == PostgresEngine
  }

  /**
    CreateService does work beyond writing an error reply (dialling ports,
    preparing the service, ...) exactly when the request is a POST whose user
    id matches the token's and whose engine is "postgres".
  */
  lemma ServiceValidationGate(env: ServiceEnv, httpMethod: string, s: Service)
    ensures (exists e :: e in CreateService(env, httpMethod, s) && IsWork(e))
            <==> ServiceRequestValid(env, httpMethod, s)
  {
    var es := CreateService(env, httpMethod, s);
    if ServiceRequestValid(env, httpMethod, s) {
      var s' := Provisioned(env, s);
      var e := PrepareService(s', ServicePath(env.projectDir, s'.userId, s'.db.name));
      assert Provision(env, s')[0] == e;
      assert e in es;
    }
  }

  /**
    A request whose user id differs from the token's is refused with "userid
    doesn't match", whatever its engine; one that passes that check but names
    another engine is refused with "db type is currently not supported". Neither
    dials a port or touches the filesystem.
  */
  lemma RejectionsBeforeWork(env: ServiceEnv, s: Service)
    requires s.userId != env.tokenUserId || s.db.dbType != PostgresEngine
    ensures var es := CreateService(env, "POST", s);
      && |es| > 0
      && (forall e :: e in es ==> !IsWork(e))
      && es[|es| - 1] == (if s.userId != env.tokenUserId then HttpError(500, "userid doesn't match")
                          else HttpError(500, "db type is currently not supported"))
  {
  }

  /**
    Once the request is valid, the handler dials `min, min + 1, ...` in order,
    all below the end of the range. Then it prepares, and if that succeeds
    starts, the requested service in its directory, carrying the port the
    scan returned and the host's architecture.
  */
  lemma ServiceDialsInOrder(env: ServiceEnv, s: Service)
    requires ServiceRequestValid(env, "POST", s)
    ensures var es := CreateService(env, "POST", s);
      var k := |TokenReply(env)|;
      var n := |ServiceScan(env).probed|;
      var svc := s.(architecture := env.architecture, db := s.db.(port := ServiceScan(env).port));
      var path := ServicePath(env.projectDir, s.userId, s.db.name);
      && k + n < |es|
      && (forall j :: k <= j < k + n ==> es[j] == Dial(env.minPort + j - k) && env.minPort + j - k < env.endingPort)
      && es[k + n] == PrepareService(svc, path)
      && (env.prepareOk ==> k + n + 1 < |es| && es[k + n + 1] == StartService(svc, path))
  {
    ProbesAscendInRange(env.minPort, env.endingPort, env.dial);
    var scan := ServiceScan(env);
    var pre, ds, pr := TokenReply(env), Dials(scan.probed), Provision(env, Provisioned(env, s));
    var k, n := |pre|, |scan.probed|;
    ValidServiceTrace(env, "POST", s);
    var es := CreateService(env, "POST", s);
    assert es == pre + ds + pr;
    forall j | k <= j < k + n
      ensures es[j] == Dial(env.minPort + j - k)
    {
      assert es[j] == ds[j - k];
      assert scan.probed[j - k] == env.minPort + (j - k);
    }
    ProvisionHead(env, Provisioned(env, s));
    assert es[k + n] == pr[0];
    if env.prepareOk {
      assert es[k + n + 1] == pr[1];
    }
  }

  /** Provision first prepares the service in its directory, then, if that worked, starts it there. */
  lemma ProvisionHead(env: ServiceEnv, s: Service)
    ensures var es, path := Provision(env, s), ServicePath(env.projectDir, s.userId, s.db.name);
      && es[0] == PrepareService(s, path)
      && (env.prepareOk ==> |es| > 1 && es[1] == StartService(s, path))
  {
  }

  /**
    The JSON reply is written exactly when every step succeeds; it then names
    host "localhost", the port `portcheck` returned and the container id, and
    the same container id, name and port were inserted into `clusterInfo` of
    the database `<ProjectDir>/<UserID>/<Name>.db`.
  */
  lemma ServiceResponseFields(env: ServiceEnv, httpMethod: string, s: Service, r: ServiceResponse)
    ensures WriteJson(r) in CreateService(env, httpMethod, s)
      <==> && ServiceRequestValid(env, httpMethod, s)
           && env.prepareOk && env.startOk && env.dbOpens
           && env.lastContainer == Some(r.containerId)
           && r == ServiceResponse("localhost", ServiceScan(env).port, r.containerId)
    ensures WriteJson(r) in CreateService(env, httpMethod, s) ==>
      && InsertCluster(ClusterRow(r.containerId, s.db.name, r.port)) in CreateService(env, httpMethod, s)
      && OpenDatabase(DbPath(env.projectDir, s.userId, s.db.name)) in CreateService(env, httpMethod, s)
  {
    if WriteJson(r) in CreateService(env, httpMethod, s) {
      ProvisionEffect(env, httpMethod, s, WriteJson(r));
      ValidServiceTrace(env, httpMethod, s);
    } else if ServiceRequestValid(env, httpMethod, s) {
      ValidServiceTrace(env, httpMethod, s);
    }
  }

  /**
    CreateService returns at each failure: a `clusterInfo` row is inserted
    exactly when every step succeeded, and then holds the container id, the
    name and the scanned port; nothing is started after a failed prepare, and
    the database is not opened after a failed start or container-id lookup.
  */
  lemma ServiceStopsAtFailures(env: ServiceEnv, m: string, s: Service, row: ClusterRow)
    ensures InsertCluster(row) in CreateService(env, m, s)
      <==> && ServiceRequestValid(env, m, s)
           && env.prepareOk && env.startOk && env.dbOpens
           && env.lastContainer == Some(row.clusterId)
           && row == ClusterRow(row.clusterId, s.db.name, ServiceScan(env).port)
    ensures forall svc, p :: StartService(svc, p) in CreateService(env, m, s) ==> env.prepareOk
    ensures forall p :: OpenDatabase(p) in CreateService(env, m, s) ==>
      env.prepareOk && env.startOk && env.lastContainer.Some?
  {
    var es := CreateService(env, m, s);
    if InsertCluster(row) in es {
      ProvisionEffect(env, m, s, InsertCluster(row));
      ProvisionExits(env, Provisioned(env, s), InsertCluster(row));
    } else if ServiceRequestValid(env, m, s) {
      ValidServiceTrace(env, m, s);
    }
    forall svc, p | StartService(svc, p) in es
      ensures env.prepareOk
    {
      ProvisionEffect(env, m, s, StartService(svc, p));
      ProvisionExits(env, Provisioned(env, s), StartService(svc, p));
    }
    forall p | OpenDatabase(p) in es
      ensures env.prepareOk && env.startOk && env.lastContainer.Some?
    {
      ProvisionEffect(env, m, s, OpenDatabase(p));
      ProvisionExits(env, Provisioned(env, s), OpenDatabase(p));
    }
  }

  /** What each effect of Provision says about the steps before it. */
  lemma ProvisionExits(env: ServiceEnv, s: Service, e: Effect)
    requires e in Provision(env, s)
    ensures e.StartService? ==> env.prepareOk
    ensures e.OpenDatabase? ==> env.prepareOk && env.startOk && env.lastContainer.Some?
    ensures e.InsertCluster? ==>
      && env.prepareOk && env.startOk && env.dbOpens
      && env.lastContainer == Some(e.row.clusterId)
      && e.row == ClusterRow(e.row.clusterId, s.db.name, s.db.port)
  {
  }

  /** The paths Provision uses are those of the service's owner and name. */
  lemma ProvisionPaths(env: ServiceEnv, s: Service, e: Effect)
    requires e in Provision(env, s)
    ensures e.PrepareService? ==> e.path == ServicePath(env.projectDir, s.userId, s.db.name)
    ensures e.OpenDatabase? ==> e.path == DbPath(env.projectDir, s.userId, s.db.name)
  {
  }

  /** The effects of CreateService once the request is valid. */
  lemma ValidServiceTrace(env: ServiceEnv, httpMethod: string, s: Service)
    requires ServiceRequestValid(env, httpMethod, s)
    ensures var scan := ServiceScan(env);
      CreateService(env, httpMethod, s)
      == TokenReply(env) + Dials(scan.probed)
         + Provision(env, Provisioned(env, s))
  {
  }

  /**
    An effect of CreateService that is work but not a dial comes from
    Provision, and only a valid request gets that far.
  */
  lemma ProvisionEffect(env: ServiceEnv, httpMethod: string, s: Service, e: Effect)
    requires e in CreateService(env, httpMethod, s) && IsWork(e) && !e.Dial?
    ensures ServiceRequestValid(env, httpMethod, s)
    ensures e in Provision(env, Provisioned(env, s))
  {
    assert ServiceRequestValid(env, httpMethod, s);
    ValidServiceTrace(env, httpMethod, s);
    assert e !in Dials(ServiceScan(env).probed);
  }

  /**
    The metadata database sits next to the service directory: its path is the
    directory's path followed by ".db".
  */
  lemma DbPathBesideServiceDir(env: ServiceEnv, httpMethod: string, s: Service, svc: Service, dir: string, db: string)
    requires PrepareService(svc, dir) in CreateService(env, httpMethod, s)
    requires OpenDatabase(db) in CreateService(env, httpMethod, s)
    ensures db == dir + ".db"
    ensures dir == ServicePath(env.projectDir, s.userId, s.db.name)
  {
    ProvisionEffect(env, httpMethod, s, PrepareService(svc, dir));
    ProvisionEffect(env, httpMethod, s, OpenDatabase(db));
    ProvisionPaths(env, Provisioned(env, s), PrepareService(svc, dir));
    ProvisionPaths(env, Provisioned(env, s), OpenDatabase(db));
  }

  /** CreateBackup opens the same database file that CreateService created for that user and name. */
  lemma SameDatabaseForBothHandlers(env: ServiceEnv, m: string, s: Service,
                                    benv: BackupEnv, m': string, b: Service, p: string, q: string)
    requires env.projectDir == benv.projectDir && s.userId == b.userId && s.db.name == b.db.name
    requires OpenDatabase(p) in CreateService(env, m, s)
    requires OpenDatabase(q) in CreateBackup(benv, m', b)
    ensures p == q
  {
    ProvisionEffect(env, m, s, OpenDatabase(p));
    ProvisionPaths(env, Provisioned(env, s), OpenDatabase(p));
    BackupOpensOnlyWhenValid(benv, m', b, q);
  }

  lemma SlashAfter(a: string, b: string)
    ensures (a + "/" + b)[|a|] == '/'
  {
  }

  /** Cutting `a + "/" + b` at its first slash, when `a` holds none, gives back `a` and `b`. */
  lemma {:induction false} SplitAtSlash(a: string, b: string, a': string, b': string)
    requires '/' !in a && '/' !in a'
    requires a + "/" + b == a' + "/" + b'
    ensures a == a' && b == b'
  {
    var x := a + "/" + b;
    if |a| < |a'| {
      SlashAfter(a, b);
      assert false;
    } else if |a'| < |a| {
      SlashAfter(a', b');
      assert false;
    }
    assert a == x[..|a|] == a';
    assert b == x[|a| + 1..] == b';
  }

  /**
    Two services of different users, or two services of one user with
    different names, never share a directory, provided user ids hold no slash.
  */
  lemma ServicePathInjective(dir: string, u: string, n: string, u': string, n': string)
    requires '/' !in u && '/' !in u'
    requires ServicePath(dir, u, n) == ServicePath(dir, u', n')
    ensures u == u' && n == n'
  {
    var k := |dir + "/"|;
    var x := ServicePath(dir, u, n);
    assert x[k..] == u + "/" + n;
    assert ServicePath(dir, u', n')[k..] == u' + "/" + n';
    SplitAtSlash(u, n, u', n');
  }

  // ---------------------------------------------------------------------------
  // Two defects of CreateService as written, and the handler they call for

  /**
    As written: the error of `portcheck` is overwritten before it is read, so
    when no port was found the service is still prepared, started and recorded,
    and the reply announces port 0.
  */
  lemma ScanErrorReachesResponse(env: ServiceEnv, s: Service, id: string)
    requires ServiceRequestValid(env, "POST", s) && ServiceScan(env).err.Some?
    requires env.prepareOk && env.startOk && env.lastContainer == Some(id) && env.dbOpens
    ensures WriteJson(ServiceResponse("localhost", 0, id)) in CreateService(env, "POST", s)
    ensures InsertCluster(ClusterRow(id, s.db.name, 0)) in CreateService(env, "POST", s)
    ensures var svc := s.(architecture := env.architecture, db := s.db.(port := 0));
      var path := ServicePath(env.projectDir, s.userId, s.db.name);
      && PrepareService(svc, path) in CreateService(env, "POST", s)
      && StartService(svc, path) in CreateService(env, "POST", s)
  {
    StopPort(env.minPort, env.endingPort, env.dial);
    ExhaustedScan(env.minPort, env.endingPort, env.dial);
    ServiceResponseFields(env, "POST", s, ServiceResponse("localhost", 0, id));
    ServiceDialsInOrder(env, s);
  }

  /** With an empty port range, the service is created on port 0. */
  lemma EmptyRangeGivesPortZero()
    ensures var env := ServiceEnv("u1", true, "/srv", "amd64", 15000, 15000, _ => Connected,
                                  true, true, Some("c1"), true);
      var s := Service("u1", "", DbCluster("alpha", "", "postgres", 0, 13, 0, "", ""), false,
                       BackupConfig(Schedule(0, 0, 1, 1, 0), Destination("", "", "", "")));
      WriteJson(ServiceResponse("localhost", 0, "c1")) in CreateService(env, "POST", s)
  {
    var env := ServiceEnv("u1", true, "/srv", "amd64", 15000, 15000, _ => Connected,
                          true, true, Some("c1"), true);
    var s := Service("u1", "", DbCluster("alpha", "", "postgres", 0, 13, 0, "", ""), false,
                     BackupConfig(Schedule(0, 0, 1, 1, 0), Destination("", "", "", "")));
    ScanErrorReachesResponse(env, s, "c1");
  }

  /**
    As written: a failed token validation writes an error reply and does not
    return, so a request whose user id equals what the validator answered is
    still provisioned and a second reply is written after the error.
  */
  lemma InvalidTokenStillProvisions(env: ServiceEnv, s: Service, id: string)
    requires !env.tokenValid && ServiceRequestValid(env, "POST", s)
    requires env.prepareOk && env.startOk && env.lastContainer == Some(id) && env.dbOpens
    ensures CreateService(env, "POST", s)[0] == HttpError(500, "error validating token")
    ensures WriteJson(ServiceResponse("localhost", ServiceScan(env).port, id)) in CreateService(env, "POST", s)
  {
    ServiceResponseFields(env, "POST", s, ServiceResponse("localhost", ServiceScan(env).port, id));
  }

  /**
    CreateService with both defects removed: it stops after a failed token
    validation, and it stops when `portcheck` reports an error.
  */
  function CreateServiceChecked(env: ServiceEnv, httpMethod: string, s: Service): seq<Effect> {
    if httpMethod == "POST" && !env.tokenValid then TokenReply(env)
    else if ServiceRequestValid(env, httpMethod, s) && ServiceScan(env).err.Some? then
      Dials(ServiceScan(env).probed) + [HttpError(500, "error allocating port")]
    else CreateService(env, httpMethod, s)
  }

  /**
    The corrected handler replies with a port only for a valid token, and only
    with the first port of the range whose dial was refused.
  */
  lemma CheckedServiceUsesFreePort(env: ServiceEnv, httpMethod: string, s: Service, r: ServiceResponse)
    requires WriteJson(r) in CreateServiceChecked(env, httpMethod, s)
    ensures env.tokenValid
    ensures env.minPort <= r.port < env.endingPort && Classify(env.dial(r.port)) == Free
    ensures AllInUse(env.dial, env.minPort, r.port)
  {
    var scan := ServiceScan(env);
    assert WriteJson(r) !in Dials(scan.probed);
    ServiceResponseFields(env, httpMethod, s, r);
    FirstFreePort(env.minPort, env.endingPort, env.dial, r.port);
  }

  /** Where the scan succeeds and the token is valid, the corrected handler is the original one. */
  lemma CheckedAgreesOnGoodInput(env: ServiceEnv, httpMethod: string, s: Service)
    requires env.tokenValid && ServiceScan(env).err.None?
    ensures CreateServiceChecked(env, httpMethod, s) == CreateService(env, httpMethod, s)
  {
  }

  // ---------------------------------------------------------------------------
  // CreateBackup

  predicate BackupRequestValid(httpMethod: string, s: Service) {
    && httpMethod == "POST"
    && s.backupEnabled
    && s.backup.dest.name == Aws
    && s.backup.dest.apiKeyId != ""
    && s.backup.dest.apiKeySecret != ""
  }

  /**
    CreateBackup opens the database exactly when the request is a POST with
    backups enabled, destination "AWS" and both credentials non-empty, and the
    file it opens is `<ProjectDir>/<UserID>/<Name>.db`.
  */
  lemma BackupOpensOnlyWhenValid(env: BackupEnv, httpMethod: string, s: Service, p: string)
    ensures OpenDatabase(p) in CreateBackup(env, httpMethod, s)
      <==> BackupRequestValid(httpMethod, s) && p == DbPath(env.projectDir, s.userId, s.db.name)
  {
  }

  /**
    The checks run in a fixed order: a disabled backup is refused with 400
    whatever its destination and keys; an enabled one to another provider
    with 500 whatever its keys; then a missing key id or secret with 500.
  */
  lemma BackupCheckOrder(env: BackupEnv, s: Service)
    ensures !s.backupEnabled ==>
      CreateBackup(env, "POST", s) == [HttpError(400, "backup is not enabled")]
    ensures s.backupEnabled && s.backup.dest.name != Aws ==>
      CreateBackup(env, "POST", s) == [HttpError(500, "Destination other than AWS is not supported")]
    ensures s.backupEnabled && s.backup.dest.name == Aws
            && (s.backup.dest.apiKeyId == "" || s.backup.dest.apiKeySecret == "") ==>
      CreateBackup(env, "POST", s) == [HttpError(500, "API key id and API key secret is mandatory")]
  {
  }

  /**
    The backup row is inserted only for a valid request on a reachable
    database, keyed by the request's `Db.ID`, with the destination and every
    schedule field exactly as received; status 200 is written last.
  */
  lemma ScheduleStoredAsReceived(env: BackupEnv, httpMethod: string, s: Service, row: BackupRow)
    requires InsertBackup(row) in CreateBackup(env, httpMethod, s)
    ensures BackupRequestValid(httpMethod, s) && env.dbOpens && env.pingOk
    ensures row.clusterId == s.db.id && row.destination == s.backup.dest
    ensures Schedule(row.minute, row.hour, row.dom, row.month, row.dow) == s.backup.sc
    ensures var es := CreateBackup(env, httpMethod, s); es[|es| - 1] == WriteStatus(200)
  {
  }

  /**
    Every valid request on a reachable database inserts its row, whatever
    its schedule values, and is answered with status 200; only such a request
    inserts anything or gets status 200.
  */
  lemma ValidBackupInserted(env: BackupEnv, httpMethod: string, s: Service)
    ensures InsertBackup(BackupRowOf(s)) in CreateBackup(env, httpMethod, s)
      <==> BackupRequestValid(httpMethod, s) && env.dbOpens && env.pingOk
    ensures WriteStatus(200) in CreateBackup(env, httpMethod, s)
      <==> BackupRequestValid(httpMethod, s) && env.dbOpens && env.pingOk
  {
  }

  /**
    No schedule field is range-checked: minute 60 and hour 24 are stored, and
    so is a schedule whose schema statement failed (an error reply is written
    and the handler carries on).
  */
  lemma OutOfRangeScheduleStored(schemaOk: bool)
    ensures var s := Service("u1", "", DbCluster("alpha", "c1", "postgres", 0, 13, 0, "", ""), true,
                             BackupConfig(Schedule(60, 24, 1, 1, 0), Destination("AWS", "bkt", "id", "secret")));
      var es := CreateBackup(BackupEnv("/srv", true, true, schemaOk), "POST", s);
      && InsertBackup(BackupRow("c1", s.backup.dest, 60, 24, 1, 1, 0)) in es
      && es[|es| - 1] == WriteStatus(200)
      && (!schemaOk ==> HttpError(500, "internal server error") in es)
  {
  }
}
