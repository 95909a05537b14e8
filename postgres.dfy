/**
  internal/postgres/postgres.go: `NewPostgresContainer` creates a volume and
  then a network for one PostgreSQL instance and builds (but does not create)
  the container that will use them; `ReloadPostgres` asks a running instance
  to reload its configuration.

  Go's deferred cleanups are modelled as an explicit stack: creating a
  resource pushes its removal, and on return the stack runs from the top,
  each entry removing its resource only if the named result `err` is set
  (`RunDeferred`). A return after the network fails runs the one-entry
  stack (`RollbackVolume`), one after a port fails the two-entry stack
  (`RollbackBoth`); on the other returns `err` is nil and every closure
  does nothing, so `NewPostgresContainer` runs none there.
*/
module Postgres {
  import opened Wrappers
  import opened Errors
  import opened Text
  import opened DockerRuntime

  newtype int64 = x: int | -0x8000_0000_0000_0000 <= x < 0x8000_0000_0000_0000

  const PrefixPgContainer := "spinup-postgres-"
  const PgDataMount := "/var/lib/postgresql/data"
  const VolumeCleanupContext := "error removing volume during failed service creation"
  const NetworkCleanupContext := "error removing network during failed service creation"

  datatype ContainerProps = ContainerProps(image: string, name: string, username: string, password: string,
                                           port: int64, memory: int64, cpuShares: int64)

  /** `nat.Port`: a port number with its protocol; `Key()` is its "5432/tcp" form. */
  datatype NatPort = NatPort(proto: string, port: string) {
    function Key(): string { port + "/" + proto }
  }

  datatype Mount = Mount(kind: string, source: string, target: string)
  datatype PortBinding = PortBinding(hostIp: string, hostPort: string)
  datatype Resources = Resources(cpuShares: int64, memory: int64)
  datatype HostConfig = HostConfig(portBindings: map<string, seq<PortBinding>>, networkMode: string,
                                   autoRemove: bool, mounts: seq<Mount>, resources: Resources)
  datatype Config = Config(image: string, env: seq<string>)

  /** `dockerservice.Container`: a name and the three configurations; `endpoints` are the networks it joins. */
  datatype Container = Container(name: string, config: Config, hostConfig: HostConfig, endpoints: set<string>)

  /** `dockerservice.Container{}`. */
  const NoContainer := Container("", Config("", []), HostConfig(map[], "", false, [], Resources(0, 0)), {})

  /** Which of the two `nat.NewPort` calls fail: their parser is not part of this model. */
  datatype PortParse = PortParse(hostPortFails: bool, containerPortFails: bool)

  /** The error `nat.NewPort` gives for a port string it cannot parse. */
  function PortError(port: string): Error {
    Failure("invalid port: " + port)
  }

  /** `nat.NewPort(proto, port)`. */
  function NewPort(proto: string, port: string, fails: bool): Result<NatPort, Error> {
    if fails then Err(PortError(port)) else Ok(NatPort(proto, port))
  }

  function NetworkName(name: string): string {
    name + "_default"
  }

  /** Go's int64 multiplication: the exact product, wrapped into 64 bits. */
  function WrapInt64(x: int): (r: int64)
    ensures (r as int - x) % 0x1_0000_0000_0000_0000 == 0
  {
    ((x + 0x8000_0000_0000_0000) % 0x1_0000_0000_0000_0000 - 0x8000_0000_0000_0000) as int64
  }

  /**
    The container value built at the end of `NewPostgresContainer`. `envVal`
    stands for `misc.StringToDockerEnvVal`.
  */
  function PostgresContainer(props: ContainerProps, volumeName: string, hostPort: NatPort, containerPort: NatPort,
                             envVal: (string, string) -> string): Container
  {
    var mounts := [Mount("volume", volumeName, PgDataMount)];
    var hostConfig := HostConfig(
      map[containerPort.Key() := [PortBinding("0.0.0.0", hostPort.port)]],
      "default", false, mounts,
      Resources(props.cpuShares, WrapInt64(props.memory as int * 1000000)));
    var env := [envVal("POSTGRES_USER", props.username), envVal("POSTGRES_PASSWORD", props.password)];
    Container(PrefixPgContainer + props.name, Config(props.image, env), hostConfig, {NetworkName(props.name)})
  }

  // ---------------------------------------------------------------------------
  // Deferred removals

  datatype Deferred = RemoveVolumeOnError(volume: string) | RemoveNetworkOnError(id: nat)

  /**
    The error left once the deferred removals in `stack` have run, the last
    pushed first: a removal that fails wraps the error with `%w` (its own
    error is dropped), one that succeeds leaves it as it was.
  */
  function Unwind(stack: seq<Deferred>, err: Error, volumeRemoveFails: bool, networkRemoveFails: bool): Error
    decreases |stack|
  {
    if stack == [] then err
    else
      var inner := Unwind(stack[1..], err, volumeRemoveFails, networkRemoveFails);
      match stack[0]
      case RemoveVolumeOnError(_) => if volumeRemoveFails then Wrapped(VolumeCleanupContext, inner) else inner
      case RemoveNetworkOnError(_) => if networkRemoveFails then Wrapped(NetworkCleanupContext, inner) else inner
  }

  /** The removal calls the stack makes, the last pushed first. */
  function UnwindCalls(stack: seq<Deferred>): seq<Call>
    decreases |stack|
  {
    if stack == [] then []
    else UnwindCalls(stack[1..]) + [match stack[0]
                                    case RemoveVolumeOnError(v) => RemoveVolumeCall(v)
                                    case RemoveNetworkOnError(id) => RemoveNetworkCall(id)]
  }

  /** The volumes the stack removes. */
  function RemovedVolumes(stack: seq<Deferred>, volumeRemoveFails: bool): set<string>
    decreases |stack|
  {
    if stack == [] || volumeRemoveFails then {}
    else (if stack[0].RemoveVolumeOnError? then {stack[0].volume} else {}) + RemovedVolumes(stack[1..], false)
  }

  /** The networks the stack removes. */
  function RemovedNetworks(stack: seq<Deferred>, networkRemoveFails: bool): set<nat>
    decreases |stack|
  {
    if stack == [] || networkRemoveFails then {}
    else (if stack[0].RemoveNetworkOnError? then {stack[0].id} else {}) + RemovedNetworks(stack[1..], false)
  }

  /** How many removals of the stack fail. */
  function FailedRemovals(stack: seq<Deferred>, volumeRemoveFails: bool, networkRemoveFails: bool): nat
    decreases |stack|
  {
    if stack == [] then 0
    else (if (stack[0].RemoveVolumeOnError? && volumeRemoveFails)
             || (stack[0].RemoveNetworkOnError? && networkRemoveFails) then 1 else 0)
         + FailedRemovals(stack[1..], volumeRemoveFails, networkRemoveFails)
  }

  /** The deferred closures running at return, the last registered first. */
  method RunDeferred(docker: Docker, stack: seq<Deferred>, err: Option<Error>) returns (result: Option<Error>)
    requires docker.Valid()
    modifies docker
    ensures docker.Valid()
    ensures docker.nextNetworkId == old(docker.nextNetworkId) && docker.containers == old(docker.containers)
    ensures err.None? ==>
      result == None && docker.calls == old(docker.calls)
      && docker.volumes == old(docker.volumes) && docker.networks == old(docker.networks)
    ensures err.Some? ==>
      && result == Some(Unwind(stack, err.value, docker.volumeRemoveFails, docker.networkRemoveFails))
      && docker.calls == old(docker.calls) + UnwindCalls(stack)
      && docker.volumes == old(docker.volumes) - RemovedVolumes(stack, docker.volumeRemoveFails)
      && docker.networks == old(docker.networks) - RemovedNetworks(stack, docker.networkRemoveFails)
  {
    result := err;
    var i := |stack|;
    while i > 0
      invariant 0 <= i <= |stack|
      invariant docker.Valid()
      invariant docker.nextNetworkId == old(docker.nextNetworkId) && docker.containers == old(docker.containers)
      invariant err.None? ==>
        result == None && docker.calls == old(docker.calls)
        && docker.volumes == old(docker.volumes) && docker.networks == old(docker.networks)
      invariant err.Some? ==>
        && result == Some(Unwind(stack[i..], err.value, docker.volumeRemoveFails, docker.networkRemoveFails))
        && docker.calls == old(docker.calls) + UnwindCalls(stack[i..])
        && docker.volumes == old(docker.volumes) - RemovedVolumes(stack[i..], docker.volumeRemoveFails)
        && docker.networks == old(docker.networks) - RemovedNetworks(stack[i..], docker.networkRemoveFails)
    {
      i := i - 1;
      assert stack[i..][1..] == stack[i + 1..];
      // each closure tests the named result `err` itself
      if result.Some? {
        match stack[i]
        case RemoveVolumeOnError(v) =>
          var e := docker.RemoveVolume(v);
          if e.Some? {
            result := Some(Wrapped(VolumeCleanupContext, result.value));
          }
        case RemoveNetworkOnError(id) =>
          var e := docker.RemoveNetwork(id);
          if e.Some? {
            result := Some(Wrapped(NetworkCleanupContext, result.value));
          }
      }
    }
  }

  /** Failed removals never hide the original error: `errors.Is` still finds it, and its root is unchanged. */
  lemma {:induction false} UnwindKeepsCause(stack: seq<Deferred>, err: Error, vrf: bool, nrf: bool)
    ensures Unwind(stack, err, vrf, nrf).Is(err)
    ensures Unwind(stack, err, vrf, nrf).Root() == err.Root()
    ensures Unwind(stack, err, vrf, nrf).Depth() == err.Depth() + FailedRemovals(stack, vrf, nrf)
    decreases |stack|
  {
    if stack != [] {
      UnwindKeepsCause(stack[1..], err, vrf, nrf);
    }
  }

  /** When every removal succeeds, the caller receives the original error unchanged. */
  lemma {:induction false} CleanRollbackKeepsError(stack: seq<Deferred>, err: Error)
    ensures Unwind(stack, err, false, false) == err
    ensures FailedRemovals(stack, false, false) == 0
    decreases |stack|
  {
    if stack != [] {
      CleanRollbackKeepsError(stack[1..], err);
    }
  }

  /**
    After a failure past the network, the network is removed before the
    volume; when both removals fail the volume's wrapper is the outer one.
  */
  lemma RollbackOrder(volume: string, id: nat, err: Error, vrf: bool, nrf: bool)
    ensures UnwindCalls([RemoveVolumeOnError(volume), RemoveNetworkOnError(id)])
            == [RemoveNetworkCall(id), RemoveVolumeCall(volume)]
    ensures RemovedVolumes([RemoveVolumeOnError(volume), RemoveNetworkOnError(id)], vrf)
            == if vrf then {} else {volume}
    ensures RemovedNetworks([RemoveVolumeOnError(volume), RemoveNetworkOnError(id)], nrf)
            == if nrf then {} else {id}
    ensures Unwind([RemoveVolumeOnError(volume), RemoveNetworkOnError(id)], err, true, true)
            == Wrapped(VolumeCleanupContext, Wrapped(NetworkCleanupContext, err))
  {
    var stack := [RemoveVolumeOnError(volume), RemoveNetworkOnError(id)];
    var top := [RemoveNetworkOnError(id)];
    assert stack[1..] == top;
    assert top[1..] == [];
    assert UnwindCalls(top) == [RemoveNetworkCall(id)];
    assert Unwind(top, err, true, true) == Wrapped(NetworkCleanupContext, err);
    assert RemovedVolumes(top, false) == {};
    assert RemovedNetworks(top, false) == {id};
  }

  /** A failure of the network itself: only the volume's removal was registered. */
  lemma VolumeOnlyRollback(volume: string, err: Error, vrf: bool, nrf: bool)
    ensures UnwindCalls([RemoveVolumeOnError(volume)]) == [RemoveVolumeCall(volume)]
    ensures RemovedVolumes([RemoveVolumeOnError(volume)], vrf) == if vrf then {} else {volume}
    ensures RemovedNetworks([RemoveVolumeOnError(volume)], nrf) == {}
  {
    var stack := [RemoveVolumeOnError(volume)];
    assert stack[1..] == [];
  }

  // ---------------------------------------------------------------------------
  // NewPostgresContainer

  /** The deferred removal when only the volume was created: it goes if it can. */
  method RollbackVolume(docker: Docker, volume: string, cause: Error) returns (err: Error)
    requires docker.Valid()
    modifies docker
    ensures docker.Valid()
    ensures docker.nextNetworkId == old(docker.nextNetworkId) && docker.containers == old(docker.containers)
    ensures err == Unwind([RemoveVolumeOnError(volume)], cause, docker.volumeRemoveFails, docker.networkRemoveFails)
    ensures err.Is(cause) && err.Root() == cause.Root()
    ensures docker.calls == old(docker.calls) + [RemoveVolumeCall(volume)]
    ensures docker.volumes == if docker.volumeRemoveFails then old(docker.volumes) else old(docker.volumes) - {volume}
    ensures docker.networks == old(docker.networks)
  {
    var deferred := [RemoveVolumeOnError(volume)];
    var result := RunDeferred(docker, deferred, Some(cause));
    VolumeOnlyRollback(volume, cause, docker.volumeRemoveFails, docker.networkRemoveFails);
    UnwindKeepsCause(deferred, cause, docker.volumeRemoveFails, docker.networkRemoveFails);
    err := result.value;
  }

  /**
    The deferred removals once both the volume and the network were created:
    the network goes first, then the volume, and `cause` is wrapped once per
    failed removal.
  */
  method RollbackBoth(docker: Docker, volume: string, id: nat, cause: Error) returns (err: Error)
    requires docker.Valid()
    modifies docker
    ensures docker.Valid()
    ensures docker.nextNetworkId == old(docker.nextNetworkId) && docker.containers == old(docker.containers)
    ensures err == Unwind([RemoveVolumeOnError(volume), RemoveNetworkOnError(id)], cause,
                          docker.volumeRemoveFails, docker.networkRemoveFails)
    ensures err.Is(cause) && err.Root() == cause.Root()
    ensures docker.calls == old(docker.calls) + [RemoveNetworkCall(id), RemoveVolumeCall(volume)]
    ensures docker.volumes == if docker.volumeRemoveFails then old(docker.volumes) else old(docker.volumes) - {volume}
    ensures docker.networks == if docker.networkRemoveFails then old(docker.networks) else old(docker.networks) - {id}
  {
    var deferred := [RemoveVolumeOnError(volume), RemoveNetworkOnError(id)];
    var result := RunDeferred(docker, deferred, Some(cause));
    RollbackOrder(volume, id, cause, docker.volumeRemoveFails, docker.networkRemoveFails);
    UnwindKeepsCause(deferred, cause, docker.volumeRemoveFails, docker.networkRemoveFails);
    err := result.value;
  }

  /**
    `NewPostgresContainer`. `newDockerErr` is what `dockerservice.NewDocker`
    answered: it is printed and otherwise ignored, and `docker` stands for
    the client either way.
  */
  method NewPostgresContainer(docker: Docker, props: ContainerProps, parse: PortParse,
                              newDockerErr: Option<Error>, envVal: (string, string) -> string)
    returns (postgresContainer: Container, err: Option<Error>)
    requires docker.Valid()
    modifies docker
    ensures docker.Valid() && docker.containers == old(docker.containers)
    // the volume comes first: if it fails, nothing else is attempted and nothing is removed
    ensures docker.volumeCreateFails ==>
      && err == Some(VolumeCreateError) && postgresContainer == NoContainer
      && docker.nextNetworkId == old(docker.nextNetworkId)
      && docker.calls == old(docker.calls) + [CreateVolumeCall(props.name)]
      && docker.volumes == old(docker.volumes) && docker.networks == old(docker.networks)
    // the network fails: the volume created by this call is removed
    ensures !docker.volumeCreateFails && docker.networkCreateFails ==>
      && err == Some(Unwind([RemoveVolumeOnError(props.name)], NetworkCreateError,
                            docker.volumeRemoveFails, docker.networkRemoveFails))
      && postgresContainer == NoContainer && docker.nextNetworkId == old(docker.nextNetworkId)
      && docker.calls == old(docker.calls) + [CreateVolumeCall(props.name), CreateNetworkCall(NetworkName(props.name)),
                                              RemoveVolumeCall(props.name)]
      && docker.volumes == (if docker.volumeRemoveFails then old(docker.volumes) + {props.name}
                            else old(docker.volumes) - {props.name})
      && docker.networks == old(docker.networks)
    // a port fails to parse: the network is removed, then the volume
    ensures !docker.volumeCreateFails && !docker.networkCreateFails
            && (parse.hostPortFails || parse.containerPortFails) ==>
      var id := old(docker.nextNetworkId);
      && err == Some(Unwind([RemoveVolumeOnError(props.name), RemoveNetworkOnError(id)],
                            if parse.hostPortFails then PortError(Itoa(props.port as int)) else PortError("5432"),
                            docker.volumeRemoveFails, docker.networkRemoveFails))
      && postgresContainer == NoContainer && docker.nextNetworkId == id + 1
      && docker.calls == old(docker.calls) + [CreateVolumeCall(props.name), CreateNetworkCall(NetworkName(props.name)),
                                              RemoveNetworkCall(id), RemoveVolumeCall(props.name)]
      && docker.volumes == (if docker.volumeRemoveFails then old(docker.volumes) + {props.name}
                            else old(docker.volumes) - {props.name})
      && docker.networks == (if docker.networkRemoveFails then old(docker.networks)[id := NetworkName(props.name)]
                             else old(docker.networks))
    // success: both resources stay, nothing is removed, and the container uses them
    ensures !docker.volumeCreateFails && !docker.networkCreateFails
            && !parse.hostPortFails && !parse.containerPortFails ==>
      var id := old(docker.nextNetworkId);
      && err == None && docker.nextNetworkId == id + 1
      && postgresContainer == PostgresContainer(props, props.name, NatPort("tcp", Itoa(props.port as int)),
                                                NatPort("tcp", "5432"), envVal)
      && docker.calls == old(docker.calls) + [CreateVolumeCall(props.name), CreateNetworkCall(NetworkName(props.name))]
      && docker.volumes == old(docker.volumes) + {props.name}
      && docker.networks == old(docker.networks)[id := NetworkName(props.name)]
      && postgresContainer.hostConfig.mounts[0].source in docker.volumes
      && (forall n :: n in postgresContainer.endpoints ==> n == docker.networks[id])
  {
    var newVolume := docker.CreateVolume(props.name);
    if newVolume.Err? {
      return NoContainer, Some(newVolume.error);
    }
    // from here on a failure runs the deferred removal of the volume
    ghost var beforeNetwork := docker.networks;
    var networkResponse := docker.CreateNetwork(NetworkName(props.name));
    if networkResponse.Err? {
      var e := RollbackVolume(docker, newVolume.value, networkResponse.error);
      return NoContainer, Some(e);
    }
    // and from here on the deferred removal of the network too, run first
    var containerName := PrefixPgContainer + props.name;
    var newHostPort := NewPort("tcp", Itoa(props.port as int), parse.hostPortFails);
    if newHostPort.Err? {
      var e := RollbackBoth(docker, props.name, networkResponse.value, newHostPort.error);
      assert beforeNetwork[networkResponse.value := NetworkName(props.name)] - {networkResponse.value} == beforeNetwork;
      return NoContainer, Some(e);
    }
    var newContainerPort := NewPort("tcp", "5432", parse.containerPortFails);
    if newContainerPort.Err? {
      var e := RollbackBoth(docker, props.name, networkResponse.value, newContainerPort.error);
      assert beforeNetwork[networkResponse.value := NetworkName(props.name)] - {networkResponse.value} == beforeNetwork;
      return NoContainer, Some(e);
    }
    postgresContainer := PostgresContainer(props, newVolume.value, newHostPort.value, newContainerPort.value, envVal);
    assert postgresContainer.name == containerName;
    assert postgresContainer.hostConfig.mounts[0].source == props.name;
    assert postgresContainer.endpoints == {NetworkName(props.name)};
    return postgresContainer, None;
  }

  // ---------------------------------------------------------------------------
  // The container configuration

  /**
    The container is named "spinup-postgres-<name>", joins only the network
    "<name>_default", mounts the volume at /var/lib/postgresql/data, binds
    5432/tcp to 0.0.0.0 on a host port that reads back as the requested port,
    passes user then password as its environment, keeps the CPU shares and
    scales the memory by 1000000, exactly whenever the product fits in 64 bits.
  */
  lemma ContainerConfiguration(props: ContainerProps, volumeName: string, envVal: (string, string) -> string)
    ensures var c := PostgresContainer(props, volumeName, NatPort("tcp", Itoa(props.port as int)),
                                       NatPort("tcp", "5432"), envVal);
      && |c.name| >= |PrefixPgContainer| && c.name[..|PrefixPgContainer|] == PrefixPgContainer
      && c.name[|PrefixPgContainer|..] == props.name
      && c.endpoints == {props.name + "_default"}
      && c.hostConfig.mounts == [Mount("volume", volumeName, "/var/lib/postgresql/data")]
      && c.hostConfig.portBindings.Keys == {"5432/tcp"}
      && |c.hostConfig.portBindings["5432/tcp"]| == 1
      && c.hostConfig.portBindings["5432/tcp"][0].hostIp == "0.0.0.0"
      && ParseInt(c.hostConfig.portBindings["5432/tcp"][0].hostPort) == Some(props.port as int)
      && c.config.env == [envVal("POSTGRES_USER", props.username), envVal("POSTGRES_PASSWORD", props.password)]
      && c.config.image == props.image
      && c.hostConfig.resources.cpuShares == props.cpuShares
      && (-9223372036854 <= props.memory as int <= 9223372036854
          <==> c.hostConfig.resources.memory as int == props.memory as int * 1000000)
  {
    ItoaRoundTrip(props.port as int);
    assert NatPort("tcp", "5432").Key() == "5432/tcp";
    var c := PostgresContainer(props, volumeName, NatPort("tcp", Itoa(props.port as int)), NatPort("tcp", "5432"), envVal);
    MemoryScaling(props.memory);
  }

  /** `memory * 1000000` in int64 is exact for at most 9223372036854 MB either way, and wraps beyond. */
  lemma MemoryScaling(m: int64)
    ensures -9223372036854 <= m as int <= 9223372036854
            <==> WrapInt64(m as int * 1000000) as int == m as int * 1000000
  {
    var x := m as int * 1000000;
    if -9223372036854 <= m as int <= 9223372036854 {
      assert -0x8000_0000_0000_0000 <= x < 0x8000_0000_0000_0000;
    } else {
      assert !(-0x8000_0000_0000_0000 <= x < 0x8000_0000_0000_0000);
    }
  }

  /** Instances with different names get different container names and different networks. */
  lemma NamesDistinct(a: string, b: string)
    requires a != b
    ensures PrefixPgContainer + a != PrefixPgContainer + b
    ensures NetworkName(a) != NetworkName(b)
  {
    DropPrefix(PrefixPgContainer, a);
    DropPrefix(PrefixPgContainer, b);
    DropSuffix(a, "_default");
    DropSuffix(b, "_default");
  }

  lemma DropPrefix(p: string, a: string)
    ensures (p + a)[|p|..] == a
  {
  }

  lemma DropSuffix(a: string, q: string)
    ensures (a + q)[..|a|] == a
  {
  }

  // ---------------------------------------------------------------------------
  // ReloadPostgres

  const LookupContext := "error getting container for container name"

  /** The exec configuration: `pg_ctl -D <datapath> reload`, as user postgres, in `execpath`. */
  function ReloadExec(execpath: string, datapath: string): ExecConfig {
    ExecConfig("postgres", false, execpath, true, true, ["pg_ctl", "-D", datapath, "reload"])
  }

  /**
    `ReloadPostgres`. A failed lookup returns at once, before any exec, with an
    error that names the container and flattens its cause (`%v`); a failed
    exec wraps its cause (`%w`) behind the command's name.
  */
  method ReloadPostgres(d: Docker, execpath: string, datapath: string, containerName: string)
    returns (err: Option<Error>)
    requires d.Valid()
    modifies d`calls
    ensures containerName !in d.containers ==>
      && err == Some(Flatten(LookupContext + " " + containerName, ContainerLookupError))
      && d.calls == old(d.calls) + [GetContainerCall(containerName)]
    ensures containerName in d.containers ==>
      && d.calls == old(d.calls) + [GetContainerCall(containerName), ExecCall(containerName, ReloadExec(execpath, datapath))]
      && err == if d.execFails then Some(Wrapped("error executing command pg_ctl", ExecError)) else None
  {
    var execConfig := ReloadExec(execpath, datapath);
    var pgContainer := d.GetContainer(containerName);
    if pgContainer.Err? {
      return Some(Flatten(LookupContext + " " + containerName, pgContainer.error));
    }
    var e := d.ExecCommand(pgContainer.value, execConfig);
    if e.Some? {
      assert "error executing command " + execConfig.cmd[0] == "error executing command pg_ctl";
      return Some(Wrapped("error executing command " + execConfig.cmd[0], e.value));
    }
    return None;
  }

  /**
    The lookup error's text names the container; its cause is only copied
    into the text, so `errors.Is` no longer finds it. The exec error keeps its
    cause.
  */
  lemma ReloadErrorShapes(containerName: string, cause: Error)
    ensures Contains(Flatten(LookupContext + " " + containerName, cause).Text(), containerName)
    ensures !Flatten(LookupContext + " " + containerName, cause).Is(cause)
    ensures Wrapped("error executing command pg_ctl", cause).Is(cause)
  {
    var prefix := LookupContext + " ";
    var rest := " " + cause.Text();
    ContainsMiddle(prefix, containerName, rest);
    assert Flatten(LookupContext + " " + containerName, cause).Text() == prefix + containerName + rest;
    if cause.Failure? {
      assert |Flatten(LookupContext + " " + containerName, cause).msg| > |cause.msg|;
    }
  }
}
