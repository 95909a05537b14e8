/**
  The Docker runtime as the core sees it through `dockerservice`: named
  volumes, networks (by id, each with a name) and containers (by name). Each
  call can be made to fail by a flag fixed when the runtime is built, and the
  runtime keeps a log of the calls it received, in order, so that contracts
  can speak about what was attempted and in which order.
*/
module DockerRuntime {
  import opened Wrappers
  import opened Errors

  /** `types.ExecConfig`: what to run inside a container, and as whom. */
  datatype ExecConfig = ExecConfig(user: string, tty: bool, workingDir: string,
                                   attachStderr: bool, attachStdout: bool, cmd: seq<string>)

  /** One call received by the runtime. */
  datatype Call =
    | CreateVolumeCall(name: string)
    | CreateNetworkCall(networkName: string)
    | RemoveVolumeCall(name: string)
    | RemoveNetworkCall(id: nat)
    | GetContainerCall(containerName: string)
    | ExecCall(container: string, exec: ExecConfig)

  const VolumeCreateError := Failure("volume create failed")
  const NetworkCreateError := Failure("network create failed")
  const VolumeRemoveError := Failure("volume remove failed")
  const NetworkRemoveError := Failure("network remove failed")
  const ContainerLookupError := Failure("no such container")
  const ExecError := Failure("exec failed")

  class Docker {
    var volumes: set<string>
    var networks: map<nat, string>  // network id -> network name
    var nextNetworkId: nat
    var containers: set<string>
    ghost var calls: seq<Call>

    const volumeCreateFails: bool
    const networkCreateFails: bool
    const volumeRemoveFails: bool
    const networkRemoveFails: bool
    const execFails: bool

    /** Network ids are handed out in increasing order, so a new one is never in use. */
    ghost predicate Valid()
      reads this
    {
      forall id :: id in networks ==> id < nextNetworkId
    }

    constructor (volumes: set<string>, networks: map<nat, string>, nextNetworkId: nat, containers: set<string>,
                 volumeCreateFails: bool, networkCreateFails: bool,
                 volumeRemoveFails: bool, networkRemoveFails: bool, execFails: bool)
      requires forall id :: id in networks ==> id < nextNetworkId
      ensures Valid() && calls == []
      ensures this.volumes == volumes && this.networks == networks && this.containers == containers
      ensures this.nextNetworkId == nextNetworkId
      ensures this.volumeCreateFails == volumeCreateFails && this.networkCreateFails == networkCreateFails
      ensures this.volumeRemoveFails == volumeRemoveFails && this.networkRemoveFails == networkRemoveFails
      ensures this.execFails == execFails
    {
      this.volumes, this.networks, this.nextNetworkId, this.containers := volumes, networks, nextNetworkId, containers;
      this.volumeCreateFails, this.networkCreateFails := volumeCreateFails, networkCreateFails;
      this.volumeRemoveFails, this.networkRemoveFails := volumeRemoveFails, networkRemoveFails;
      this.execFails := execFails;
      calls := [];
    }

    /** `dockerservice.CreateVolume`: on success the volume exists and its name is returned. */
    method CreateVolume(name: string) returns (r: Result<string, Error>)
      requires Valid()
      modifies this
      ensures Valid() && calls == old(calls) + [CreateVolumeCall(name)]
      ensures networks == old(networks) && nextNetworkId == old(nextNetworkId) && containers == old(containers)
      ensures volumeCreateFails ==> r == Err(VolumeCreateError) && volumes == old(volumes)
      ensures !volumeCreateFails ==> r == Ok(name) && volumes == old(volumes) + {name}
    {
      calls := calls + [CreateVolumeCall(name)];
      if volumeCreateFails {
        r := Err(VolumeCreateError);
      } else {
        volumes := volumes + {name};
        r := Ok(name);
      }
    }

    /** `dockerservice.CreateNetwork`: on success a network with a new id carries the name. */
    method CreateNetwork(name: string) returns (r: Result<nat, Error>)
      requires Valid()
      modifies this
      ensures Valid() && calls == old(calls) + [CreateNetworkCall(name)]
      ensures volumes == old(volumes) && containers == old(containers)
      ensures networkCreateFails ==>
        r == Err(NetworkCreateError) && networks == old(networks) && nextNetworkId == old(nextNetworkId)
      ensures !networkCreateFails ==>
        && r == Ok(old(nextNetworkId)) && old(nextNetworkId) !in old(networks)
        && networks == old(networks)[old(nextNetworkId) := name]
        && nextNetworkId == old(nextNetworkId) + 1
    {
      calls := calls + [CreateNetworkCall(name)];
      if networkCreateFails {
        r := Err(NetworkCreateError);
      } else {
        r := Ok(nextNetworkId);
        networks := networks[nextNetworkId := name];
        nextNetworkId := nextNetworkId + 1;
      }
    }

    /** `dockerservice.RemoveVolume`. */
    method RemoveVolume(name: string) returns (err: Option<Error>)
      requires Valid()
      modifies this
      ensures Valid() && calls == old(calls) + [RemoveVolumeCall(name)]
      ensures networks == old(networks) && nextNetworkId == old(nextNetworkId) && containers == old(containers)
      ensures volumeRemoveFails ==> err == Some(VolumeRemoveError) && volumes == old(volumes)
      ensures !volumeRemoveFails ==> err == None && volumes == old(volumes) - {name}
    {
      calls := calls + [RemoveVolumeCall(name)];
      if volumeRemoveFails {
        err := Some(VolumeRemoveError);
      } else {
        volumes := volumes - {name};
        err := None;
      }
    }

    /** `dockerservice.RemoveNetwork`. */
    method RemoveNetwork(id: nat) returns (err: Option<Error>)
      requires Valid()
      modifies this
      ensures Valid() && calls == old(calls) + [RemoveNetworkCall(id)]
      ensures volumes == old(volumes) && nextNetworkId == old(nextNetworkId) && containers == old(containers)
      ensures networkRemoveFails ==> err == Some(NetworkRemoveError) && networks == old(networks)
      ensures !networkRemoveFails ==> err == None && networks == old(networks) - {id}
    {
      calls := calls + [RemoveNetworkCall(id)];
      if networkRemoveFails {
        err := Some(NetworkRemoveError);
      } else {
        networks := networks - {id};
        err := None;
      }
    }

    /** `Docker.GetContainer`: finds a container by name. */
    method GetContainer(name: string) returns (r: Result<string, Error>)
      requires Valid()
      modifies this`calls
      ensures calls == old(calls) + [GetContainerCall(name)]
      ensures r == if name in containers then Ok(name) else Err(ContainerLookupError)
    {
      calls := calls + [GetContainerCall(name)];
      r := if name in containers then Ok(name) else Err(ContainerLookupError);
    }

    /** `Container.ExecCommand`: runs a command inside a container. */
    method ExecCommand(container: string, exec: ExecConfig) returns (err: Option<Error>)
      requires Valid()
      modifies this`calls
      ensures calls == old(calls) + [ExecCall(container, exec)]
      ensures err == if execFails then Some(ExecError) else None
    {
      calls := calls + [ExecCall(container, exec)];
      err := if execFails then Some(ExecError) else None;
    }
  }
}
