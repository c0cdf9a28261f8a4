/**
  The Docker Engine API value types the package sends to and receives from
  the daemon, restricted to the fields the package reads or writes plus a few
  representative others that it passes through untouched.
 */
module Docker {

  datatype MountType = TypeBind | TypeVolume | TypeTmpfs | TypeNamedPipe

  datatype Mount = Mount(Type: MountType, Source: string, Target: string, ReadOnly: bool)

  /** `container.Config`. */
  datatype ContainerConfig = ContainerConfig(
    Hostname: string,
    User: string,
    Env: seq<string>,
    Cmd: seq<string>,
    Image: string,
    WorkingDir: string,
    Tty: bool,
    OpenStdin: bool,
    AttachStdin: bool,
    AttachStdout: bool,
    AttachStderr: bool)

  /** `container.HostConfig`. */
  datatype HostConfig = HostConfig(
    Binds: seq<string>,
    NetworkMode: string,
    Privileged: bool,
    AutoRemove: bool,
    Mounts: seq<Mount>)

  /** `network.NetworkingConfig`: the names of the networks to join. */
  datatype NetworkingConfig = NetworkingConfig(EndpointsConfig: seq<string>)

  /** The zero values `&container.Config{}`, `&container.HostConfig{}` and
      `&network.NetworkingConfig{}`. */
  const EmptyContainerConfig := ContainerConfig("", "", [], [], "", "", false, false, false, false, false)
  const EmptyHostConfig := HostConfig([], "", false, false, [])
  const EmptyNetworkingConfig := NetworkingConfig([])

  /** `container.ContainerCreateCreatedBody`. */
  datatype CreatedBody = CreatedBody(ID: string, Warnings: seq<string>)

  /** `types.ExecConfig`. */
  datatype ExecConfig = ExecConfig(Cmd: seq<string>, AttachStdout: bool, AttachStderr: bool, Env: seq<string>)

  /** `types.ContainerExecInspect`. */
  datatype ExecInspect = ExecInspect(ExecID: string, ContainerID: string, Running: bool, ExitCode: int, Pid: int)

  const EmptyExecInspect := ExecInspect("", "", false, 0, 0)

  /** What `os.File.Stat` reports and the archive header copies. */
  datatype FileInfo = FileInfo(Name: string, Mode: int, Size: int)
}
