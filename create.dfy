/**
  The newer `Create`: the caller hands in the container, host and network
  configurations (each possibly absent) and the name. Absent configurations
  are replaced by empty ones, a fixed set of fields is overwritten, and
  everything else the caller set is sent to the daemon as given.
 */
module Creation {
  import opened Types
  import opened Docker
  import opened Remote
  import opened Daap
  import Legacy

  /** `CreateConfig`; an absent configuration is Go's nil pointer. */
  datatype CreateConfig = CreateConfig(
    Name: string,
    Container: Option<ContainerConfig>,
    Host: Option<HostConfig>,
    Network: Option<NetworkingConfig>)

  /** The container configuration `Create` sends for `image`: the caller's, or
      an empty one, with the image, the TTY and both outputs overwritten. */
  function ForcedContainer(image: string, cfg: Option<ContainerConfig>): (sent: ContainerConfig)
  {
    cfg.GetOr(EmptyContainerConfig).(Image := image, Tty := true, AttachStdout := true, AttachStderr := true)
  }

  /** The host configuration `Create` sends: the caller's, or an empty one,
      on the host network and privileged. */
  function ForcedHost(host: Option<HostConfig>): (sent: HostConfig)
  {
    host.GetOr(EmptyHostConfig).(NetworkMode := "host", Privileged := true)
  }

  /** The networking configuration `Create` sends: the caller's, or an empty one. */
  function DefaultedNetwork(network: Option<NetworkingConfig>): (sent: NetworkingConfig)
  {
    network.GetOr(EmptyNetworkingConfig)
  }

  /** The overwritten fields hold their fixed values whatever the caller set. */
  lemma ForcedFields(image: string, cfg: Option<ContainerConfig>, host: Option<HostConfig>)
    ensures ForcedContainer(image, cfg).Image == image
    ensures ForcedContainer(image, cfg).Tty && ForcedContainer(image, cfg).AttachStdout && ForcedContainer(image, cfg).AttachStderr
    ensures ForcedHost(host).NetworkMode == "host" && ForcedHost(host).Privileged
  {
  }

  /** Every other field the caller set reaches the daemon unchanged. */
  lemma OtherFieldsPassThrough(image: string, cfg: ContainerConfig, host: HostConfig, network: NetworkingConfig)
    ensures var sent := ForcedContainer(image, Some(cfg));
      && sent.Hostname == cfg.Hostname && sent.User == cfg.User && sent.Env == cfg.Env && sent.Cmd == cfg.Cmd
      && sent.WorkingDir == cfg.WorkingDir && sent.OpenStdin == cfg.OpenStdin && sent.AttachStdin == cfg.AttachStdin
    ensures var sent := ForcedHost(Some(host));
      sent.Binds == host.Binds && sent.AutoRemove == host.AutoRemove && sent.Mounts == host.Mounts
    ensures DefaultedNetwork(Some(network)) == network
  {
  }

  /** An absent configuration is sent as the empty one with the overwrites:
      no command, no environment, no mounts, no network. */
  lemma AbsentConfigsDefaulted(image: string)
    ensures ForcedContainer(image, None) == EmptyContainerConfig.(Image := image, Tty := true, AttachStdout := true, AttachStderr := true)
    ensures ForcedContainer(image, None).Cmd == [] && ForcedContainer(image, None).Env == []
    ensures ForcedHost(None) == HostConfig([], "host", true, false, [])
    ensures DefaultedNetwork(None) == NetworkingConfig([])
  {
  }

  /** Sending a configuration already sent changes nothing: the overwrites
      are idempotent, and a caller's configuration that already holds the
      fixed values is sent exactly as given. */
  lemma OverwritesIdempotent(image: string, cfg: Option<ContainerConfig>, host: Option<HostConfig>)
    ensures ForcedContainer(image, Some(ForcedContainer(image, cfg))) == ForcedContainer(image, cfg)
    ensures ForcedHost(Some(ForcedHost(host))) == ForcedHost(host)
    ensures cfg.Some? && cfg.value.Image == image && cfg.value.Tty && cfg.value.AttachStdout && cfg.value.AttachStderr ==>
              ForcedContainer(image, cfg) == cfg.value
  {
  }

  /** With no container configuration, the newer `Create` sends the same
      container configuration as the older one; the host configuration is
      where they differ, the newer one asking for the host network and
      privileges. */
  lemma VersionsAgreeOnDefaultContainer(image: string)
    ensures ForcedContainer(image, None) == Legacy.FixedContainerConfig(image)
    ensures ForcedHost(None) != Legacy.FixedHost
  {
  }

  /** `Create`: a client, then the configurations defaulted and overwritten
      step by step, then the create request under `config.Name`. The result
      is stored even when the daemon reports an error. */
  method Create(c: Container, w: World, config: CreateConfig) returns (err: Option<Error>)
    modifies w`trace, w`connects, c`Body
    ensures w.connects == old(w.connects) + 1
    ensures w.script.connect(old(w.connects)).Some? ==>
              err == w.script.connect(old(w.connects)) && w.trace == old(w.trace) + [Connect] && c.Body == old(c.Body)
    ensures w.script.connect(old(w.connects)).None? ==>
              && err == w.script.createErr && c.Body == w.script.create
              && w.trace == old(w.trace) + [Connect, ContainerCreate(ForcedContainer(c.Image, config.Container), ForcedHost(config.Host),
                                                                     DefaultedNetwork(config.Network), config.Name)]
  {
    err := w.CreateClient();
    if err.Some? {
      return;
    }
    var cfg := config;
    if cfg.Container.None? {
      cfg := cfg.(Container := Some(EmptyContainerConfig));
    }
    if cfg.Host.None? {
      cfg := cfg.(Host := Some(EmptyHostConfig));
    }
    if cfg.Network.None? {
      cfg := cfg.(Network := Some(EmptyNetworkingConfig));
    }
    var container := cfg.Container.value.(Image := c.Image);
    container := container.(Tty := true);
    container := container.(AttachStdout := true);
    container := container.(AttachStderr := true);
    var host := cfg.Host.value.(NetworkMode := "host");
    host := host.(Privileged := true);
    c.Body, err := w.ContainerCreate(container, host, cfg.Network.value, cfg.Name);
  }
}
