/**
  Shorthand constructors for the daemon's mount type. `readonly` stands for
  Go's variadic `readonly ...bool`: the values the caller passed, possibly none.
 */
module Mounts {
  import opened Docker

  /** The read-only flag of a variadic `readonly`: `false` is appended and the
      first element is taken. */
  function ReadOnlyFlag(readonly: seq<bool>): (ro: bool)
    ensures |readonly| == 0 ==> !ro
    ensures |readonly| > 0 ==> ro == readonly[0]
  {
    var padded := readonly + [false];
    padded[0]
  }

  /** `--volume source:target`. */
  function Bind(source: string, target: string, readonly: seq<bool>): (m: Mount)
    ensures m.Type == TypeBind && m.Source == source && m.Target == target
    ensures m.ReadOnly <==> |readonly| > 0 && readonly[0]
  {
    Mount(TypeBind, source, target, ReadOnlyFlag(readonly))
  }

  /** `--volumes-from containerID`. */
  function VolumesFrom(containerID: string): (m: Mount)
    ensures m.Type == TypeVolume && m.Source == containerID && m.Target == "" && !m.ReadOnly
  {
    Mount(TypeVolume, containerID, "", false)
  }

  /** A named volume mounted at `target`. */
  function VolumeByName(volumeName: string, target: string, readonly: seq<bool>): (m: Mount)
    ensures m.Type == TypeVolume && m.Source == volumeName && m.Target == target
    ensures m.ReadOnly <==> |readonly| > 0 && readonly[0]
  {
    Mount(TypeVolume, volumeName, target, ReadOnlyFlag(readonly))
  }

  /** Only the first of several `readonly` values matters. */
  lemma ExtraReadOnlyValuesIgnored(source: string, target: string, first: bool, rest: seq<bool>)
    ensures Bind(source, target, [first] + rest) == Bind(source, target, [first])
    ensures VolumeByName(source, target, [first] + rest) == VolumeByName(source, target, [first])
  {
  }
}
