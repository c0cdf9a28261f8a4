/**
  Values shared by every part of the model: optional values, results, the
  errors the package produces, bytes, the in-memory byte buffer the package
  uses as an output sink, and the arguments a process or container is built
  from.
 */
module Types {

  datatype Option<+T> = None | Some(value: T) {
    function GetOr(default: T): (r: T) {
      match this
      case Some(v) => v
      case None => default
    }
  }

  /** An error value. `Fail` is an error created from a message, whether by
      `fmt.Errorf` without a wrapped cause or by a library call outside the
      model; `Wrapped` is `fmt.Errorf("<context>: %v", cause)`; `RetryExceeded`
      is the error the bounded retry returns once its budget is spent. */
  datatype Error =
    | Fail(msg: string)
    | Wrapped(context: string, cause: Error)
    | RetryExceeded(retryCount: int, last: Option<Error>)

  datatype Result<+T> = Success(value: T) | Failure(error: Error)

  newtype byte = b: int | 0 <= b < 256

  /** The line terminator `"\n"`. */
  const NEWLINE: byte := 10

  /** An in-memory byte sink (`bytes.Buffer` used as an `io.Writer`). */
  class Buffer {
    var data: seq<byte>

    constructor ()
      ensures data == []
    {
      data := [];
    }

    method Write(p: seq<byte>)
      modifies this
      ensures data == old(data) + p
    {
      data := data + p;
    }
  }

  /** Where the daemon lives: endpoint, certificate directory, API version. */
  datatype MachineConfig = MachineConfig(Host: string, CertPath: string, Version: string)

  /** The package's own mount description; only its conversion to the
      daemon's mount type is used, and that conversion is a parameter. */
  type MountArg(==)

  /** Arguments of a process or container: machine (where to run), environment
      and mounts (what to give it) and an optional container name. A `None`
      machine is a nil `*MachineConfig`. */
  datatype Args = Args(Machine: Option<MachineConfig>, Env: seq<string>, Mounts: seq<MountArg>, Name: string)
}
