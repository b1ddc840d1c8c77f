/**
 * The kernel side of the CEC character device, reached through `ioctl`
 * (src/sys.rs:201-247, 299-311, 620-625). The kernel's answer — an errno, or the
 * structure it filled in — is outside the model and may be anything; the
 * `log` records, in order, what was handed to the kernel and what came back,
 * so the device layer can be specified against it.
 */
module Ioctl {
  import opened Common
  import M = CecMsg
  import Events

  /** The errno of a failed `ioctl`. */
  datatype Errno = Errno(code: int)

  /** One `ioctl` call: what the library passed in and what the kernel returned. */
  datatype Call =
    | Transmit(sent: M.CecMsg, result: Result<M.CecMsg, Errno>)
    | Receive(buffer: M.CecMsg, result: Result<M.CecMsg, Errno>)
    | SetMode(mode: bv32, done: Result<(), Errno>)
    | GetMode(answer: Result<bv32, Errno>)
    | DequeueEvent(event: Events.CecEvent, dequeued: Result<Events.CecEvent, Errno>)

  /** An open CEC device node. */
  class Driver {
    ghost var log: seq<Call>

    constructor ()
      ensures log == []
    {
      log := [];
    }

    /** `CEC_TRANSMIT`: queue `m`; on success the kernel hands back `m` with its status fields. */
    method Transmit(m: M.CecMsg) returns (r: Result<M.CecMsg, Errno>)
      modifies this
      ensures log == old(log) + [Call.Transmit(m, r)]
    {
      r := *;
      log := log + [Call.Transmit(m, r)];
    }

    /** `CEC_RECEIVE`: fill `buffer` with the next received message. */
    method Receive(buffer: M.CecMsg) returns (r: Result<M.CecMsg, Errno>)
      modifies this
      ensures log == old(log) + [Call.Receive(buffer, r)]
    {
      r := *;
      log := log + [Call.Receive(buffer, r)];
    }

    /** `CEC_S_MODE`: set this handle's initiator and follower mode word. */
    method SetMode(mode: bv32) returns (r: Result<(), Errno>)
      modifies this
      ensures log == old(log) + [Call.SetMode(mode, r)]
    {
      r := *;
      log := log + [Call.SetMode(mode, r)];
    }

    /** `CEC_G_MODE`: read this handle's mode word. */
    method GetMode() returns (r: Result<bv32, Errno>)
      modifies this
      ensures log == old(log) + [Call.GetMode(r)]
    {
      r := *;
      log := log + [Call.GetMode(r)];
    }

    /** `CEC_DQEVENT`: overwrite `event` with the oldest pending event. */
    method DequeueEvent(event: Events.CecEvent) returns (r: Result<Events.CecEvent, Errno>)
      modifies this
      ensures log == old(log) + [Call.DequeueEvent(event, r)]
    {
      r := *;
      log := log + [Call.DequeueEvent(event, r)];
    }
  }
}
