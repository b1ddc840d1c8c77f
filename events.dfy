/**
 * The kernel's event record as the bindings lay it out (src/sys.rs:558-618):
 * a tag, flags, a timestamp and a payload whose meaning the tag selects.
 */
module Events {
  import opened Common
  import LogAddr = CecLogAddrMask

  /** `CecEventType`: the tag, `#[repr(u32)]` with StateChange = 1 and LostMsgs = 2. */
  datatype CecEventType = StateChange | LostMsgs

  /** `CecEventFlags::CEC_EVENT_FL_INITIAL_STATE`. */
  const InitialState: bv32 := 1 << 0

  /** `CecEventStateChange`: the adapter's physical address and its claimed logical addresses. */
  datatype CecEventStateChange = CecEventStateChange(physAddr: bv16, logAddrMask: LogAddr.CecLogAddrMask)

  /** `CecEventLostMsgs`: how many messages the kernel dropped. */
  datatype CecEventLostMsgs = CecEventLostMsgs(lostMsgs: U32)

  /**
   * `CecEventPayload`. The source declares a C union; here both arms are kept
   * side by side and the event's tag says which one is meaningful.
   */
  datatype CecEventPayload = CecEventPayload(stateChange: CecEventStateChange, lostMsgs: CecEventLostMsgs)

  /** `CecEvent` of src/sys.rs: timestamp, tag, flags and payload. */
  datatype CecEvent = CecEvent(ts: U64, typ: CecEventType, flags: bv32, payload: CecEventPayload)

  /**
   * `CecEvent::default()`: tag LostMsgs, no flags, zero timestamp and an
   * all-zero payload, so that either arm reads as zeros.
   */
  function Default(): (e: CecEvent)
    ensures e.ts == 0 && e.typ == LostMsgs && e.flags == 0
    ensures e.payload.stateChange.physAddr == 0 && e.payload.stateChange.logAddrMask == 0
    ensures e.payload.lostMsgs.lostMsgs == 0
  {
    CecEvent(0, LostMsgs, 0, CecEventPayload(CecEventStateChange(0, 0), CecEventLostMsgs(0)))
  }
}
