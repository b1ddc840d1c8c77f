/**
 * `CecDevice` (src/lib.rs:58-258): the library's handle on a CEC adapter. Each
 * operation prepares a buffer, makes one or two `ioctl` calls and turns the
 * kernel's answer into a `Result`.
 */
module CecDevice {
  import opened Common
  import M = CecMsg
  import Addr = CecLogicalAddress
  import Op = CecOpcode
  import Ucc = CecUserControlCode
  import I = CecModeInitiator
  import F = CecModeFollower
  import Events
  import opened Ioctl

  type CecLogicalAddress = Addr.CecLogicalAddress
  type CecOpcode = Op.CecOpcode
  type CecUserControlCode = Ucc.CecUserControlCode
  type CecModeInitiator = I.CecModeInitiator
  type CecModeFollower = F.CecModeFollower

  /** `std::io::Error` as the library produces it: an OS errno, or `ErrorKind::Other`. */
  datatype IoError = Os(errno: Errno) | Other

  /** `CecEvent` of src/lib.rs:251-258: the event with the arm its tag selects. */
  datatype CecEvent =
    | StateChange(change: Events.CecEventStateChange)
    | LostMsgs(lost: Events.CecEventLostMsgs)

  // ---- mode word packing (`set_mode` / `get_mode`) ----

  /** The mode word `set_mode` sends: `u32::from(initiator) | u32::from(follower)`. */
  function ModeWord(i: CecModeInitiator, f: CecModeFollower): (w: bv32)
    ensures w & I.Mask == i && w & F.Mask == f
    ensures w & 0xFFFF_FF00 == 0
  {
    I.WithinMask(i);
    F.WithinMask(f);
    i | f
  }

  /**
   * What `get_mode` makes of the word the kernel returned: both masked fields
   * decoded, or `Other` when either names no variant.
   */
  function ModeFromWord(w: bv32): (r: Result<(CecModeInitiator, CecModeFollower), IoError>)
    ensures r.Ok? <==> I.IsVariant(w & I.Mask) && F.IsVariant(w & F.Mask)
    ensures r.Ok? ==> r.value.0 == w & I.Mask && r.value.1 == w & F.Mask
    ensures r.Err? ==> r.error == Other
  {
    var i := I.TryFrom(w & I.Mask);
    var e := F.TryFrom(w & F.Mask);
    match (i, e)
    case (Ok(i), Ok(e)) => Ok((i, e))
    case _ => Err(Other)
  }

  /** Reading back the word `set_mode` sent yields the same pair. */
  lemma ModeRoundTrip(i: CecModeInitiator, f: CecModeFollower)
    ensures ModeFromWord(ModeWord(i, f)) == Ok((i, f))
  {
  }

  /** A word `get_mode` accepts is, in its low byte, the word `set_mode` sends for the pair. */
  lemma ModeWordOfDecoded(w: bv32)
    requires ModeFromWord(w).Ok?
    ensures ModeWord(ModeFromWord(w).value.0, ModeFromWord(w).value.1) == w & 0xFF
  {
    assert w & 0xFF == (w & I.Mask) | (w & F.Mask);
  }

  /** Initiator nibble 3 names no initiator mode, so `get_mode` fails. */
  lemma InitiatorNibbleThreeRejected(f: CecModeFollower)
    ensures ModeFromWord(3 | f) == Err(Other)
  {
    F.WithinMask(f);
    assert (3 | f) & I.Mask == 3;
  }

  // ---- events (`get_event`) ----

  /** `get_event`'s match on the tag: the payload arm the tag names. */
  function EventFromSys(e: Events.CecEvent): (r: CecEvent)
    ensures r.LostMsgs? <==> e.typ == Events.LostMsgs
    ensures r.LostMsgs? ==> r.lost == e.payload.lostMsgs
    ensures r.StateChange? ==> r.change == e.payload.stateChange
  {
    match e.typ
    case LostMsgs => LostMsgs(e.payload.lostMsgs)
    case StateChange => StateChange(e.payload.stateChange)
  }

  /**
   * An event as the kernel writes it for `ev`: the tag of `ev`'s kind and its
   * data in that arm; the other arm, timestamp and flags are whatever `rest` holds.
   */
  function EventToSys(ev: CecEvent, rest: Events.CecEvent): (e: Events.CecEvent)
  {
    match ev
    case StateChange(c) => rest.(typ := Events.StateChange, payload := rest.payload.(stateChange := c))
    case LostMsgs(l) => rest.(typ := Events.LostMsgs, payload := rest.payload.(lostMsgs := l))
  }

  /** Every library event comes back out of the kernel record that carries it. */
  lemma EventRoundTrip(ev: CecEvent, rest: Events.CecEvent)
    ensures EventFromSys(EventToSys(ev, rest)) == ev
  {
  }

  /** Only the tag and the arm it selects matter to `get_event`. */
  lemma EventFromSysIgnoresOtherArm(e: Events.CecEvent, rest: Events.CecEvent)
    ensures EventToSys(EventFromSys(e), rest).typ == e.typ
    ensures EventFromSys(EventToSys(EventFromSys(e), rest)) == EventFromSys(e)
  {
  }

  // ---- outgoing messages (`transmit`, `transmit_data`) ----

  /**
   * The buffer `transmit_data` hands to the driver: `init(from, to)` with the
   * opcode in byte 1, the data from byte 2 on and `len = 2 + data.len()`.
   * `transmit` is the case of no data.
   */
  function Outgoing(from: CecLogicalAddress, to: CecLogicalAddress, op: CecOpcode, data: seq<bv8>): M.CecMsg
    requires |data| <= M.MaxMsgSize - 2
  {
    M.CecMsg(0, 0, 2 + |data|, 0, 0, 0,
      seq(M.MaxMsgSize, i requires 0 <= i < M.MaxMsgSize =>
        if i == 0 then M.AddressByte(from, to)
        else if i == 1 then op
        else if i < 2 + |data| then data[i - 2]
        else 0),
      0, 0, 0, 0, 0, 0, 0)
  }

  /** An outgoing message decodes to the addresses, opcode and parameters it was built from. */
  lemma OutgoingDecodes(from: CecLogicalAddress, to: CecLogicalAddress, op: CecOpcode, data: seq<bv8>)
    requires |data| <= M.MaxMsgSize - 2
    ensures M.Initiator(Outgoing(from, to, op, data)) == from
    ensures M.Destination(Outgoing(from, to, op, data)) == to
    ensures M.Opcode(Outgoing(from, to, op, data)) == Some(Ok(op))
    ensures M.Parameters(Outgoing(from, to, op, data)) == data
    ensures M.IsBroadcast(Outgoing(from, to, op, data)) <==> to == Addr.UnregisteredBroadcast
  {
    var m := Outgoing(from, to, op, data);
    M.AddressByteDecodes(from, to, m);
    if |data| > 0 {
      assert M.Parameters(m) == m.msg[2..2 + |data|];
    }
  }

  /** Playback 2 telling the audio system to go to standby sends the bytes 0x85 0x36. */
  lemma StandbyExample()
    ensures Outgoing(Addr.Playback2, Addr.Audiosystem, Op.Standby, []).msg[..2] == [0x85, 0x36]
    ensures Outgoing(Addr.Playback2, Addr.Audiosystem, Op.Standby, []).len == 2
  {
    var m := Outgoing(Addr.Playback2, Addr.Audiosystem, Op.Standby, []);
    assert m.msg[0] == 0x85;
  }

  /** `log1` is `log0` and one `CEC_TRANSMIT` of `m`, whose outcome `r` reports. */
  ghost predicate Submitted(log0: seq<Call>, log1: seq<Call>, m: M.CecMsg, r: Result<(), IoError>) {
    |log1| == |log0| + 1 && log1[..|log0|] == log0
    && log1[|log0|].Transmit? && log1[|log0|].sent == m
    && (r.Ok? <==> log1[|log0|].result.Ok?)
    && (r.Err? ==> r.error == Os(log1[|log0|].result.error))
  }

  /**
   * `log1` is `log0` and the calls of a key press: a `UserControlPressed` with
   * parameter `key`, then, only if that succeeded, a `UserControlReleased`.
   */
  ghost predicate PressedAndReleased(log0: seq<Call>, log1: seq<Call>,
      from: CecLogicalAddress, to: CecLogicalAddress, key: CecUserControlCode, r: Result<(), IoError>)
  {
    |log1| > |log0| && log1[..|log0|] == log0
    && log1[|log0|].Transmit? && log1[|log0|].sent == Outgoing(from, to, Op.UserControlPressed, [key])
    && if log1[|log0|].result.Err? then
         |log1| == |log0| + 1 && r == Err(Os(log1[|log0|].result.error))
       else
         Submitted(log1[..|log0| + 1], log1, Outgoing(from, to, Op.UserControlReleased, []), r)
  }

  /** An open CEC device: `CecDevice(File)`, its file handle being the driver connection. */
  class CecDevice {
    const fd: Driver

    constructor (fd: Driver)
      ensures this.fd == fd
    {
      this.fd := fd;
    }

    /** `set_mode`: send the packed mode word. */
    method SetMode(initiator: CecModeInitiator, follower: CecModeFollower) returns (r: Result<(), IoError>)
      modifies fd
      ensures |fd.log| == |old(fd.log)| + 1 && fd.log[..|old(fd.log)|] == old(fd.log)
      ensures fd.log[|old(fd.log)|].SetMode? && fd.log[|old(fd.log)|].mode == ModeWord(initiator, follower)
      ensures r.Ok? <==> fd.log[|old(fd.log)|].done.Ok?
      ensures r.Err? ==> r.error == Os(fd.log[|old(fd.log)|].done.error)
    {
      var mode: bv32 := initiator | follower;
      assert mode == ModeWord(initiator, follower);
      var res := fd.SetMode(mode);
      if res.Err? {
        return Err(Os(res.error));
      }
      return Ok(());
    }

    /** `get_mode`: read the mode word and decode both fields. */
    method GetMode() returns (r: Result<(CecModeInitiator, CecModeFollower), IoError>)
      modifies fd
      ensures |fd.log| == |old(fd.log)| + 1 && fd.log[..|old(fd.log)|] == old(fd.log)
      ensures fd.log[|old(fd.log)|].GetMode?
      ensures var answer := fd.log[|old(fd.log)|].answer;
        r == if answer.Err? then Err(Os(answer.error)) else ModeFromWord(answer.value)
    {
      var res := fd.GetMode();
      if res.Err? {
        return Err(Os(res.error));
      }
      var mode := res.value;
      var i := I.TryFrom(mode & I.Mask);
      var e := F.TryFrom(mode & F.Mask);
      if i.Ok? && e.Ok? {
        return Ok((i.value, e.value));
      }
      return Err(Other);
    }

    /** `get_event`: dequeue into a default event and keep the arm its tag selects. */
    method GetEvent() returns (r: Result<CecEvent, IoError>)
      modifies fd
      ensures |fd.log| == |old(fd.log)| + 1 && fd.log[..|old(fd.log)|] == old(fd.log)
      ensures fd.log[|old(fd.log)|].DequeueEvent? && fd.log[|old(fd.log)|].event == Events.Default()
      ensures var d := fd.log[|old(fd.log)|].dequeued;
        r == if d.Err? then Err(Os(d.error)) else Ok(EventFromSys(d.value))
    {
      var evt := Events.Default();
      var res := fd.DequeueEvent(evt);
      if res.Err? {
        return Err(Os(res.error));
      }
      evt := res.value;
      match evt.typ
      case LostMsgs =>
        return Ok(LostMsgs(evt.payload.lostMsgs));
      case StateChange =>
        return Ok(StateChange(evt.payload.stateChange));
    }

    /** `transmit`: a message with an opcode and no parameters. */
    method Transmit(from: CecLogicalAddress, to: CecLogicalAddress, opcode: CecOpcode) returns (r: Result<(), IoError>)
      modifies fd
      ensures Submitted(old(fd.log), fd.log, Outgoing(from, to, opcode, []), r)
    {
      var msg := M.Init(from, to);
      msg := msg.(msg := msg.msg[1 := opcode]);
      msg := msg.(len := 2);
      assert msg == Outgoing(from, to, opcode, []);
      var res := fd.Transmit(msg);
      if res.Err? {
        return Err(Os(res.error));
      }
      return Ok(());
    }

    /** `transmit_data`: a message with an opcode and parameters; more than 14 bytes would overrun the buffer. */
    method TransmitData(from: CecLogicalAddress, to: CecLogicalAddress, opcode: CecOpcode, data: seq<bv8>)
      returns (r: Result<(), IoError>)
      requires |data| <= M.MaxMsgSize - 2
      modifies fd
      ensures Submitted(old(fd.log), fd.log, Outgoing(from, to, opcode, data), r)
    {
      var msg := M.Init(from, to);
      msg := msg.(msg := msg.msg[1 := opcode]);
      msg := msg.(len := 2 + |data|);
      msg := msg.(msg := msg.msg[..2] + data + msg.msg[msg.len..]);
      assert msg == Outgoing(from, to, opcode, data);
      var res := fd.Transmit(msg);
      if res.Err? {
        return Err(Os(res.error));
      }
      return Ok(());
    }

    /** `keypress`: press `key`, and release it only if the press was accepted. */
    method Keypress(from: CecLogicalAddress, to: CecLogicalAddress, key: CecUserControlCode) returns (r: Result<(), IoError>)
      modifies fd
      ensures PressedAndReleased(old(fd.log), fd.log, from, to, key, r)
    {
      var pressed := TransmitData(from, to, Op.UserControlPressed, [key]);
      if pressed.Err? {
        return pressed;
      }
      ghost var mid := fd.log;
      r := Transmit(from, to, Op.UserControlReleased);
      assert fd.log[..|mid|] == mid;
    }

    /** `turn_on`: a TV is woken with `ImageViewOn`, any other device with a Power key press. */
    method TurnOn(from: CecLogicalAddress, to: CecLogicalAddress) returns (r: Result<(), IoError>)
      modifies fd
      ensures to == Addr.Tv ==> Submitted(old(fd.log), fd.log, Outgoing(from, to, Op.ImageViewOn, []), r)
      ensures to != Addr.Tv ==> PressedAndReleased(old(fd.log), fd.log, from, to, Ucc.Power, r)
    {
      if to == Addr.Tv {
        r := Transmit(from, to, Op.ImageViewOn);
      } else {
        r := Keypress(from, to, Ucc.Power);
      }
    }

    /** `rec`: hand the driver a buffer addressed broadcast to broadcast and return what it filled in. */
    method Rec() returns (r: Result<M.CecMsg, IoError>)
      modifies fd
      ensures |fd.log| == |old(fd.log)| + 1 && fd.log[..|old(fd.log)|] == old(fd.log)
      ensures fd.log[|old(fd.log)|].Receive?
      ensures var c := fd.log[|old(fd.log)|];
        c.buffer == M.CecMsg(0, 0, 1, 0, 0, 0, seq(M.MaxMsgSize, i => if i == 0 then 0xFF else 0), 0, 0, 0, 0, 0, 0, 0)
        && c.buffer.len == 1 && c.buffer.msg[0] == 0xFF && M.Opcode(c.buffer) == None
        && r == if c.result.Err? then Err(Os(c.result.error)) else Ok(c.result.value)
    {
      var msg := M.Init(Addr.UnregisteredBroadcast, Addr.UnregisteredBroadcast);
      assert msg.msg == seq(M.MaxMsgSize, i => if i == 0 then 0xFF else 0);
      var res := fd.Receive(msg);
      if res.Err? {
        return Err(Os(res.error));
      }
      return Ok(res.value);
    }
  }
}
