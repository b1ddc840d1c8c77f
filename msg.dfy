/**
 * `CecMsg` (src/sys.rs:314-436): the fixed 16-byte message structure handed to the
 * driver, and its accessors. Byte 0 packs the initiator (high nibble) and the
 * destination (low nibble); byte 1, present when `len > 1`, is the opcode; bytes
 * 2 to `len` are the parameters.
 */
module CecMsg {
  import opened Common
  import opened Status
  import Addr = CecLogicalAddress
  import Op = CecOpcode

  type CecLogicalAddress = Addr.CecLogicalAddress
  type CecOpcode = Op.CecOpcode

  /** `CEC_MAX_MSG_SIZE`. */
  const MaxMsgSize := 16

  /** The message payload `[u8; CEC_MAX_MSG_SIZE]`. */
  type Payload = s: seq<bv8> | |s| == MaxMsgSize witness seq(MaxMsgSize, _ => 0)

  /** The `struct cec_msg` fields, in the order of the C layout. */
  datatype CecMsg = CecMsg(
    txTs: U64,
    rxTs: U64,
    len: U32,
    timeout: U32,
    sequence: U32,
    flags: U32,
    msg: Payload,
    reply: bv8,
    rxStatus: RxStatus,
    txStatus: TxStatus,
    txArbLostCnt: bv8,
    txNackCnt: bv8,
    txLowDriveCnt: bv8,
    txErrorCnt: bv8)

  /** Every 4-bit value names a logical address. */
  lemma NibbleIsAddress(n: bv8)
    requires n < 16
    ensures Addr.TryFrom(n) == Result.Ok(n)
  {
  }

  /** `CecMsg::initiator`: the high nibble of byte 0; the conversion cannot fail. */
  function Initiator(m: CecMsg): (a: CecLogicalAddress)
    ensures a == m.msg[0] >> 4
  {
    var r := Addr.TryFrom(m.msg[0] >> 4);
    NibbleIsAddress(m.msg[0] >> 4);
    r.value
  }

  /** `CecMsg::destination`: the low nibble of byte 0; the conversion cannot fail. */
  function Destination(m: CecMsg): (a: CecLogicalAddress)
    ensures a == m.msg[0] & 0xF
  {
    var r := Addr.TryFrom(m.msg[0] & 0xF);
    NibbleIsAddress(m.msg[0] & 0xF);
    r.value
  }

  /**
   * `CecMsg::opcode`: no opcode for a one-byte poll message; otherwise byte 1
   * decoded, where a byte outside the opcode table is an error value that still
   * carries the byte.
   */
  function Opcode(m: CecMsg): (r: Option<Result<CecOpcode, TryFromPrimitiveError<bv8>>>)
    ensures r.None? <==> m.len <= 1
    ensures r.Some? ==> (r.value.Ok? <==> Op.IsVariant(m.msg[1]))
    ensures r.Some? && r.value.Ok? ==> r.value.value == m.msg[1]
    ensures r.Some? && r.value.Err? ==> r.value.error.number == m.msg[1]
  {
    if m.len > 1 then Some(Op.TryFrom(m.msg[1])) else None
  }

  /** Byte 0x5C names no opcode: such a message still decodes, to an error value carrying the byte. */
  lemma UnknownOpcodeKeepsByte(m: CecMsg)
    requires m.len > 1 && m.msg[1] == 0x5C
    ensures Opcode(m) == Some(Err(TryFromPrimitiveError(0x5C)))
  {
  }

  /**
   * `CecMsg::parameters`: the bytes after the opcode, up to `len`. The slice panics
   * when `len` exceeds the buffer, so the driver's `len <= 16` is required.
   */
  function Parameters(m: CecMsg): (p: seq<bv8>)
    requires m.len <= MaxMsgSize
    ensures |p| == if m.len > 2 then m.len - 2 else 0
    ensures forall i :: 0 <= i < |p| ==> p[i] == m.msg[i + 2]
  {
    if m.len > 2 then m.msg[2..m.len] else []
  }

  /** `CecMsg::is_broadcast`: the low nibble of byte 0 is 0xF. */
  function IsBroadcast(m: CecMsg): (b: bool)
    ensures b <==> Destination(m) == Addr.UnregisteredBroadcast
  {
    m.msg[0] & 0xF == 0xF
  }

  /**
   * `CecMsg::is_ok`, in the source's order: a transmit status without OK fails, a
   * receive status without OK fails, no status at all fails, and otherwise a
   * feature abort in the receive status fails even when RX OK is set.
   */
  function IsOk(m: CecMsg): (ok: bool)
    ensures ok ==> Contains(m.txStatus, TxOk) || Contains(m.rxStatus, RxOk)
    ensures Contains(m.rxStatus, RxFeatureAbort) ==> !ok
  {
    if !IsEmpty(m.txStatus) && !Contains(m.txStatus, TxOk) then false
    else if !IsEmpty(m.rxStatus) && !Contains(m.rxStatus, RxOk) then false
    else if IsEmpty(m.rxStatus) && IsEmpty(m.txStatus) then false
    else !Contains(m.rxStatus, RxFeatureAbort)
  }

  /**
   * For every combination of the six transmit and three receive flags, `is_ok`
   * agrees with the success rule stated on named flags.
   */
  lemma IsOkIsSuccessful(m: CecMsg)
    requires m.txStatus < 0x40 && m.rxStatus < 0x08
    ensures IsOk(m) == Successful(TxFlags(m.txStatus), RxFlags(m.rxStatus))
  {
    TxFlagsEmpty(m.txStatus);
    RxFlagsEmpty(m.rxStatus);
  }

  /** The address byte that `init` writes: the initiator in the high nibble, the destination in the low. */
  function AddressByte(from: CecLogicalAddress, to: CecLogicalAddress): (b: bv8)
    ensures b >> 4 == from && b & 0xF == to
  {
    assert Addr.IsVariant(from) && Addr.IsVariant(to);
    NibblesUnpack(from, to);
    (from << 4) | to
  }

  /** Byte 0 is always the address byte of its own initiator and destination. */
  lemma AddressByteRoundTrip(m: CecMsg)
    ensures AddressByte(Initiator(m), Destination(m)) == m.msg[0]
  {
  }

  /** Packing two addresses and reading them back gives the same two addresses. */
  lemma AddressByteDecodes(from: CecLogicalAddress, to: CecLogicalAddress, m: CecMsg)
    requires m.msg[0] == AddressByte(from, to)
    ensures Initiator(m) == from && Destination(m) == to
  {
    assert Addr.IsVariant(from) && Addr.IsVariant(to);
    NibblesUnpack(from, to);
  }

  /** Two nibbles packed into one byte come back out of its high and low halves. */
  lemma NibblesUnpack(f: bv8, t: bv8)
    requires f < 16 && t < 16
    ensures ((f << 4) | t) >> 4 == f && ((f << 4) | t) & 0xF == t
  {
  }

  /**
   * `CecMsg::init`: a one-byte message from `from` to `to`; every other field is
   * zero, so it carries no opcode, no parameters and no status.
   */
  method Init(from: CecLogicalAddress, to: CecLogicalAddress) returns (m: CecMsg)
    ensures m.len == 1 && m.timeout == 0 && m.sequence == 0 && m.flags == 0 && m.reply == 0
    ensures m.txTs == 0 && m.rxTs == 0
    ensures IsEmpty(m.txStatus) && IsEmpty(m.rxStatus)
    ensures m.txArbLostCnt == 0 && m.txNackCnt == 0 && m.txLowDriveCnt == 0 && m.txErrorCnt == 0
    ensures m.msg[0] == AddressByte(from, to)
    ensures forall i :: 1 <= i < MaxMsgSize ==> m.msg[i] == 0
    ensures Initiator(m) == from && Destination(m) == to
    ensures Opcode(m) == None && Parameters(m) == []
    ensures IsBroadcast(m) <==> to == Addr.UnregisteredBroadcast
    ensures !IsOk(m)
  {
    m := CecMsg(0, 0, 1, 0, 0, 0, seq(MaxMsgSize, _ => 0), 0, 0, 0, 0, 0, 0, 0);
    var f: bv8 := from;
    var t: bv8 := to;
    m := m.(msg := m.msg[0 := (f << 4) | t]);
    AddressByteDecodes(from, to, m);
  }
}
