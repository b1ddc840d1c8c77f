/**
 * The transmit and receive status bit sets of a message (src/sys.rs:456-474)
 * and the success rule `CecMsg::is_ok` is built on. A status is the raw byte the
 * driver writes; the flag-set view below is an independent reading of the same
 * bits, used to state the success rule as a decision on named flags.
 */
module Status {

  /** `TxStatus`: bits the driver sets when a transmission finishes. */
  type TxStatus = bv8
  const TxOk: TxStatus         := 0x01
  const TxArbLost: TxStatus    := 0x02
  const TxNack: TxStatus       := 0x04
  const TxLowDrive: TxStatus   := 0x08
  const TxError: TxStatus      := 0x10
  const TxMaxRetries: TxStatus := 0x20

  /** `RxStatus`: bits the driver sets when a message (or a reply) is received. */
  type RxStatus = bv8
  const RxOk: RxStatus           := 0x01
  const RxTimeout: RxStatus      := 0x02
  const RxFeatureAbort: RxStatus := 0x04

  /** bitflags' `contains`: every bit of `flag` is set in `bits`. */
  predicate Contains(bits: bv8, flag: bv8) {
    bits & flag == flag
  }

  /** bitflags' `is_empty`: no bit at all is set. */
  predicate IsEmpty(bits: bv8) {
    bits == 0
  }

  /** The named transmit flags. */
  datatype TxFlag = Ok | ArbLost | Nack | LowDrive | Error | MaxRetries

  /** The named receive flags. */
  datatype RxFlag = Ok | Timeout | FeatureAbort

  /** The transmit flags whose bits are set. */
  function TxFlags(bits: TxStatus): (s: set<TxFlag>)
    ensures TxFlag.Ok in s <==> bits & TxOk != 0
    ensures TxFlag.ArbLost in s <==> bits & TxArbLost != 0
    ensures TxFlag.Nack in s <==> bits & TxNack != 0
    ensures TxFlag.LowDrive in s <==> bits & TxLowDrive != 0
    ensures TxFlag.Error in s <==> bits & TxError != 0
    ensures TxFlag.MaxRetries in s <==> bits & TxMaxRetries != 0
  {
    (if bits & TxOk != 0 then {TxFlag.Ok} else {})
    + (if bits & TxArbLost != 0 then {TxFlag.ArbLost} else {})
    + (if bits & TxNack != 0 then {TxFlag.Nack} else {})
    + (if bits & TxLowDrive != 0 then {TxFlag.LowDrive} else {})
    + (if bits & TxError != 0 then {TxFlag.Error} else {})
    + (if bits & TxMaxRetries != 0 then {TxFlag.MaxRetries} else {})
  }

  /** The receive flags whose bits are set. */
  function RxFlags(bits: RxStatus): (s: set<RxFlag>)
    ensures RxFlag.Ok in s <==> bits & RxOk != 0
    ensures RxFlag.Timeout in s <==> bits & RxTimeout != 0
    ensures RxFlag.FeatureAbort in s <==> bits & RxFeatureAbort != 0
  {
    (if bits & RxOk != 0 then {RxFlag.Ok} else {})
    + (if bits & RxTimeout != 0 then {RxFlag.Timeout} else {})
    + (if bits & RxFeatureAbort != 0 then {RxFlag.FeatureAbort} else {})
  }

  /**
   * The success rule stated on flags: something was resolved (a transmission or a
   * reception), whatever was transmitted was acknowledged, whatever was received
   * was received well, and the peer did not answer with a feature abort.
   */
  predicate Successful(tx: set<TxFlag>, rx: set<RxFlag>) {
    && (tx != {} || rx != {})
    && (tx != {} ==> TxFlag.Ok in tx)
    && (rx != {} ==> RxFlag.Ok in rx)
    && RxFlag.FeatureAbort !in rx
  }

  /** With only defined bits, a transmit status reads as no flag exactly when it is empty. */
  lemma TxFlagsEmpty(bits: TxStatus)
    requires bits < 0x40
    ensures TxFlags(bits) == {} <==> IsEmpty(bits)
  {
    if bits != 0 {
      if bits & TxOk != 0 { assert TxFlag.Ok in TxFlags(bits); }
      else if bits & TxArbLost != 0 { assert TxFlag.ArbLost in TxFlags(bits); }
      else if bits & TxNack != 0 { assert TxFlag.Nack in TxFlags(bits); }
      else if bits & TxLowDrive != 0 { assert TxFlag.LowDrive in TxFlags(bits); }
      else if bits & TxError != 0 { assert TxFlag.Error in TxFlags(bits); }
      else { assert TxFlag.MaxRetries in TxFlags(bits); }
    }
  }

  /** With only defined bits, a receive status reads as no flag exactly when it is empty. */
  lemma RxFlagsEmpty(bits: RxStatus)
    requires bits < 0x08
    ensures RxFlags(bits) == {} <==> IsEmpty(bits)
  {
    if bits != 0 {
      if bits & RxOk != 0 { assert RxFlag.Ok in RxFlags(bits); }
      else if bits & RxTimeout != 0 { assert RxFlag.Timeout in RxFlags(bits); }
      else { assert RxFlag.FeatureAbort in RxFlags(bits); }
    }
  }
}
