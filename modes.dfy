/**
 * `CecModeInitiator` (src/sys.rs:251-261): how a file handle may transmit. The
 * values live in the low nibble of the mode word, selected by `Mask`.
 */
module CecModeInitiator {
  import opened Common

  /** The words that name a variant. */
  predicate IsVariant(w: bv32) {
    w <= 2
  }

  /** A `#[repr(u32)]` enum value: a word that names one of the variants. */
  type CecModeInitiator = w: bv32 | IsVariant(w) witness 1

  const None: CecModeInitiator      := 0
  const Send: CecModeInitiator      := 1
  const Exclusive: CecModeInitiator := 2

  /** `CEC_MODE_INITIATOR_MSK`. */
  const Mask: bv32 := 0x0F

  /** `CecModeInitiator::try_from(u32)`: the variant named by `w`, or an error that keeps `w`. */
  function TryFrom(w: bv32): (r: Result<CecModeInitiator, TryFromPrimitiveError<bv32>>)
    ensures r.Ok? <==> IsVariant(w)
    ensures r.Ok? ==> r.value == w
    ensures r.Err? ==> r.error == TryFromPrimitiveError(w)
  {
    if IsVariant(w) then Ok(w) else Err(TryFromPrimitiveError(w))
  }

  /** Every initiator mode lies inside the initiator mask. */
  lemma WithinMask(i: CecModeInitiator)
    ensures i & Mask == i
    ensures i & 0xF0 == 0
  {
    assert IsVariant(i);
  }
}

/**
 * `CecModeFollower` (src/sys.rs:263-296): which messages a file handle receives.
 * The values live in the high nibble of the low byte, selected by `Mask`.
 */
module CecModeFollower {
  import opened Common

  /** The words that name a variant. */
  predicate IsVariant(w: bv32) {
    w in {0x00, 0x10, 0x20, 0x30, 0xE0, 0xF0}
  }

  /** A `#[repr(u32)]` enum value: a word that names one of the variants. */
  type CecModeFollower = w: bv32 | IsVariant(w) witness 0x00

  const RepliesOnly: CecModeFollower       := 0x0 << 4
  const All: CecModeFollower               := 0x1 << 4
  const Exclusive: CecModeFollower         := 0x2 << 4
  const ExclusivePassthru: CecModeFollower := 0x3 << 4
  const Monitor: CecModeFollower           := 0xE << 4
  const MonitorAll: CecModeFollower        := 0xF << 4

  /** `CEC_MODE_FOLLOWER_MSK`. */
  const Mask: bv32 := 0xF0

  /** `CecModeFollower::try_from(u32)`: the variant named by `w`, or an error that keeps `w`. */
  function TryFrom(w: bv32): (r: Result<CecModeFollower, TryFromPrimitiveError<bv32>>)
    ensures r.Ok? <==> IsVariant(w)
    ensures r.Ok? ==> r.value == w
    ensures r.Err? ==> r.error == TryFromPrimitiveError(w)
  {
    if IsVariant(w) then Ok(w) else Err(TryFromPrimitiveError(w))
  }

  /** Every follower mode lies inside the follower mask. */
  lemma WithinMask(f: CecModeFollower)
    ensures f & Mask == f
    ensures f & 0x0F == 0
  {
    assert IsVariant(f);
  }
}
