# cec_linux message layer in Dafny

This project models the part of the `cec_linux` crate that turns HDMI-CEC
traffic into values and back. It covers:

- the byte registries. These are the logical addresses, the opcodes, the user
  control codes and the other `#[repr(u8)]` operand enums, each with its
  `try_from`.
- the 16-byte `CecMsg` structure and its accessors: `init`, `initiator`,
  `destination`, `opcode`, `parameters`, `is_broadcast` and `is_ok`.
- the transmit and receive status bit sets.
- the claimed-address bit mask `CecLogAddrMask` and its device-class tests.
- the initiator and follower mode enums and their masks.
- the kernel event record.
- the fixed-width on-screen-display name `OSDStr<MAX>`.
- the `CecDevice` operations: `set_mode`, `get_mode`, `get_event`, `transmit`,
  `transmit_data`, `keypress`, `turn_on` and `rec`.

How the model is laid out:

- Bytes are `bv8` and mode words are `bv32`, because the source works on them
  with shifts, masks and bitwise or.
- Each `#[repr(u8)]` enum is a subset type of `bv8`, inhabited by the bytes that
  name a variant, so `u8::from` is the identity on it.
- `CecMsg` is a value. Each device operation builds it step by step on a local
  variable, in the order the source writes the fields.
- The kernel is reached through the `Ioctl.Driver` class. Its answer to every
  `ioctl` may be anything. Its ghost `log` keeps, in order, what the library
  handed over and what came back. The device methods are specified against
  that log.

Files:

- `common.dfy`: option, result, `TryFromPrimitiveError`, the `u32` and `u64` ranges.
- `registry.dfy`: one module per byte enum.
- `status.dfy`: `TxStatus`, `RxStatus`, and a flag-set reading of them.
- `msg.dfy`: `CecMsg`.
- `logaddr.dfy`: `CecLogAddrMask`.
- `modes.dfy`: `CecModeInitiator`, `CecModeFollower`.
- `events.dfy`: the event record of src/sys.rs.
- `osd.dfy`: `OSDStr`.
- `transport.dfy`: the `ioctl` calls.
- `device.dfy`: `CecDevice`.

## Model

| member | source | states |
|---|---|---|
| CecLogicalAddress.TryFrom | src/sys.rs:494-512 | decoding succeeds exactly for the 16 address values, yields the byte itself, and an error keeps the byte |
| CecOpcode.TryFrom | src/sys.rs:629-941 | succeeds exactly for the 75 opcode bytes of the table, yields the byte, and an error keeps the byte |
| CecUserControlCode.TryFrom | src/sys.rs:945-1042 | succeeds exactly for the 85 user control codes, yields the byte, and an error keeps the byte |
| CecAbortReason.TryFrom | src/sys.rs:1046-1057 | succeeds exactly for the 6 abort reasons, and an error keeps the byte |
| DeckControlMode.TryFrom | src/sys.rs:1061-1066 | succeeds exactly for the 4 deck control modes, and an error keeps the byte |
| DeckInfo.TryFrom | src/sys.rs:1070-1086 | succeeds exactly for the 15 deck info values, and an error keeps the byte |
| DisplayControl.TryFrom | src/sys.rs:1090-1094 | succeeds exactly for the 3 display control values, and an error keeps the byte |
| MenuRequestType.TryFrom | src/sys.rs:1098-1102 | succeeds exactly for the 3 menu request types, and an error keeps the byte |
| PlayMode.TryFrom | src/sys.rs:1106-1122 | succeeds exactly for the 15 play modes, and an error keeps the byte |
| StatusRequest.TryFrom | src/sys.rs:1126-1130 | succeeds exactly for the 3 status requests, and an error keeps the byte |
| CecPowerStatus.TryFrom | src/sys.rs:1194-1199 | succeeds exactly for the 4 power states, and an error keeps the byte |
| Version.TryFrom | src/sys.rs:161-165 | succeeds exactly for the 3 CEC versions, and an error keeps the byte |
| CecPrimDevType.TryFrom | src/sys.rs:170-178 | succeeds exactly for the 7 primary device types, and an error keeps the byte |
| CecLogAddrType.TryFrom | src/sys.rs:182-190 | succeeds exactly for the 7 logical address types, and an error keeps the byte |
| Status.TxFlags | src/sys.rs:456-466 | each of the six transmit flags (OK, ARB_LOST, NACK, LOW_DRIVE, ERROR, MAX_RETRIES) is read exactly when its bit is set |
| Status.RxFlags | src/sys.rs:467-474 | each of the three receive flags (OK, TIMEOUT, FEATURE_ABORT) is read exactly when its bit is set |
| Status.TxFlagsEmpty | src/sys.rs:456-466 | with only defined bits set, a transmit status has no flag exactly when `is_empty` holds |
| Status.RxFlagsEmpty | src/sys.rs:467-474 | with only defined bits set, a receive status has no flag exactly when `is_empty` holds |
| CecMsg.NibbleIsAddress | src/sys.rs:372-378 | every 4-bit value decodes to the address of that value, so `unwrap` never panics |
| CecMsg.Initiator | src/sys.rs:372-374 | the initiator is the high nibble of byte 0 |
| CecMsg.Destination | src/sys.rs:376-378 | the destination is the low nibble of byte 0 |
| CecMsg.Opcode | src/sys.rs:380-386 | no opcode exactly when `len <= 1`; otherwise byte 1 decoded, an unknown byte giving an error value that keeps it |
| CecMsg.UnknownOpcodeKeepsByte | src/sys.rs:380-386 | a message whose byte 1 is 0x5C still decodes, to the error value carrying 0x5C |
| CecMsg.Parameters | src/sys.rs:387-393 | length `len - 2` when `len > 2` and 0 otherwise; parameter i is byte i + 2, so bytes 0 and 1 are never included |
| CecMsg.IsBroadcast | src/sys.rs:395-397 | holds exactly when the destination is UnregisteredBroadcast (0xF) |
| CecMsg.IsOk | src/sys.rs:398-413 | success needs TX OK or RX OK, and a FEATURE_ABORT in the receive status always means failure |
| CecMsg.IsOkIsSuccessful | src/sys.rs:398-413 | for defined bits, `is_ok` equals the flag rule: some status set, a non-empty status holds OK, and no feature abort |
| CecMsg.AddressByte | src/sys.rs:431-433 | the address byte `init` writes carries the initiator in its high nibble and the destination in its low nibble |
| CecMsg.AddressByteRoundTrip | src/sys.rs:372-378 | byte 0 is the address byte packed from its own initiator and destination |
| CecMsg.AddressByteDecodes | src/sys.rs:431-434 | the byte that `init` writes, `from` shifted into the high nibble and `to` in the low, reads back as initiator `from` and destination `to` |
| CecMsg.NibblesUnpack | src/sys.rs:431-434 | two nibbles packed into a byte come back from its high and low halves |
| CecMsg.Init | src/sys.rs:414-435 | a one-byte message: all counters, statuses and other fields zero, byte 0 the address byte; it decodes to `from` and `to`, has no opcode or parameters, is a broadcast exactly when `to` is 0xF, and is not ok |
| CecLogAddrMask.FlagsAreAddressBits | src/sys.rs:514-538 | each named mask flag is bit n of the logical address numbered n |
| CecLogAddrMask.IsPlayback | src/sys.rs:541-544 | `is_playback`: the mask intersects the Playback1, Playback2 or Playback3 flag |
| CecLogAddrMask.IsRecord | src/sys.rs:545-548 | `is_record`: the mask intersects the Record1, Record2 or Record3 flag |
| CecLogAddrMask.IsTuner | src/sys.rs:549-552 | `is_tuner`: the mask intersects the Tuner1, Tuner2, Tuner3 or Tuner4 flag |
| CecLogAddrMask.IsBackup | src/sys.rs:553-556 | `is_backup`: the mask intersects the Backup1 or Backup2 flag |
| CecLogAddrMask.IsPlaybackClaimsPlayback | src/sys.rs:541-544 | `is_playback` holds exactly when one of the playback addresses 4, 8 and 11 is claimed |
| CecLogAddrMask.IsRecordClaimsRecord | src/sys.rs:545-548 | `is_record` holds exactly when one of the recording addresses 1, 2 and 9 is claimed |
| CecLogAddrMask.IsTunerClaimsTuner | src/sys.rs:549-552 | `is_tuner` holds exactly when one of the tuner addresses 3, 6, 7 and 10 is claimed |
| CecLogAddrMask.IsBackupClaimsBackup | src/sys.rs:553-556 | `is_backup` holds exactly when one of the backup addresses 12 and 13 is claimed |
| CecModeInitiator.TryFrom | src/sys.rs:251-260 | succeeds exactly for 0, 1 and 2, and an error keeps the word |
| CecModeInitiator.WithinMask | src/sys.rs:251-261 | every initiator mode lies within `CEC_MODE_INITIATOR_MSK` and clear of the follower nibble |
| CecModeFollower.TryFrom | src/sys.rs:263-295 | succeeds exactly for 0x00, 0x10, 0x20, 0x30, 0xE0 and 0xF0, and an error keeps the word |
| CecModeFollower.WithinMask | src/sys.rs:263-296 | every follower mode lies within `CEC_MODE_FOLLOWER_MSK` and clear of the initiator nibble |
| Osd.FromSliceAsWritten | src/sys.rs:1223-1230 | as written: panics exactly when the input is longer than MAX; otherwise MAX bytes holding the input followed by zeros |
| Osd.SixteenBytesIntoFifteenPanics | src/sys.rs:1223-1230 | a 16-byte input to `OSDStr<15>` panics |
| Osd.FromSlice | src/sys.rs:1223-1230 | corrected: MAX bytes, byte i being input byte i where there is one and 0 elsewhere, so the input is cut to MAX |
| Osd.PaddedTo | src/sys.rs:1236-1239 | `Vec::resize(MAX, 0)`: exactly MAX bytes, the string's bytes first, zeros after |
| Osd.TryFromString | src/sys.rs:1233-1244 | an error exactly for non-ASCII strings; otherwise the string's bytes cut or zero-padded to exactly MAX |
| Osd.UntilNul | src/sys.rs:1247-1257 | the longest prefix without a zero byte, stopped by a zero byte unless it is the whole buffer |
| Osd.AsRef | src/sys.rs:1247-1257 | for ASCII contents, the prefix of the buffer that stops at the first zero byte (or is the whole buffer): ASCII, with no zero byte |
| Osd.Default | src/sys.rs:1281-1285 | `OSDStr::default()`: exactly MAX bytes, all zero |
| Osd.DefaultIsEmpty | src/sys.rs:1281-1285 | the default name reads as the empty string |
| Osd.AsRefOfTryFrom | src/sys.rs:1233-1257 | an ASCII name without zero bytes, stored with `try_from`, reads back as the name cut to MAX bytes |
| Events.Default | src/sys.rs:609-618 | tag LostMsgs, no flags, zero timestamp, both payload arms zero |
| Ioctl.Driver.Transmit | src/sys.rs:299-305 | `CEC_TRANSMIT` logs the message handed over and the kernel's answer |
| Ioctl.Driver.Receive | src/sys.rs:306-311 | `CEC_RECEIVE` logs the buffer handed over and the kernel's answer |
| Ioctl.Driver.SetMode | src/sys.rs:237-247 | `CEC_S_MODE` logs the mode word and the kernel's answer |
| Ioctl.Driver.GetMode | src/sys.rs:231-234 | `CEC_G_MODE` logs the kernel's answer |
| Ioctl.Driver.DequeueEvent | src/sys.rs:620-625 | `CEC_DQEVENT` logs the event buffer and the kernel's answer |
| CecDevice.ModeWord | src/lib.rs:96-100 | the word carries the initiator under the initiator mask, the follower under the follower mask, and nothing above the low byte |
| CecDevice.ModeFromWord | src/lib.rs:101-110 | succeeds exactly when both masked fields name a variant, yielding those fields; otherwise `ErrorKind::Other` |
| CecDevice.ModeRoundTrip | src/lib.rs:96-110 | `get_mode` on the word `set_mode` sends yields the same pair |
| CecDevice.ModeWordOfDecoded | src/lib.rs:96-110 | a word `get_mode` accepts equals, in its low byte, the word `set_mode` sends for the decoded pair |
| CecDevice.InitiatorNibbleThreeRejected | src/lib.rs:104-109 | initiator nibble 3, with any follower, makes `get_mode` fail with `Other` |
| CecDevice.EventFromSys | src/lib.rs:174-186 | the result is a lost-messages event exactly when the tag is LostMsgs, and carries the payload arm the tag selects |
| CecDevice.EventRoundTrip | src/lib.rs:174-186 | every library event is recovered from a kernel record that carries it |
| CecDevice.EventFromSysIgnoresOtherArm | src/lib.rs:174-186 | only the tag and the selected arm decide the event; re-encoding keeps the tag |
| CecDevice.OutgoingDecodes | src/lib.rs:206-233 | a message built by `transmit`/`transmit_data` decodes to its `from`, `to`, `Some(Ok(op))` and exactly the given data as parameters |
| CecDevice.StandbyExample | src/lib.rs:10-16 | Playback 2 sending Standby to the audio system gives the bytes 0x85 0x36 with `len = 2` |
| CecDevice.CecDevice.SetMode | src/lib.rs:96-100 | exactly one `CEC_S_MODE` of the bitwise or of initiator and follower; its errno is passed on |
| CecDevice.CecDevice.GetMode | src/lib.rs:101-110 | exactly one `CEC_G_MODE`; an errno is passed on, otherwise the word is decoded by both masks |
| CecDevice.CecDevice.GetEvent | src/lib.rs:174-186 | exactly one `CEC_DQEVENT` into a default event; an errno is passed on, otherwise the event with the arm its tag selects |
| CecDevice.CecDevice.Transmit | src/lib.rs:206-217 | exactly one `CEC_TRANSMIT` of the two-byte message: the address byte of `from` and `to`, then `op`; its errno is passed on |
| CecDevice.CecDevice.TransmitData | src/lib.rs:220-233 | exactly one `CEC_TRANSMIT` of the message with `len = 2 + data.len()` and `msg[2..len] == data`; its errno is passed on |
| CecDevice.CecDevice.Keypress | src/lib.rs:196-204 | UserControlPressed with parameter `[key]`, then UserControlReleased with none, the second sent only if the first succeeded; the first failing errno is passed on |
| CecDevice.CecDevice.TurnOn | src/lib.rs:188-194 | to the TV: one ImageViewOn with no parameters; to any other device: a Power key press |
| CecDevice.CecDevice.Rec | src/lib.rs:235-242 | one `CEC_RECEIVE` of exactly `init(UnregisteredBroadcast, UnregisteredBroadcast)`: `len = 1`, `msg[0] = 0xFF`, every other byte and field zero (so `timeout = 0`, wait forever); the filled message or the errno is passed on |

## Left out

- `CecDevice::open` and `poll` are file I/O and readiness polling.
- `get_capas`, `set_phys`, `get_phys`, `set_log` and `get_log` only forward a structure to the kernel and back. `CecCaps`, `CecLogAddrs` and their flag sets are not part of this model.
- Every other `ioctl` effect is left to the kernel: blocking, queue limits, EBUSY, ENOTTY, EAGAIN, ETIMEDOUT. The kernel's answers are unconstrained.
- The logical-address claim procedure belongs to the kernel.
- The reply/timeout request protocol: the `reply` and `timeout` fields are only documented, and no code here sets them or matches replies.
- src/tokio.rs (async wrappers) and the example programs are not part of this model.
- Timestamps and the `tx_*` error counters are carried but not interpreted.
- The commented-out tables and `Volume` are not part of this model.
- The layout of the event union: both arms are kept side by side, and the tag chooses the arm. The unchecked union reads are not modelled.
- The `Err(Other)` at the end of `get_event` cannot be reached, because both tags return earlier. The model has no such path.
- Status bits outside the named flags are not part of the flag-set reading.
- Osd.AsRef: modelled for ASCII contents only, because UTF-8 validation of other bytes belongs to the standard library.
- CecMsg.IsOkIsSuccessful: stated only for status bytes with no undefined bit, because an undefined bit makes `is_empty` false without naming any flag.
- CecMsg.Parameters: requires `len <= 16`, because a longer `len` makes the slice panic.
- CecDevice.CecDevice.TransmitData: requires at most 14 data bytes, because more makes the slice past the 16-byte buffer panic.
- The `Display` and `Debug` output of `OSDStr` is not part of this model.

## Findings

| source | as written | input that shows it | evidently intended | confidence | as-written member | corrected member |
|---|---|---|---|---|---|---|
| src/sys.rs:1223-1230 | `OSDStr::from(&[u8])` computes `len = MAX.min(value.len())` and then runs `osd.0[..len].clone_from_slice(value)`, which panics when `value` is longer than MAX | 16 bytes given to `OSDStr<15>` | truncate the input to MAX bytes, as the `min` shows | medium, not executed | Osd.FromSliceAsWritten, Osd.SixteenBytesIntoFifteenPanics | Osd.FromSlice |
