/** `CecLogicalAddress` (src/sys.rs:494-512): the logical address of a device on the bus; every 4-bit value is one. */
module CecLogicalAddress {
  import opened Common

  /** The bytes that name a variant. */
  predicate IsVariant(b: bv8) {
    b <= 0x0F
  }

  /** A `#[repr(u8)]` enum value: a byte that names one of the variants. */
  type CecLogicalAddress = b: bv8 | IsVariant(b) witness 0x00

  const Tv                   : CecLogicalAddress := 0x00
  const Record1              : CecLogicalAddress := 0x01
  const Record2              : CecLogicalAddress := 0x02
  const Tuner1               : CecLogicalAddress := 0x03
  const Playback1            : CecLogicalAddress := 0x04
  const Audiosystem          : CecLogicalAddress := 0x05
  const Tuner2               : CecLogicalAddress := 0x06
  const Tuner3               : CecLogicalAddress := 0x07
  const Playback2            : CecLogicalAddress := 0x08
  const Record3              : CecLogicalAddress := 0x09
  const Tuner4               : CecLogicalAddress := 0x0A
  const Playback3            : CecLogicalAddress := 0x0B
  const Backup1              : CecLogicalAddress := 0x0C
  const Backup2              : CecLogicalAddress := 0x0D
  const Specific             : CecLogicalAddress := 0x0E
  const UnregisteredBroadcast: CecLogicalAddress := 0x0F

  /** `CecLogicalAddress::try_from(u8)`: the variant named by `b`, or an error that keeps `b`. */
  function TryFrom(b: bv8): (r: Result<CecLogicalAddress, TryFromPrimitiveError<bv8>>)
    ensures r.Ok? <==> IsVariant(b)
    ensures r.Ok? ==> r.value == b
    ensures r.Err? ==> r.error == TryFromPrimitiveError(b)
  {
    if IsVariant(b) then Ok(b) else Err(TryFromPrimitiveError(b))
  }
}

/** `CecOpcode` (src/sys.rs:629-941): the opcode byte of a message. */
module CecOpcode {
  import opened Common

  /** The bytes that name a variant. */
  predicate IsVariant(b: bv8) {
    b in {
      0x00, 0x04, 0x05, 0x06, 0x07, 0x08, 0x09, 0x0A, 0x0B, 0x0D, 0x0F, 0x1A,
      0x1B, 0x32, 0x33, 0x34, 0x35, 0x36, 0x41, 0x42, 0x43, 0x44, 0x45, 0x46,
      0x47, 0x64, 0x67, 0x70, 0x71, 0x72, 0x7A, 0x7D, 0x7E, 0x80, 0x81, 0x82,
      0x83, 0x84, 0x85, 0x86, 0x87, 0x89, 0x8A, 0x8B, 0x8C, 0x8D, 0x8E, 0x8F,
      0x90, 0x91, 0x92, 0x93, 0x97, 0x99, 0x9A, 0x9D, 0x9E, 0x9F, 0xA0, 0xA1,
      0xA2, 0xA3, 0xA4, 0xA5, 0xA6, 0xA7, 0xA8, 0xC0, 0xC1, 0xC2, 0xC3, 0xC4,
      0xC5, 0xF8, 0xFF
    }
  }

  /** A `#[repr(u8)]` enum value: a byte that names one of the variants. */
  type CecOpcode = b: bv8 | IsVariant(b) witness 0x82

  const ActiveSource               : CecOpcode := 0x82
  const ImageViewOn                : CecOpcode := 0x04
  const TextViewOn                 : CecOpcode := 0x0D
  const InactiveSource             : CecOpcode := 0x9D
  const RequestActiveSource        : CecOpcode := 0x85
  const RoutingChange              : CecOpcode := 0x80
  const RoutingInformation         : CecOpcode := 0x81
  const SetStreamPath              : CecOpcode := 0x86
  const Standby                    : CecOpcode := 0x36
  const CecVersion                 : CecOpcode := 0x9E
  const GetCecVersion              : CecOpcode := 0x9F
  const GivePhysicalAddr           : CecOpcode := 0x83
  const GetMenuLanguage            : CecOpcode := 0x91
  const ReportPhysicalAddr         : CecOpcode := 0x84
  const SetMenuLanguage            : CecOpcode := 0x32
  const ReportFeatures             : CecOpcode := 0xA6
  const GiveFeatures               : CecOpcode := 0xA5
  const DeckControl                : CecOpcode := 0x42
  const DeckStatus                 : CecOpcode := 0x1B
  const GiveDeckStatus             : CecOpcode := 0x1A
  const Play                       : CecOpcode := 0x41
  const DeviceVendorId             : CecOpcode := 0x87
  const GiveDeviceVendorId         : CecOpcode := 0x8C
  const VendorCommand              : CecOpcode := 0x89
  const VendorCommandWithId        : CecOpcode := 0xA0
  const VendorRemoteButtonDown     : CecOpcode := 0x8A
  const VendorRemoteButtonUp       : CecOpcode := 0x8B
  const SetOsdString               : CecOpcode := 0x64
  const GiveOsdName                : CecOpcode := 0x46
  const SetOsdName                 : CecOpcode := 0x47
  const MenuRequest                : CecOpcode := 0x8D
  const MenuStatus                 : CecOpcode := 0x8E
  const UserControlPressed         : CecOpcode := 0x44
  const UserControlReleased        : CecOpcode := 0x45
  const GiveDevicePowerStatus      : CecOpcode := 0x8F
  const ReportPowerStatus          : CecOpcode := 0x90
  const FeatureAbort               : CecOpcode := 0x00
  const Abort                      : CecOpcode := 0xFF
  const GiveAudioStatus            : CecOpcode := 0x71
  const GiveSystemAudioModeStatus  : CecOpcode := 0x7D
  const ReportAudioStatus          : CecOpcode := 0x7A
  const ReportShortAudioDescriptor : CecOpcode := 0xA3
  const RequestShortAudioDescriptor: CecOpcode := 0xA4
  const SetSystemAudioMode         : CecOpcode := 0x72
  const SystemAudioModeRequest     : CecOpcode := 0x70
  const SystemAudioModeStatus      : CecOpcode := 0x7E
  const SetAudioRate               : CecOpcode := 0x9A
  const RecordOff                  : CecOpcode := 0x0B
  const RecordOn                   : CecOpcode := 0x09
  const RecordStatus               : CecOpcode := 0x0A
  const RecordTvScreen             : CecOpcode := 0x0F
  const ClearAnalogueTimer         : CecOpcode := 0x33
  const ClearDigitalTimer          : CecOpcode := 0x99
  const ClearExtTimer              : CecOpcode := 0xA1
  const SetAnalogueTimer           : CecOpcode := 0x34
  const SetDigitalTimer            : CecOpcode := 0x97
  const SetExtTimer                : CecOpcode := 0xA2
  const SetTimerProgramTitle       : CecOpcode := 0x67
  const TimerClearedStatus         : CecOpcode := 0x43
  const TimerStatus                : CecOpcode := 0x35
  const GiveTunerDeviceStatus      : CecOpcode := 0x08
  const SelectAnalogueService      : CecOpcode := 0x92
  const SelectDigitalService       : CecOpcode := 0x93
  const TunerDeviceStatus          : CecOpcode := 0x07
  const TunerStepDecrement         : CecOpcode := 0x06
  const TunerStepIncrement         : CecOpcode := 0x05
  const InitiateArc                : CecOpcode := 0xC0
  const ReportArcInitiated         : CecOpcode := 0xC1
  const ReportArcTerminated        : CecOpcode := 0xC2
  const RequestArcInitiation       : CecOpcode := 0xC3
  const RequestArcTermination      : CecOpcode := 0xC4
  const TerminateArc               : CecOpcode := 0xC5
  const RequestCurrentLatency      : CecOpcode := 0xA7
  const ReportCurrentLatency       : CecOpcode := 0xA8
  const CdcMessage                 : CecOpcode := 0xF8

  /** `CecOpcode::try_from(u8)`: the variant named by `b`, or an error that keeps `b`. */
  function TryFrom(b: bv8): (r: Result<CecOpcode, TryFromPrimitiveError<bv8>>)
    ensures r.Ok? <==> IsVariant(b)
    ensures r.Ok? ==> r.value == b
    ensures r.Err? ==> r.error == TryFromPrimitiveError(b)
  {
    if IsVariant(b) then Ok(b) else Err(TryFromPrimitiveError(b))
  }
}

/** `CecUserControlCode` (src/sys.rs:945-1042): the UI command operand of UserControlPressed. */
module CecUserControlCode {
  import opened Common

  /** The bytes that name a variant. */
  predicate IsVariant(b: bv8) {
    b in {
      0x00, 0x01, 0x02, 0x03, 0x04, 0x05, 0x06, 0x07, 0x08, 0x09, 0x0A, 0x0B,
      0x0C, 0x0D, 0x10, 0x11, 0x1D, 0x1E, 0x1F, 0x20, 0x21, 0x22, 0x23, 0x24,
      0x25, 0x26, 0x27, 0x28, 0x29, 0x2A, 0x2B, 0x2C, 0x2F, 0x30, 0x31, 0x32,
      0x33, 0x34, 0x35, 0x36, 0x37, 0x38, 0x40, 0x41, 0x42, 0x43, 0x44, 0x45,
      0x46, 0x47, 0x48, 0x49, 0x4A, 0x4B, 0x4C, 0x4D, 0x4E, 0x50, 0x51, 0x52,
      0x53, 0x54, 0x55, 0x56, 0x57, 0x60, 0x61, 0x62, 0x63, 0x64, 0x65, 0x66,
      0x67, 0x68, 0x69, 0x6A, 0x6B, 0x6C, 0x6D, 0x71, 0x72, 0x73, 0x74, 0x75,
      0x76
    }
  }

  /** A `#[repr(u8)]` enum value: a byte that names one of the variants. */
  type CecUserControlCode = b: bv8 | IsVariant(b) witness 0x00

  const Select                  : CecUserControlCode := 0x00
  const Up                      : CecUserControlCode := 0x01
  const Down                    : CecUserControlCode := 0x02
  const Left                    : CecUserControlCode := 0x03
  const Right                   : CecUserControlCode := 0x04
  const RightUp                 : CecUserControlCode := 0x05
  const RightDown               : CecUserControlCode := 0x06
  const LeftUp                  : CecUserControlCode := 0x07
  const LeftDown                : CecUserControlCode := 0x08
  const RootMenu                : CecUserControlCode := 0x09
  const SetupMenu               : CecUserControlCode := 0x0A
  const ContentsMenu            : CecUserControlCode := 0x0B
  const FavoriteMenu            : CecUserControlCode := 0x0C
  const Exit                    : CecUserControlCode := 0x0D
  const TopMenu                 : CecUserControlCode := 0x10
  const DvdMenu                 : CecUserControlCode := 0x11
  const NumberEntryMode         : CecUserControlCode := 0x1D
  const Number11                : CecUserControlCode := 0x1E
  const Number12                : CecUserControlCode := 0x1F
  const Number0                 : CecUserControlCode := 0x20
  const Number1                 : CecUserControlCode := 0x21
  const Number2                 : CecUserControlCode := 0x22
  const Number3                 : CecUserControlCode := 0x23
  const Number4                 : CecUserControlCode := 0x24
  const Number5                 : CecUserControlCode := 0x25
  const Number6                 : CecUserControlCode := 0x26
  const Number7                 : CecUserControlCode := 0x27
  const Number8                 : CecUserControlCode := 0x28
  const Number9                 : CecUserControlCode := 0x29
  const Dot                     : CecUserControlCode := 0x2A
  const Enter                   : CecUserControlCode := 0x2B
  const Clear                   : CecUserControlCode := 0x2C
  const NextFavorite            : CecUserControlCode := 0x2F
  const ChannelUp               : CecUserControlCode := 0x30
  const ChannelDown             : CecUserControlCode := 0x31
  const PreviousChannel         : CecUserControlCode := 0x32
  const SoundSelect             : CecUserControlCode := 0x33
  const InputSelect             : CecUserControlCode := 0x34
  const DisplayInformation      : CecUserControlCode := 0x35
  const Help                    : CecUserControlCode := 0x36
  const PageUp                  : CecUserControlCode := 0x37
  const PageDown                : CecUserControlCode := 0x38
  const Power                   : CecUserControlCode := 0x40
  const VolumeUp                : CecUserControlCode := 0x41
  const VolumeDown              : CecUserControlCode := 0x42
  const Mute                    : CecUserControlCode := 0x43
  const Play                    : CecUserControlCode := 0x44
  const Stop                    : CecUserControlCode := 0x45
  const Pause                   : CecUserControlCode := 0x46
  const Record                  : CecUserControlCode := 0x47
  const Rewind                  : CecUserControlCode := 0x48
  const FastForward             : CecUserControlCode := 0x49
  const Eject                   : CecUserControlCode := 0x4A
  const Forward                 : CecUserControlCode := 0x4B
  const Backward                : CecUserControlCode := 0x4C
  const StopRecord              : CecUserControlCode := 0x4D
  const PauseRecord             : CecUserControlCode := 0x4E
  const Angle                   : CecUserControlCode := 0x50
  const SubPicture              : CecUserControlCode := 0x51
  const VideoOnDemand           : CecUserControlCode := 0x52
  const ElectronicProgramGuide  : CecUserControlCode := 0x53
  const TimerProgramming        : CecUserControlCode := 0x54
  const InitialConfiguration    : CecUserControlCode := 0x55
  const SelectBroadcastType     : CecUserControlCode := 0x56
  const SelectSoundPresentation : CecUserControlCode := 0x57
  const PlayFunction            : CecUserControlCode := 0x60
  const PausePlayFunction       : CecUserControlCode := 0x61
  const RecordFunction          : CecUserControlCode := 0x62
  const PauseRecordFunction     : CecUserControlCode := 0x63
  const StopFunction            : CecUserControlCode := 0x64
  const MuteFunction            : CecUserControlCode := 0x65
  const RestoreVolumeFunction   : CecUserControlCode := 0x66
  const TuneFunction            : CecUserControlCode := 0x67
  const SelectMediaFunction     : CecUserControlCode := 0x68
  const SelectAvInputFunction   : CecUserControlCode := 0x69
  const SelectAudioInputFunction: CecUserControlCode := 0x6A
  const PowerToggleFunction     : CecUserControlCode := 0x6B
  const PowerOffFunction        : CecUserControlCode := 0x6C
  const PowerOnFunction         : CecUserControlCode := 0x6D
  const F1Blue                  : CecUserControlCode := 0x71
  const F2Red                   : CecUserControlCode := 0x72
  const F3Green                 : CecUserControlCode := 0x73
  const F4Yellow                : CecUserControlCode := 0x74
  const F5                      : CecUserControlCode := 0x75
  const Data                    : CecUserControlCode := 0x76

  /** `CecUserControlCode::try_from(u8)`: the variant named by `b`, or an error that keeps `b`. */
  function TryFrom(b: bv8): (r: Result<CecUserControlCode, TryFromPrimitiveError<bv8>>)
    ensures r.Ok? <==> IsVariant(b)
    ensures r.Ok? ==> r.value == b
    ensures r.Err? ==> r.error == TryFromPrimitiveError(b)
  {
    if IsVariant(b) then Ok(b) else Err(TryFromPrimitiveError(b))
  }
}

/** `CecAbortReason` (src/sys.rs:1046-1057): the reason operand of FeatureAbort. */
module CecAbortReason {
  import opened Common

  /** The bytes that name a variant. */
  predicate IsVariant(b: bv8) {
    b <= 0x05
  }

  /** A `#[repr(u8)]` enum value: a byte that names one of the variants. */
  type CecAbortReason = b: bv8 | IsVariant(b) witness 0x00

  const Unrecognized: CecAbortReason := 0x00
  const WrongMode   : CecAbortReason := 0x01
  const NoSource    : CecAbortReason := 0x02
  const InvalidOp   : CecAbortReason := 0x03
  const Refused     : CecAbortReason := 0x04
  const Other       : CecAbortReason := 0x05

  /** `CecAbortReason::try_from(u8)`: the variant named by `b`, or an error that keeps `b`. */
  function TryFrom(b: bv8): (r: Result<CecAbortReason, TryFromPrimitiveError<bv8>>)
    ensures r.Ok? <==> IsVariant(b)
    ensures r.Ok? ==> r.value == b
    ensures r.Err? ==> r.error == TryFromPrimitiveError(b)
  {
    if IsVariant(b) then Ok(b) else Err(TryFromPrimitiveError(b))
  }
}

/** `DeckControlMode` (src/sys.rs:1061-1066): the operand of DeckControl. */
module DeckControlMode {
  import opened Common

  /** The bytes that name a variant. */
  predicate IsVariant(b: bv8) {
    0x01 <= b <= 0x04
  }

  /** A `#[repr(u8)]` enum value: a byte that names one of the variants. */
  type DeckControlMode = b: bv8 | IsVariant(b) witness 0x01

  const Skip  : DeckControlMode := 0x01
  const Rewind: DeckControlMode := 0x02
  const Stop  : DeckControlMode := 0x03
  const Eject : DeckControlMode := 0x04

  /** `DeckControlMode::try_from(u8)`: the variant named by `b`, or an error that keeps `b`. */
  function TryFrom(b: bv8): (r: Result<DeckControlMode, TryFromPrimitiveError<bv8>>)
    ensures r.Ok? <==> IsVariant(b)
    ensures r.Ok? ==> r.value == b
    ensures r.Err? ==> r.error == TryFromPrimitiveError(b)
  {
    if IsVariant(b) then Ok(b) else Err(TryFromPrimitiveError(b))
  }
}

/** `DeckInfo` (src/sys.rs:1070-1086): the operand of DeckStatus. */
module DeckInfo {
  import opened Common

  /** The bytes that name a variant. */
  predicate IsVariant(b: bv8) {
    0x11 <= b <= 0x1F
  }

  /** A `#[repr(u8)]` enum value: a byte that names one of the variants. */
  type DeckInfo = b: bv8 | IsVariant(b) witness 0x11

  const Play          : DeckInfo := 0x11
  const Record        : DeckInfo := 0x12
  const PlayRev       : DeckInfo := 0x13
  const Still         : DeckInfo := 0x14
  const Slow          : DeckInfo := 0x15
  const SlowRev       : DeckInfo := 0x16
  const FastFwd       : DeckInfo := 0x17
  const FastRev       : DeckInfo := 0x18
  const NoMedia       : DeckInfo := 0x19
  const Stop          : DeckInfo := 0x1A
  const SkipFwd       : DeckInfo := 0x1B
  const SkipRev       : DeckInfo := 0x1C
  const IndexSearchFwd: DeckInfo := 0x1D
  const IndexSearchRev: DeckInfo := 0x1E
  const Other         : DeckInfo := 0x1F

  /** `DeckInfo::try_from(u8)`: the variant named by `b`, or an error that keeps `b`. */
  function TryFrom(b: bv8): (r: Result<DeckInfo, TryFromPrimitiveError<bv8>>)
    ensures r.Ok? <==> IsVariant(b)
    ensures r.Ok? ==> r.value == b
    ensures r.Err? ==> r.error == TryFromPrimitiveError(b)
  {
    if IsVariant(b) then Ok(b) else Err(TryFromPrimitiveError(b))
  }
}

/** `DisplayControl` (src/sys.rs:1090-1094): the operand of SetOsdString. */
module DisplayControl {
  import opened Common

  /** The bytes that name a variant. */
  predicate IsVariant(b: bv8) {
    b in {
      0x00, 0x40, 0x80
    }
  }

  /** A `#[repr(u8)]` enum value: a byte that names one of the variants. */
  type DisplayControl = b: bv8 | IsVariant(b) witness 0x00

  const Default     : DisplayControl := 0x00
  const UntilCleared: DisplayControl := 0x40
  const Clear       : DisplayControl := 0x80

  /** `DisplayControl::try_from(u8)`: the variant named by `b`, or an error that keeps `b`. */
  function TryFrom(b: bv8): (r: Result<DisplayControl, TryFromPrimitiveError<bv8>>)
    ensures r.Ok? <==> IsVariant(b)
    ensures r.Ok? ==> r.value == b
    ensures r.Err? ==> r.error == TryFromPrimitiveError(b)
  {
    if IsVariant(b) then Ok(b) else Err(TryFromPrimitiveError(b))
  }
}

/** `MenuRequestType` (src/sys.rs:1098-1102): the operand of MenuRequest. */
module MenuRequestType {
  import opened Common

  /** The bytes that name a variant. */
  predicate IsVariant(b: bv8) {
    b <= 0x02
  }

  /** A `#[repr(u8)]` enum value: a byte that names one of the variants. */
  type MenuRequestType = b: bv8 | IsVariant(b) witness 0x00

  const Activate  : MenuRequestType := 0x00
  const Deactivate: MenuRequestType := 0x01
  const Query     : MenuRequestType := 0x02

  /** `MenuRequestType::try_from(u8)`: the variant named by `b`, or an error that keeps `b`. */
  function TryFrom(b: bv8): (r: Result<MenuRequestType, TryFromPrimitiveError<bv8>>)
    ensures r.Ok? <==> IsVariant(b)
    ensures r.Ok? ==> r.value == b
    ensures r.Err? ==> r.error == TryFromPrimitiveError(b)
  {
    if IsVariant(b) then Ok(b) else Err(TryFromPrimitiveError(b))
  }
}

/** `PlayMode` (src/sys.rs:1106-1122): the operand of Play. */
module PlayMode {
  import opened Common

  /** The bytes that name a variant. */
  predicate IsVariant(b: bv8) {
    b in {
      0x05, 0x06, 0x07, 0x09, 0x0A, 0x0B, 0x15, 0x16, 0x17, 0x19, 0x1A, 0x1B,
      0x20, 0x24, 0x25
    }
  }

  /** A `#[repr(u8)]` enum value: a byte that names one of the variants. */
  type PlayMode = b: bv8 | IsVariant(b) witness 0x24

  const Fwd       : PlayMode := 0x24
  const Rev       : PlayMode := 0x20
  const Still     : PlayMode := 0x25
  const FastFwdMin: PlayMode := 0x05
  const FastFwdMed: PlayMode := 0x06
  const FastFwdMax: PlayMode := 0x07
  const FastRevMin: PlayMode := 0x09
  const FastRevMed: PlayMode := 0x0A
  const FastRevMax: PlayMode := 0x0B
  const SlowFwdMin: PlayMode := 0x15
  const SlowFwdMed: PlayMode := 0x16
  const SlowFwdMax: PlayMode := 0x17
  const SlowRevMin: PlayMode := 0x19
  const SlowRevMed: PlayMode := 0x1A
  const SlowRevMax: PlayMode := 0x1B

  /** `PlayMode::try_from(u8)`: the variant named by `b`, or an error that keeps `b`. */
  function TryFrom(b: bv8): (r: Result<PlayMode, TryFromPrimitiveError<bv8>>)
    ensures r.Ok? <==> IsVariant(b)
    ensures r.Ok? ==> r.value == b
    ensures r.Err? ==> r.error == TryFromPrimitiveError(b)
  {
    if IsVariant(b) then Ok(b) else Err(TryFromPrimitiveError(b))
  }
}

/** `StatusRequest` (src/sys.rs:1126-1130): the operand of GiveDeckStatus and GiveTunerDeviceStatus. */
module StatusRequest {
  import opened Common

  /** The bytes that name a variant. */
  predicate IsVariant(b: bv8) {
    0x01 <= b <= 0x03
  }

  /** A `#[repr(u8)]` enum value: a byte that names one of the variants. */
  type StatusRequest = b: bv8 | IsVariant(b) witness 0x01

  const On  : StatusRequest := 0x01
  const Off : StatusRequest := 0x02
  const Once: StatusRequest := 0x03

  /** `StatusRequest::try_from(u8)`: the variant named by `b`, or an error that keeps `b`. */
  function TryFrom(b: bv8): (r: Result<StatusRequest, TryFromPrimitiveError<bv8>>)
    ensures r.Ok? <==> IsVariant(b)
    ensures r.Ok? ==> r.value == b
    ensures r.Err? ==> r.error == TryFromPrimitiveError(b)
  {
    if IsVariant(b) then Ok(b) else Err(TryFromPrimitiveError(b))
  }
}

/** `CecPowerStatus` (src/sys.rs:1194-1199): the operand of ReportPowerStatus. */
module CecPowerStatus {
  import opened Common

  /** The bytes that name a variant. */
  predicate IsVariant(b: bv8) {
    b <= 0x03
  }

  /** A `#[repr(u8)]` enum value: a byte that names one of the variants. */
  type CecPowerStatus = b: bv8 | IsVariant(b) witness 0x00

  const On                     : CecPowerStatus := 0x00
  const Standby                : CecPowerStatus := 0x01
  const InTransitionStandbyToOn: CecPowerStatus := 0x02
  const InTransitionOnToStandby: CecPowerStatus := 0x03

  /** `CecPowerStatus::try_from(u8)`: the variant named by `b`, or an error that keeps `b`. */
  function TryFrom(b: bv8): (r: Result<CecPowerStatus, TryFromPrimitiveError<bv8>>)
    ensures r.Ok? <==> IsVariant(b)
    ensures r.Ok? ==> r.value == b
    ensures r.Err? ==> r.error == TryFromPrimitiveError(b)
  {
    if IsVariant(b) then Ok(b) else Err(TryFromPrimitiveError(b))
  }
}

/** `Version` (src/sys.rs:161-165): the operand of CecVersion. */
module Version {
  import opened Common

  /** The bytes that name a variant. */
  predicate IsVariant(b: bv8) {
    0x04 <= b <= 0x06
  }

  /** A `#[repr(u8)]` enum value: a byte that names one of the variants. */
  type Version = b: bv8 | IsVariant(b) witness 0x04

  const V1_3A: Version := 0x04
  const V1_4 : Version := 0x05
  const V2_0 : Version := 0x06

  /** `Version::try_from(u8)`: the variant named by `b`, or an error that keeps `b`. */
  function TryFrom(b: bv8): (r: Result<Version, TryFromPrimitiveError<bv8>>)
    ensures r.Ok? <==> IsVariant(b)
    ensures r.Ok? ==> r.value == b
    ensures r.Err? ==> r.error == TryFromPrimitiveError(b)
  {
    if IsVariant(b) then Ok(b) else Err(TryFromPrimitiveError(b))
  }
}

/** `CecPrimDevType` (src/sys.rs:170-178): the primary device type operand. */
module CecPrimDevType {
  import opened Common

  /** The bytes that name a variant. */
  predicate IsVariant(b: bv8) {
    b in {
      0x00, 0x01, 0x03, 0x04, 0x05, 0x06, 0x07
    }
  }

  /** A `#[repr(u8)]` enum value: a byte that names one of the variants. */
  type CecPrimDevType = b: bv8 | IsVariant(b) witness 0x00

  const TV         : CecPrimDevType := 0x00
  const RECORD     : CecPrimDevType := 0x01
  const TUNER      : CecPrimDevType := 0x03
  const PLAYBACK   : CecPrimDevType := 0x04
  const AUDIOSYSTEM: CecPrimDevType := 0x05
  const SWITCH     : CecPrimDevType := 0x06
  const PROCESSOR  : CecPrimDevType := 0x07

  /** `CecPrimDevType::try_from(u8)`: the variant named by `b`, or an error that keeps `b`. */
  function TryFrom(b: bv8): (r: Result<CecPrimDevType, TryFromPrimitiveError<bv8>>)
    ensures r.Ok? <==> IsVariant(b)
    ensures r.Ok? ==> r.value == b
    ensures r.Err? ==> r.error == TryFromPrimitiveError(b)
  {
    if IsVariant(b) then Ok(b) else Err(TryFromPrimitiveError(b))
  }
}

/** `CecLogAddrType` (src/sys.rs:182-190): a logical address type a device asks to claim. */
module CecLogAddrType {
  import opened Common

  /** The bytes that name a variant. */
  predicate IsVariant(b: bv8) {
    b <= 0x06
  }

  /** A `#[repr(u8)]` enum value: a byte that names one of the variants. */
  type CecLogAddrType = b: bv8 | IsVariant(b) witness 0x00

  const TV          : CecLogAddrType := 0x00
  const RECORD      : CecLogAddrType := 0x01
  const TUNER       : CecLogAddrType := 0x02
  const PLAYBACK    : CecLogAddrType := 0x03
  const AUDIOSYSTEM : CecLogAddrType := 0x04
  const SPECIFIC    : CecLogAddrType := 0x05
  const UNREGISTERED: CecLogAddrType := 0x06

  /** `CecLogAddrType::try_from(u8)`: the variant named by `b`, or an error that keeps `b`. */
  function TryFrom(b: bv8): (r: Result<CecLogAddrType, TryFromPrimitiveError<bv8>>)
    ensures r.Ok? <==> IsVariant(b)
    ensures r.Ok? ==> r.value == b
    ensures r.Err? ==> r.error == TryFromPrimitiveError(b)
  {
    if IsVariant(b) then Ok(b) else Err(TryFromPrimitiveError(b))
  }
}

