/**
 * `CecLogAddrMask` (src/sys.rs:514-556): the set of logical addresses an adapter
 * has claimed, one bit per address, and its device-class tests. Bit n stands for
 * the logical address n.
 */
module CecLogAddrMask {
  import Addr = CecLogicalAddress

  type CecLogicalAddress = Addr.CecLogicalAddress

  type CecLogAddrMask = bv16
  const Tv: CecLogAddrMask           := 1 << 0
  const Record1: CecLogAddrMask      := 1 << 1
  const Record2: CecLogAddrMask      := 1 << 2
  const Record3: CecLogAddrMask      := 1 << 9
  const Tuner1: CecLogAddrMask       := 1 << 3
  const Tuner2: CecLogAddrMask       := 1 << 6
  const Tuner3: CecLogAddrMask       := 1 << 7
  const Tuner4: CecLogAddrMask       := 1 << 10
  const Playback1: CecLogAddrMask    := 1 << 4
  const Playback2: CecLogAddrMask    := 1 << 8
  const Playback3: CecLogAddrMask    := 1 << 11
  const Audiosystem: CecLogAddrMask  := 1 << 5
  const Backup1: CecLogAddrMask      := 1 << 12
  const Backup2: CecLogAddrMask      := 1 << 13
  const Specific: CecLogAddrMask     := 1 << 14
  const Unregistered: CecLogAddrMask := 1 << 15

  /** bitflags' `intersects`: some bit is set in both. */
  predicate Intersects(m: CecLogAddrMask, other: CecLogAddrMask) {
    m & other != 0
  }

  /** `CecLogAddrMask::is_playback`. */
  predicate IsPlayback(m: CecLogAddrMask): (b: bool)
    ensures b <==> Intersects(m, Playback1) || Intersects(m, Playback2) || Intersects(m, Playback3)
  {
    assert m & (Playback1 | Playback2 | Playback3) == (m & Playback1) | (m & Playback2) | (m & Playback3);
    Intersects(m, Playback1 | Playback2 | Playback3)
  }

  /** `CecLogAddrMask::is_record`. */
  predicate IsRecord(m: CecLogAddrMask): (b: bool)
    ensures b <==> Intersects(m, Record1) || Intersects(m, Record2) || Intersects(m, Record3)
  {
    assert m & (Record1 | Record2 | Record3) == (m & Record1) | (m & Record2) | (m & Record3);
    Intersects(m, Record1 | Record2 | Record3)
  }

  /** `CecLogAddrMask::is_tuner`. */
  predicate IsTuner(m: CecLogAddrMask): (b: bool)
    ensures b <==> Intersects(m, Tuner1) || Intersects(m, Tuner2) || Intersects(m, Tuner3) || Intersects(m, Tuner4)
  {
    assert m & (Tuner1 | Tuner2 | Tuner3 | Tuner4) == (m & Tuner1) | (m & Tuner2) | (m & Tuner3) | (m & Tuner4);
    Intersects(m, Tuner1 | Tuner2 | Tuner3 | Tuner4)
  }

  /** `CecLogAddrMask::is_backup`. */
  predicate IsBackup(m: CecLogAddrMask): (b: bool)
    ensures b <==> Intersects(m, Backup1) || Intersects(m, Backup2)
  {
    assert m & (Backup1 | Backup2) == (m & Backup1) | (m & Backup2);
    Intersects(m, Backup1 | Backup2)
  }

  /** The mask bit of a logical address: bit n for address n. */
  function Bit(a: CecLogicalAddress): CecLogAddrMask {
    assert Addr.IsVariant(a);
    1 << a
  }

  /** The mask claims the address `a`. */
  predicate Claims(m: CecLogAddrMask, a: CecLogicalAddress) {
    m & Bit(a) != 0
  }

  /** Each named flag is the bit of the logical address of the same name. */
  lemma FlagsAreAddressBits()
    ensures Tv == Bit(Addr.Tv) && Audiosystem == Bit(Addr.Audiosystem)
    ensures Record1 == Bit(Addr.Record1) && Record2 == Bit(Addr.Record2) && Record3 == Bit(Addr.Record3)
    ensures Tuner1 == Bit(Addr.Tuner1) && Tuner2 == Bit(Addr.Tuner2)
    ensures Tuner3 == Bit(Addr.Tuner3) && Tuner4 == Bit(Addr.Tuner4)
    ensures Playback1 == Bit(Addr.Playback1) && Playback2 == Bit(Addr.Playback2)
    ensures Playback3 == Bit(Addr.Playback3)
    ensures Backup1 == Bit(Addr.Backup1) && Backup2 == Bit(Addr.Backup2)
    ensures Specific == Bit(Addr.Specific) && Unregistered == Bit(Addr.UnregisteredBroadcast)
  {
  }

  /** The playback, record, tuner and backup addresses, as the address enum names them. */
  const PlaybackAddresses: set<CecLogicalAddress> := {Addr.Playback1, Addr.Playback2, Addr.Playback3}
  const RecordAddresses: set<CecLogicalAddress> := {Addr.Record1, Addr.Record2, Addr.Record3}
  const TunerAddresses: set<CecLogicalAddress> := {Addr.Tuner1, Addr.Tuner2, Addr.Tuner3, Addr.Tuner4}
  const BackupAddresses: set<CecLogicalAddress> := {Addr.Backup1, Addr.Backup2}

  /** The mask claims one of the addresses in `addrs`. */
  predicate ClaimsOneOf(m: CecLogAddrMask, addrs: set<CecLogicalAddress>) {
    exists a :: a in addrs && Claims(m, a)
  }

  /** `is_playback` holds exactly when a playback address is claimed. */
  lemma IsPlaybackClaimsPlayback(m: CecLogAddrMask)
    ensures IsPlayback(m) <==> ClaimsOneOf(m, PlaybackAddresses)
  {
    FlagsAreAddressBits();
    assert m & (Playback1 | Playback2 | Playback3) == (m & Playback1) | (m & Playback2) | (m & Playback3);
    if IsPlayback(m) {
      if m & Playback1 != 0 {
        assert Claims(m, Addr.Playback1) && Addr.Playback1 in PlaybackAddresses;
      } else if m & Playback2 != 0 {
        assert Claims(m, Addr.Playback2) && Addr.Playback2 in PlaybackAddresses;
      } else {
        assert m & Playback3 != 0;
        assert Claims(m, Addr.Playback3) && Addr.Playback3 in PlaybackAddresses;
      }
    }
  }

  /** `is_record` holds exactly when a recording address is claimed. */
  lemma IsRecordClaimsRecord(m: CecLogAddrMask)
    ensures IsRecord(m) <==> ClaimsOneOf(m, RecordAddresses)
  {
    FlagsAreAddressBits();
    assert m & (Record1 | Record2 | Record3) == (m & Record1) | (m & Record2) | (m & Record3);
    if IsRecord(m) {
      if m & Record1 != 0 {
        assert Claims(m, Addr.Record1) && Addr.Record1 in RecordAddresses;
      } else if m & Record2 != 0 {
        assert Claims(m, Addr.Record2) && Addr.Record2 in RecordAddresses;
      } else {
        assert m & Record3 != 0;
        assert Claims(m, Addr.Record3) && Addr.Record3 in RecordAddresses;
      }
    }
  }

  /** `is_tuner` holds exactly when a tuner address is claimed. */
  lemma IsTunerClaimsTuner(m: CecLogAddrMask)
    ensures IsTuner(m) <==> ClaimsOneOf(m, TunerAddresses)
  {
    FlagsAreAddressBits();
    assert m & (Tuner1 | Tuner2 | Tuner3 | Tuner4) == (m & Tuner1) | (m & Tuner2) | (m & Tuner3) | (m & Tuner4);
    if IsTuner(m) {
      if m & Tuner1 != 0 {
        assert Claims(m, Addr.Tuner1) && Addr.Tuner1 in TunerAddresses;
      } else if m & Tuner2 != 0 {
        assert Claims(m, Addr.Tuner2) && Addr.Tuner2 in TunerAddresses;
      } else if m & Tuner3 != 0 {
        assert Claims(m, Addr.Tuner3) && Addr.Tuner3 in TunerAddresses;
      } else {
        assert m & Tuner4 != 0;
        assert Claims(m, Addr.Tuner4) && Addr.Tuner4 in TunerAddresses;
      }
    }
  }

  /** `is_backup` holds exactly when a backup address is claimed. */
  lemma IsBackupClaimsBackup(m: CecLogAddrMask)
    ensures IsBackup(m) <==> ClaimsOneOf(m, BackupAddresses)
  {
    FlagsAreAddressBits();
    assert m & (Backup1 | Backup2) == (m & Backup1) | (m & Backup2);
    if IsBackup(m) {
      if m & Backup1 != 0 {
        assert Claims(m, Addr.Backup1) && Addr.Backup1 in BackupAddresses;
      } else {
        assert m & Backup2 != 0;
        assert Claims(m, Addr.Backup2) && Addr.Backup2 in BackupAddresses;
      }
    }
  }
}
