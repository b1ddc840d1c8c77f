/**
 * `OSDStr<MAX>` (src/sys.rs:1218-1285): an on-screen-display name held in a
 * fixed buffer of MAX bytes, zero padded. The const generic MAX is the `max`
 * parameter below; a Rust `String` is given by its UTF-8 bytes.
 */
module Osd {
  import opened Common

  /** `OSDStr<MAX>`: the buffer; a well-formed value has exactly MAX bytes. */
  datatype OSDStr = OSDStr(bytes: seq<bv8>)

  /** `OSDStr::default()`: MAX zero bytes. */
  function Default(max: nat): (o: OSDStr)
    ensures |o.bytes| == max
    ensures forall i :: 0 <= i < max ==> o.bytes[i] == 0
  {
    OSDStr(seq(max, _ => 0))
  }

  /** `str::is_ascii`: every byte is below 0x80. */
  predicate IsAscii(b: seq<bv8>) {
    forall i :: 0 <= i < |b| ==> b[i] < 0x80
  }

  function Min(a: nat, b: nat): nat {
    if a < b then a else b
  }

  /**
   * `OSDStr::from(&[u8])` as written: it computes `len = MAX.min(value.len())`
   * but then copies all of `value` into the first `len` bytes, and that copy
   * panics when the lengths differ. `None` stands for the panic.
   */
  method FromSliceAsWritten(max: nat, value: seq<bv8>) returns (r: Option<OSDStr>)
    ensures r.None? <==> |value| > max
    ensures r.Some? ==> |r.value.bytes| == max && r.value.bytes[..|value|] == value
    ensures r.Some? ==> forall i :: |value| <= i < max ==> r.value.bytes[i] == 0
  {
    var osd := new bv8[max](_ => 0);
    var len := Min(max, |value|);
    if len != |value| {
      // the destination slice and `value` differ in length
      return None;
    }
    forall i | 0 <= i < len {
      osd[i] := value[i];
    }
    return Some(OSDStr(osd[..]));
  }

  /** A 16-byte name given to an `OSDStr<15>` makes `from` panic instead of truncating. */
  method SixteenBytesIntoFifteenPanics() returns (r: Option<OSDStr>)
    ensures r.None?
  {
    r := FromSliceAsWritten(15, seq(16, _ => 0x41));
  }

  /**
   * `OSDStr::from(&[u8])` as its `MAX.min(value.len())` shows it is meant: the
   * first `min(MAX, |value|)` bytes of `value`, the rest zero.
   */
  method FromSlice(max: nat, value: seq<bv8>) returns (o: OSDStr)
    ensures |o.bytes| == max
    ensures forall i :: 0 <= i < max ==> o.bytes[i] == if i < |value| then value[i] else 0
  {
    var osd := new bv8[max](_ => 0);
    var len := Min(max, |value|);
    forall i | 0 <= i < len {
      osd[i] := value[i];
    }
    return OSDStr(osd[..]);
  }

  /** `Vec::resize(MAX, 0)` applied to `s`: cut to MAX bytes, or padded with zeros up to MAX. */
  function PaddedTo(s: seq<bv8>, max: nat): (p: seq<bv8>)
    ensures |p| == max
    ensures forall i :: 0 <= i < max ==> p[i] == if i < |s| then s[i] else 0
  {
    if |s| > max then s[..max] else s + seq(max - |s|, _ => 0)
  }

  /**
   * `OSDStr::try_from(String)`: an error for a string that is not ASCII;
   * otherwise its bytes resized in place to exactly MAX.
   */
  method TryFromString(max: nat, s: seq<bv8>) returns (r: Result<OSDStr, ()>)
    ensures r.Err? <==> !IsAscii(s)
    ensures r.Ok? ==> r.value.bytes == PaddedTo(s, max)
  {
    if IsAscii(s) {
      var v := s;
      if |v| > max {
        v := v[..max];
      } else {
        v := v + seq(max - |v|, _ => 0);
      }
      return Ok(OSDStr(v));
    }
    return Err(());
  }

  /**
   * The bytes before the first zero byte, or all of them when there is none:
   * what `CStr::from_bytes_until_nul` keeps.
   */
  function UntilNul(b: seq<bv8>): (r: seq<bv8>)
    ensures |r| <= |b| && r == b[..|r|]
    ensures forall i :: 0 <= i < |r| ==> r[i] != 0
    ensures |r| < |b| ==> b[|r|] == 0
  {
    if b == [] then []
    else if b[0] == 0 then []
    else [b[0]] + UntilNul(b[1..])
  }

  /**
   * `OSDStr::as_ref` for ASCII contents, where UTF-8 validation always
   * succeeds: the bytes up to the first zero byte.
   */
  function AsRef(o: OSDStr): (r: seq<bv8>)
    requires IsAscii(o.bytes)
    ensures |r| <= |o.bytes| && r == o.bytes[..|r|]
    ensures |r| < |o.bytes| ==> o.bytes[|r|] == 0
    ensures IsAscii(r)
    ensures 0 !in r
  {
    UntilNul(o.bytes)
  }

  /** The default name reads as the empty string. */
  lemma DefaultIsEmpty(max: nat)
    ensures IsAscii(Default(max).bytes) && AsRef(Default(max)) == []
  {
    if max > 0 {
      assert Default(max).bytes[0] == 0;
    }
  }

  /**
   * A name stored with `try_from` reads back, through `as_ref`, as the name cut
   * to MAX bytes, provided it is ASCII and holds no zero byte.
   */
  lemma {:induction false} AsRefOfTryFrom(max: nat, s: seq<bv8>)
    requires IsAscii(s) && 0 !in s
    ensures IsAscii(PaddedTo(s, max))
    ensures AsRef(OSDStr(PaddedTo(s, max))) == s[..Min(|s|, max)]
  {
    var p := PaddedTo(s, max);
    var k := Min(|s|, max);
    var r := UntilNul(p);
    forall i | 0 <= i < k
      ensures p[i] == s[i] && p[i] != 0
    {
      assert s[i] in s;
    }
    if k < max {
      assert p[k] == 0;
    }
    assert r == p[..k];
  }
}
