/**
 * The video and user identifiers (uuid.UUID, sixteen bytes) and their canonical
 * text form, the one `videoID.String()` and `%v` produce:
 * eight, four, four, four and twelve lower-case hex digits separated by dashes.
 */
module Uuids {

  newtype byte = x: int | 0 <= x < 256

  type UUID = s: seq<byte> | |s| == 16 witness seq(16, _ => 0)

  predicate IsHexDigit(c: char) {
    '0' <= c <= '9' || 'a' <= c <= 'f'
  }

  function HexValue(c: char): (n: int)
    requires IsHexDigit(c)
    ensures 0 <= n < 16
  {
    if c <= '9' then c as int - '0' as int else c as int - 'a' as int + 10
  }

  /** The lower-case hex digit of a nibble; HexValue undoes it. */
  function HexDigit(n: int): (c: char)
    requires 0 <= n < 16
    ensures IsHexDigit(c) && HexValue(c) == n
  {
    if n < 10 then ('0' as int + n) as char else ('a' as int + n - 10) as char
  }

  /** Two hex digits per byte, high nibble first (encoding/hex). */
  function Hex(bs: seq<byte>): (s: string)
    ensures |s| == 2 * |bs|
  {
    if bs == [] then []
    else [HexDigit(bs[0] as int / 16), HexDigit(bs[0] as int % 16)] + Hex(bs[1..])
  }

  predicate IsHexString(s: string) {
    |s| % 2 == 0 && forall i :: 0 <= i < |s| ==> IsHexDigit(s[i])
  }

  /** The hex text of a byte string is made of hex digits only. */
  lemma {:induction false} HexIsHexString(bs: seq<byte>)
    ensures IsHexString(Hex(bs))
  {
    if bs != [] {
      HexIsHexString(bs[1..]);
      var s := Hex(bs);
      forall i | 0 <= i < |s| ensures IsHexDigit(s[i]) {
        if i >= 2 {
          assert s[i] == Hex(bs[1..])[i - 2];
        }
      }
    }
  }

  function Unhex(s: string): (bs: seq<byte>)
    requires IsHexString(s)
    ensures |bs| == |s| / 2
  {
    if s == [] then []
    else [(HexValue(s[0]) * 16 + HexValue(s[1])) as byte] + Unhex(s[2..])
  }

  /** Decoding the hex text of a byte string gives the bytes back. */
  lemma {:induction false} UnhexHex(bs: seq<byte>)
    ensures IsHexString(Hex(bs)) && Unhex(Hex(bs)) == bs
  {
    HexIsHexString(bs);
    if bs != [] {
      var s := Hex(bs);
      assert s[2..] == Hex(bs[1..]);
      UnhexHex(bs[1..]);
    }
  }

  predicate IsDash(i: int) {
    i == 8 || i == 13 || i == 18 || i == 23
  }

  /** The canonical 36-character layout. */
  predicate IsCanonical(s: string) {
    && |s| == 36
    && forall i :: 0 <= i < 36 ==> if IsDash(i) then s[i] == '-' else IsHexDigit(s[i])
  }

  /** Thirty-two hex digits in groups of 8, 4, 4, 4 and 12, joined by dashes. */
  function Dashed(h: string): string
    requires |h| == 32
  {
    h[..8] + "-" + h[8..12] + "-" + h[12..16] + "-" + h[16..20] + "-" + h[20..]
  }

  function Undashed(s: string): string
    requires |s| == 36
  {
    s[..8] + s[9..13] + s[14..18] + s[19..23] + s[24..]
  }

  lemma UndashedDashed(h: string)
    requires |h| == 32
    ensures Undashed(Dashed(h)) == h
  {
    var s := Dashed(h);
    assert s[..8] == h[..8];
    assert s[9..13] == h[8..12];
    assert s[14..18] == h[12..16];
    assert s[19..23] == h[16..20];
    assert s[24..] == h[20..];
    assert h == h[..8] + h[8..12] + h[12..16] + h[16..20] + h[20..];
  }

  /** uuid.UUID.String(). */
  function ToString(u: UUID): string {
    Dashed(Hex(u))
  }

  /** The text form is the canonical 36-character layout. */
  lemma ToStringIsCanonical(u: UUID)
    ensures IsCanonical(ToString(u))
  {
    var h := Hex(u);
    HexIsHexString(u);
    var s := Dashed(h);
    forall i | 0 <= i < 36 ensures if IsDash(i) then s[i] == '-' else IsHexDigit(s[i]) {
      if i < 8 { assert s[i] == h[i]; }
      else if 8 < i < 13 { assert s[i] == h[i - 1]; }
      else if 13 < i < 18 { assert s[i] == h[i - 2]; }
      else if 18 < i < 23 { assert s[i] == h[i - 3]; }
      else if 23 < i { assert s[i] == h[i - 4]; }
    }
  }

  /** The text form holds no '/' and no '.', so it names one entry of a directory. */
  lemma ToStringHasNoSlashOrDot(u: UUID)
    ensures '/' !in ToString(u) && '.' !in ToString(u)
  {
    ToStringIsCanonical(u);
    var s := ToString(u);
    forall i | 0 <= i < |s| ensures s[i] != '/' && s[i] != '.' {
      assert IsDash(i) ==> s[i] == '-';
    }
  }

  /** Reads the sixteen bytes back out of the canonical form. */
  function FromString(s: string): (u: UUID)
    requires IsCanonical(s)
  {
    var h := Undashed(s);
    assert forall i :: 0 <= i < 32 ==> IsHexDigit(h[i]) by {
      forall i | 0 <= i < 32 ensures IsHexDigit(h[i]) {
        if i < 8 { assert h[i] == s[i]; }
        else if i < 12 { assert h[i] == s[i + 1]; }
        else if i < 16 { assert h[i] == s[i + 2]; }
        else if i < 20 { assert h[i] == s[i + 3]; }
        else { assert h[i] == s[i + 4]; }
      }
    }
    Unhex(h)
  }

  lemma FromStringToString(u: UUID)
    ensures IsCanonical(ToString(u)) && FromString(ToString(u)) == u
  {
    ToStringIsCanonical(u);
    UndashedDashed(Hex(u));
    UnhexHex(u);
  }

  /** Distinct identifiers have distinct text forms. */
  lemma ToStringInjective(a: UUID, b: UUID)
    ensures ToString(a) == ToString(b) ==> a == b
  {
    FromStringToString(a);
    FromStringToString(b);
  }
}
