/** The part of `md5()` that is plain string handling: the hex text of the
    digest is padded on the left with zeros to 32 characters. Computing the
    digest and its hex text is the platform's; here that hex text is an input,
    absent when the platform has no MD5 algorithm. */
module Strings {
  import opened Wrappers

  /** `n` zero digits. */
  function Zeros(n: nat): (z: string)
    ensures |z| == n
    ensures forall i :: 0 <= i < n ==> z[i] == '0'
  {
    seq(n, _ => '0')
  }

  /** How many zeros the padding loop puts in front of `hex`. */
  function PadWidth(hex: string): nat {
    if |hex| < 32 then 32 - |hex| else 0
  }

  /** `while (md5.length < 32) md5 = "0" + md5` */
  method PadToMd5Length(hex: string) returns (md5: string)
    ensures md5 == Zeros(PadWidth(hex)) + hex
    ensures |md5| == if |hex| < 32 then 32 else |hex|
    ensures |hex| >= 32 ==> md5 == hex
  {
    md5 := hex;
    while |md5| < 32
      invariant |hex| <= |md5|
      invariant |hex| < 32 ==> |md5| <= 32
      invariant |hex| >= 32 ==> |md5| == |hex|
      invariant md5 == Zeros(|md5| - |hex|) + hex
      decreases 32 - |md5|
    {
      md5 := "0" + md5;
      assert md5 == Zeros(|md5| - |hex|) + hex;
    }
  }

  /** The padded text ends with the unpadded hex and everything in front of it
      is a zero digit. */
  lemma PaddingIsLeadingZeros(hex: string)
    ensures var padded := Zeros(PadWidth(hex)) + hex;
      padded[|padded| - |hex|..] == hex &&
      forall i :: 0 <= i < |padded| - |hex| ==> padded[i] == '0'
  {
    var padded := Zeros(PadWidth(hex)) + hex;
    assert padded[|padded| - |hex|..] == hex;
  }

  /** `md5()`: the padded hex text of the digest, or "" when the platform
      throws `NoSuchAlgorithmException`. */
  method Md5(digestHex: Option<string>) returns (md5: string)
    ensures digestHex.None? ==> md5 == ""
    ensures digestHex.Some? ==> md5 == Zeros(PadWidth(digestHex.value)) + digestHex.value
    ensures digestHex.Some? && |digestHex.value| <= 32 ==> |md5| == 32
  {
    match digestHex
    case None =>
      md5 := "";
    case Some(hex) =>
      md5 := PadToMd5Length(hex);
  }
}
