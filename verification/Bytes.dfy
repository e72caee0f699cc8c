/** Octets and little-endian words. */
module Bytes {

  newtype Byte = b: int | 0 <= b < 256

  function Power256(width: nat): (p: nat)
    ensures p >= 1
  {
    if width == 0 then 1 else 256 * Power256(width - 1)
  }

  /** The width low-order octets of n, lowest first. */
  function Little(n: nat, width: nat): (s: seq<Byte>)
    ensures |s| == width
  {
    if width == 0 then [] else [(n % 256) as Byte] + Little(n / 256, width - 1)
  }

  function FromLittle(s: seq<Byte>): nat {
    if s == [] then 0 else s[0] as nat + 256 * FromLittle(s[1..])
  }

  lemma {:induction false} LittleRoundTrip(n: nat, width: nat)
    requires n < Power256(width)
    ensures FromLittle(Little(n, width)) == n
  {
    if width > 0 {
      LittleRoundTrip(n / 256, width - 1);
      assert Little(n, width)[1..] == Little(n / 256, width - 1);
    }
  }

  lemma {:induction false} FromLittleRoundTrip(s: seq<Byte>)
    ensures FromLittle(s) < Power256(|s|) && Little(FromLittle(s), |s|) == s
  {
    if s != [] {
      FromLittleRoundTrip(s[1..]);
      var n := FromLittle(s[1..]);
      assert (s[0] as nat + 256 * n) % 256 == s[0] as nat && (s[0] as nat + 256 * n) / 256 == n;
      assert s == [s[0]] + s[1..];
    }
  }
}
