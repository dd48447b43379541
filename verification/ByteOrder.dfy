/** Unsigned integers as bytes, most significant first. */
module ByteOrder {
  import opened Prelude

  /** The low n bytes of x, most significant first. */
  function BigEndian(x: nat, n: nat): (r: seq<byte>)
    ensures |r| == n
  {
    if n == 0 then [] else BigEndian(x / 256, n - 1) + [x % 256]
  }

  function Unsigned(data: seq<byte>): nat {
    if |data| == 0 then 0 else Unsigned(data[..|data| - 1]) * 256 + data[|data| - 1]
  }

  function Power(n: nat): nat { if n == 0 then 1 else 256 * Power(n - 1) }

  lemma {:induction false} UnsignedOfBytes(x: nat, n: nat)
    requires x < Power(n)
    ensures Unsigned(BigEndian(x, n)) == x
  {
    if n > 0 { UnsignedOfBytes(x / 256, n - 1); }
  }

  lemma {:induction false} BytesOfUnsigned(data: seq<byte>)
    ensures Unsigned(data) < Power(|data|) && BigEndian(Unsigned(data), |data|) == data
  {
    if |data| > 0 {
      var n := |data| - 1;
      BytesOfUnsigned(data[..n]);
      assert Unsigned(data) / 256 == Unsigned(data[..n]) && Unsigned(data) % 256 == data[n];
      assert data[..n] + [data[n]] == data;
    }
  }
}
