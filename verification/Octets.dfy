/** Bytes, and the big-endian length prefix of every frame (`struct.pack('!I', n)`
    and `'!Q'`). */
module Octets {
  type Byte = b: int | 0 <= b < 256

  type Bytes = seq<Byte>

  const UINT32_LIMIT := 0x1_0000_0000
  const UINT64_LIMIT := 0x1_0000_0000_0000_0000

  function Capacity(width: nat): (c: nat)
    ensures c >= 1
  {
    if width == 0 then 1 else 256 * Capacity(width - 1)
  }

  function Pack(width: nat, n: nat): (s: Bytes)
    ensures |s| == width
  {
    if width == 0 then [] else Pack(width - 1, n / 256) + [n % 256]
  }

  function Unpack(s: Bytes): nat {
    if s == [] then 0 else Unpack(s[..|s| - 1]) * 256 + s[|s| - 1]
  }

  lemma {:induction false} UnpackPack(width: nat, n: nat)
    requires n < Capacity(width)
    ensures Unpack(Pack(width, n)) == n
  {
    if width > 0 {
      UnpackPack(width - 1, n / 256);
      assert Pack(width, n)[..width - 1] == Pack(width - 1, n / 256);
    }
  }

  lemma {:induction false} PackUnpack(s: Bytes)
    ensures Unpack(s) < Capacity(|s|) && Pack(|s|, Unpack(s)) == s
  {
    if s != [] {
      PackUnpack(s[..|s| - 1]);
      assert s == s[..|s| - 1] + [s[|s| - 1]];
    }
  }

  /** Network byte order: the first byte is the most significant one. */
  lemma {:induction false} PackAt(width: nat, n: nat, i: nat)
    requires i < width
    ensures Pack(width, n)[i] == n / Capacity(width - 1 - i) % 256
  {
    if i < width - 1 {
      PackAt(width - 1, n / 256, i);
      QuotientTwice(n, 256, Capacity(width - 2 - i));
    } else {
      assert n / 1 == n;
    }
  }

  lemma QuotientTwice(n: nat, a: nat, b: nat)
    requires a > 0 && b > 0
    ensures a * b > 0 && n / a / b == n / (a * b)
  {
    Recompose(a, b, n / a / b, n % a, n / a % b);
    assert n == (n / a) * a + n % a && n / a == (n / a / b) * b + n / a % b;
    QuotientIs(n, a * b, n / a / b, (n / a % b) * a + n % a);
  }

  lemma Recompose(a: nat, b: nat, q: nat, low: nat, high: nat)
    requires low < a && high < b
    ensures (q * b + high) * a + low == q * (a * b) + (high * a + low)
    ensures high * a + low < a * b
  {
    assert (q * b + high) * a == q * (a * b) + high * a;
    assert (high + 1) * a <= b * a;
  }

  lemma QuotientIs(n: nat, d: nat, q: nat, r: nat)
    requires n == q * d + r && r < d
    ensures n / d == q
  {
    var q', r' := n / d, n % d;
    assert q' * d + r' == q * d + r;
    assert q' < q ==> (q' + 1) * d <= q * d;
    assert q < q' ==> (q + 1) * d <= q' * d;
  }

  /** The four bytes of a length prefix. */
  lemma LengthPrefix(n: nat)
    requires n < UINT32_LIMIT
    ensures Pack(4, n) == [n / 0x100_0000, n / 0x1_0000 % 256, n / 256 % 256, n % 256]
  {
    PackAt(4, n, 0);
    PackAt(4, n, 1);
    PackAt(4, n, 2);
    PackAt(4, n, 3);
    assert Capacity(1) == 256 && Capacity(2) == 0x1_0000 && Capacity(3) == 0x100_0000;
    assert n / 1 == n;
  }

  lemma Widths()
    ensures Capacity(4) == UINT32_LIMIT && Capacity(8) == UINT64_LIMIT
  {
    assert Capacity(2) == 0x1_0000;
    assert Capacity(4) == 0x1_0000_0000;
    assert Capacity(6) == 0x1_0000_0000_0000;
  }
}
