/** Bytes, and the big-endian numbers the framed pipe carries. */
module Bytes {

  type byte = x: int | 0 <= x < 256

  function Power(width: nat): (p: nat)
    ensures p >= 1
  {
    if width == 0 then 1 else 256 * Power(width - 1)
  }

  /** The low `width` bytes of a number, most significant first: what a fixed-width
      field keeps of it. */
  function Big(n: nat, width: nat): (s: seq<byte>)
    ensures |s| == width
  {
    if width == 0 then [] else Big(n / 256, width - 1) + [n % 256]
  }

  function Value(s: seq<byte>): nat {
    if s == [] then 0 else 256 * Value(s[..|s| - 1]) + s[|s| - 1]
  }

  lemma {:induction false} ValueBounded(s: seq<byte>)
    ensures Value(s) < Power(|s|)
  {
    if s != [] {
      ValueBounded(s[..|s| - 1]);
    }
  }

  /** Reading a fixed-width field back gives the number cut down to that width. */
  lemma {:induction false} BigValue(n: nat, width: nat)
    ensures Value(Big(n, width)) == n % Power(width)
  {
    if width > 0 {
      BigValue(n / 256, width - 1);
      assert Big(n, width)[..width - 1] == Big(n / 256, width - 1);
      Shifted(n, Power(width - 1));
    }
  }

  lemma Shifted(n: nat, p: nat)
    requires p >= 1
    ensures 256 * ((n / 256) % p) + n % 256 == n % (256 * p)
  {
    var q, r := n / 256, n % 256;
    var a, b := q / p, q % p;
    assert q == p * a + b;
    assert n == (256 * p) * a + (256 * b + r) by {
      assert 256 * (p * a) == (256 * p) * a;
    }
    Remainder(256 * p, a, 256 * b + r);
  }

  lemma Remainder(m: nat, a: nat, b: nat)
    requires b < m
    ensures (m * a + b) % m == b
  {
    var x := m * a + b;
    var q, r := x / m, x % m;
    assert m * q + r == m * a + b;
    Close(m, q, a, r, b);
  }

  /** Two quotients of one number by the same divisor agree. */
  lemma {:induction false} Close(m: nat, q: nat, a: nat, r: nat, b: nat)
    requires r < m && b < m && m * q + r == m * a + b
    ensures r == b
  {
    if q > 0 && a > 0 {
      Step(m, q);
      Step(m, a);
      Close(m, q - 1, a - 1, r, b);
    } else if q > 0 {
      Step(m, q);
    } else if a > 0 {
      Step(m, a);
    }
  }

  lemma Step(m: nat, q: nat)
    requires q > 0
    ensures m * q == m * (q - 1) + m && m * (q - 1) >= 0
  {
  }

  /** Writing back the value of a field gives its bytes: no two fields read alike. */
  lemma {:induction false} ValueBig(s: seq<byte>)
    ensures Big(Value(s), |s|) == s
  {
    if s != [] {
      var front, last := s[..|s| - 1], s[|s| - 1];
      ValueBig(front);
      var v := Value(front);
      assert (256 * v + last) / 256 == v && (256 * v + last) % 256 == last;
      assert s == front + [last];
    }
  }

  lemma Powers()
    ensures Power(4) == 0x1_0000_0000 && Power(8) == 0x1_0000_0000_0000_0000
  {
    assert Power(1) == 256 && Power(2) == 0x1_0000 && Power(3) == 0x100_0000;
    assert Power(5) == 0x100_0000_0000 && Power(6) == 0x1_0000_0000_0000 && Power(7) == 0x100_0000_0000_0000;
  }
}
