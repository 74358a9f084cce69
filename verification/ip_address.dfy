/**
 * `int2IpAddress`: a DHCP address, held in a Java `int` with the first octet
 * in the low byte, rendered as dotted decimal.  The partner is a parser for
 * dotted decimal and a little-endian recombination, which together undo it.
 */
module IpAddress {
  import opened Common

  function Pow256(k: nat): (r: nat)
    ensures r > 0
  {
    if k == 0 then 1 else 256 * Pow256(k - 1)
  }

  /**
   * `(ip >> 8k) & 0xff`.  The arithmetic shift of a two's-complement value is
   * floor division by 2^8k, which is what Dafny's `/` does for a positive
   * divisor; the mask keeps the non-negative remainder modulo 256.
   */
  function Octet(ip: int, k: nat): (r: int)
    ensures 0 <= r < 256
  {
    (ip / Pow256(k)) % 256
  }

  /** The four octets in the order the address is written: low byte first. */
  function Octets(ip: int): (r: seq<int>)
    ensures |r| == 4
    ensures forall i :: 0 <= i < 4 ==> 0 <= r[i] < 256
  {
    [Octet(ip, 0), Octet(ip, 1), Octet(ip, 2), Octet(ip, 3)]
  }

  /** Reads four octets back as an unsigned 32-bit value, first octet lowest. */
  function LittleEndian(o: seq<int>): int
    requires |o| == 4
  {
    o[0] + 256 * o[1] + 65536 * o[2] + 16777216 * o[3]
  }

  lemma MulAtLeast(m: int, k: int)
    requires m > 0 && k >= 1
    ensures m * k >= m
  {
  }

  lemma DivUnique(a: int, m: int, q: int, r: int)
    requires m > 0 && a == m * q + r && 0 <= r < m
    ensures a / m == q && a % m == r
  {
    var q', r' := a / m, a % m;
    assert a == m * q' + r';
    assert m * (q - q') == r' - r;
    if q' < q {
      MulAtLeast(m, q - q');
    } else if q' > q {
      MulAtLeast(m, q' - q);
    }
  }

  lemma MulDistrib(d: int, x: int, y: int)
    ensures d * (x + y) == d * x + d * y
  {
  }

  lemma MulAssoc(d: int, x: int, y: int)
    ensures d * (x * y) == (d * x) * y
  {
  }

  lemma MulMono(d: int, x: int, y: int)
    requires d > 0 && x <= y
    ensures d * x <= d * y
  {
    MulDistrib(d, x, y - x);
    if y > x {
      MulAtLeast(d, y - x);
    }
  }

  /** Shifting by 8 twice is shifting by 16, and so on. */
  lemma DivDiv256(a: int, d: int)
    requires d > 0
    ensures a / (d * 256) == (a / d) / 256
  {
    var q, r := a / d, a % d;
    var q', r' := q / 256, q % 256;
    assert a == d * q + r;
    assert q == 256 * q' + r';
    MulDistrib(d, 256 * q', r');
    MulAssoc(d, 256, q');
    assert a == (d * 256) * q' + (d * r' + r);
    MulMono(d, r', 255);
    MulMono(d, 0, r');
    assert 0 <= d * r' + r < d * 256;
    DivUnique(a, d * 256, q', d * r' + r);
  }

  /** The rendering keeps exactly the low 32 bits: the octets recombine to the unsigned value of `ip`. */
  lemma {:induction false} OctetsLittleEndian(ip: int)
    ensures LittleEndian(Octets(ip)) == ip % TWO_32
  {
    var a0 := ip;
    var a1 := a0 / 256;
    var a2 := a1 / 256;
    var a3 := a2 / 256;
    var a4 := a3 / 256;
    DivDiv256(ip, 1);
    DivDiv256(ip, 256);
    DivDiv256(ip, 65536);
    assert Pow256(1) == 256 && Pow256(2) == 65536 && Pow256(3) == 16777216;
    assert ip / Pow256(1) == a1;
    assert ip / Pow256(2) == a2;
    assert ip / Pow256(3) == a3;
    var o := Octets(ip);
    assert o[0] == a0 % 256 && o[1] == a1 % 256 && o[2] == a2 % 256 && o[3] == a3 % 256;
    assert a0 == 256 * a1 + o[0];
    assert a1 == 256 * a2 + o[1];
    assert a2 == 256 * a3 + o[2];
    assert a3 == 256 * a4 + o[3];
    assert ip == TWO_32 * a4 + LittleEndian(o);
    DivUnique(ip, TWO_32, a4, LittleEndian(o));
  }

  /** Two `int`s render to the same octets exactly when they are equal. */
  lemma OctetsInjective(a: int, b: int)
    requires IsInt32(a) && IsInt32(b)
    ensures Octets(a) == Octets(b) <==> a == b
  {
    if Octets(a) == Octets(b) {
      OctetsLittleEndian(a);
      OctetsLittleEndian(b);
      assert a % TWO_32 == b % TWO_32;
      if a < 0 { DivUnique(a, TWO_32, -1, a + TWO_32); } else { DivUnique(a, TWO_32, 0, a); }
      if b < 0 { DivUnique(b, TWO_32, -1, b + TWO_32); } else { DivUnique(b, TWO_32, 0, b); }
    }
  }

  // ---------------------------------------------------------------- decimal

  function DigitChar(d: int): (c: char)
    requires 0 <= d < 10
    ensures '0' <= c <= '9'
  {
    (48 + d) as char
  }

  predicate IsDecimal(s: string) {
    |s| > 0 && forall i :: 0 <= i < |s| ==> '0' <= s[i] <= '9'
  }

  /** Java's `int`-to-string conversion for a non-negative value: no sign, no leading zeros. */
  function Decimal(n: nat): (s: string)
    ensures IsDecimal(s)
    ensures s[0] == '0' ==> n == 0
    decreases n
  {
    if n < 10 then [DigitChar(n)] else Decimal(n / 10) + [DigitChar(n % 10)]
  }

  function ParseDecimal(s: string): nat
    requires forall i :: 0 <= i < |s| ==> '0' <= s[i] <= '9'
  {
    if |s| == 0 then 0 else ParseDecimal(s[..|s| - 1]) * 10 + (s[|s| - 1] as int - 48)
  }

  lemma {:induction false} DecimalRoundTrip(n: nat)
    ensures ParseDecimal(Decimal(n)) == n
    decreases n
  {
    if n >= 10 {
      var s := Decimal(n);
      assert s[..|s| - 1] == Decimal(n / 10);
      DecimalRoundTrip(n / 10);
    }
  }

  // ---------------------------------------------------------------- dotted quad

  /** The fields of `s` between dots (`String.split` keeping empty fields). */
  function Split(s: string): (r: seq<string>)
    ensures |r| >= 1
    decreases |s|
  {
    if |s| == 0 then [""]
    else
      var rest := Split(s[1..]);
      if s[0] == '.' then [""] + rest else [[s[0]] + rest[0]] + rest[1..]
  }

  lemma {:induction false} SplitNoDot(a: string)
    requires forall i :: 0 <= i < |a| ==> a[i] != '.'
    ensures Split(a) == [a]
    decreases |a|
  {
    if |a| > 0 {
      SplitNoDot(a[1..]);
      assert [a[0]] + a[1..] == a;
    }
  }

  lemma {:induction false} SplitDot(a: string, b: string)
    requires forall i :: 0 <= i < |a| ==> a[i] != '.'
    ensures Split(a + "." + b) == [a] + Split(b)
    decreases |a|
  {
    var s := a + "." + b;
    if |a| == 0 {
      assert s[0] == '.' && s[1..] == b;
    } else {
      assert s[1..] == a[1..] + "." + b;
      SplitDot(a[1..], b);
      assert [a[0]] + a[1..] == a;
    }
  }

  /** `int2IpAddress`: the octets in decimal, low byte first, joined by dots. */
  function Int2IpAddress(ip: int): (s: string)
    ensures |s| >= 7
  {
    var o := Octets(ip);
    Decimal(o[0]) + "." + Decimal(o[1]) + "." + Decimal(o[2]) + "." + Decimal(o[3])
  }

  /** Reads a dotted-quad string back into its four decimal fields. */
  function ParseIp(s: string): Option<seq<int>> {
    var f := Split(s);
    if |f| == 4 && IsDecimal(f[0]) && IsDecimal(f[1]) && IsDecimal(f[2]) && IsDecimal(f[3])
    then Some([ParseDecimal(f[0]), ParseDecimal(f[1]), ParseDecimal(f[2]), ParseDecimal(f[3])])
    else None
  }

  /**
   * The rendering loses nothing but the bits above 32: parsing it gives back
   * the octets, each in 0..255, and they recombine to the address.
   */
  lemma Int2IpAddressRoundTrip(ip: int)
    ensures ParseIp(Int2IpAddress(ip)) == Some(Octets(ip))
    ensures LittleEndian(Octets(ip)) == ip % TWO_32
  {
    var o := Octets(ip);
    var d0, d1, d2, d3 := Decimal(o[0]), Decimal(o[1]), Decimal(o[2]), Decimal(o[3]);
    assert Int2IpAddress(ip) == d0 + "." + (d1 + "." + (d2 + "." + d3));
    SplitNoDot(d3);
    SplitDot(d2, d3);
    SplitDot(d1, d2 + "." + d3);
    SplitDot(d0, d1 + "." + (d2 + "." + d3));
    DecimalRoundTrip(o[0]);
    DecimalRoundTrip(o[1]);
    DecimalRoundTrip(o[2]);
    DecimalRoundTrip(o[3]);
    OctetsLittleEndian(ip);
  }
}
