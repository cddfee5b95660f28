/** Byte strings and the little-endian integers of `struct` formats that start with `<`. */
module Bytes {
  type byte = x: int | 0 <= x < 256

  function Zeros(n: nat): seq<byte> {
    seq(n, _ => 0)
  }

  /** How many values a field of `width` bytes can hold. */
  function Limit(width: nat): nat {
    if width == 0 then 1 else 256 * Limit(width - 1)
  }

  function LE(n: nat, width: nat): (b: seq<byte>)
    requires n < Limit(width)
    ensures |b| == width
  {
    if width == 0 then [] else [n % 256] + LE(n / 256, width - 1)
  }

  function FromLE(b: seq<byte>): nat {
    if b == [] then 0 else b[0] + 256 * FromLE(b[1..])
  }

  lemma {:induction false} LERoundTrip(n: nat, width: nat)
    requires n < Limit(width)
    ensures FromLE(LE(n, width)) == n
  {
    if width > 0 {
      LERoundTrip(n / 256, width - 1);
      assert LE(n, width)[1..] == LE(n / 256, width - 1);
    }
  }

  function Power(n: nat): (r: nat)
    ensures r > 0
  {
    if n == 0 then 1 else 256 * Power(n - 1)
  }

  /** The least significant byte comes first. */
  lemma {:induction false} LEByte(n: nat, width: nat, i: nat)
    requires n < Limit(width) && i < width
    ensures LE(n, width)[i] == n / Power(i) % 256
  {
    if i > 0 {
      LEByte(n / 256, width - 1, i - 1);
      DivDiv(n, Power(i - 1));
    }
  }

  lemma DivDiv(n: nat, b: nat)
    requires b > 0
    ensures n / 256 / b == n / (256 * b)
  {
    var m := n / 256;
    assert m == b * (m / b) + m % b;
    Nested(n, b, m, m / b, m % b);
  }

  lemma Nested(n: nat, b: nat, m: nat, q: nat, s: nat)
    requires m == n / 256 && m == b * q + s && s < b
    ensures n / (256 * b) == q
  {
    assert 256 * (b * q) == 256 * b * q;
    DivIs(n, 256 * b, q, 256 * s + n % 256);
  }

  lemma DivIs(n: nat, d: nat, q: nat, r: nat)
    requires n == d * q + r && r < d
    ensures n / d == q
  {
    var e := n / d - q;
    assert d * e == d * (n / d) - d * q;
    assert n == d * (n / d) + n % d;
    assert d * e == r - n % d;
    MultiplesApart(e, d);
  }

  lemma {:induction false} FromLEBound(b: seq<byte>)
    ensures FromLE(b) < Limit(|b|)
  {
    if b != [] { FromLEBound(b[1..]); }
  }

  lemma Limits()
    ensures Limit(2) == 0x1_0000 && Limit(4) == 0x1_0000_0000
  {
    assert Limit(1) == 256;
    assert Limit(3) == 0x100_0000;
  }

  /** Reading a field and writing it again. */
  lemma {:induction false} FromLERoundTrip(b: seq<byte>)
    ensures FromLE(b) < Limit(|b|) && LE(FromLE(b), |b|) == b
  {
    FromLEBound(b);
    if b != [] {
      FromLERoundTrip(b[1..]);
      assert FromLE(b) % 256 == b[0] && FromLE(b) / 256 == FromLE(b[1..]);
    }
  }

  /** The number a field holds. */
  function Field(b: seq<byte>, from: nat, width: nat): nat
    requires from + width <= |b|
  {
    FromLE(b[from..from + width])
  }

  lemma FieldOf(b: seq<byte>, from: nat, n: nat, width: nat)
    requires n < Limit(width) && from + width <= |b| && b[from..from + width] == LE(n, width)
    ensures Field(b, from, width) == n
  {
    LERoundTrip(n, width);
  }

  /** `d` stands at `pos`. */
  ghost predicate HasAt(b: seq<byte>, pos: nat, d: seq<byte>) {
    pos + |d| <= |b| && b[pos..pos + |d|] == d
  }

  // ---- slices of concatenations ----

  lemma SliceKeep(x: seq<byte>, y: seq<byte>, i: nat, j: nat)
    requires i <= j <= |x|
    ensures (x + y)[i..j] == x[i..j]
  {
    var s, t := (x + y)[i..j], x[i..j];
    forall k | 0 <= k < j - i ensures s[k] == t[k] {}
  }

  lemma SliceLast(x: seq<byte>, y: seq<byte>)
    ensures (x + y)[|x|..|x| + |y|] == y
  {
    var s := (x + y)[|x|..|x| + |y|];
    forall k | 0 <= k < |y| ensures s[k] == y[k] {}
  }

  lemma SliceJoin(b: seq<byte>, i: nat, j: nat, k: nat)
    requires i <= j <= k <= |b|
    ensures b[i..j] + b[j..k] == b[i..k]
  {
    var s, t := b[i..j] + b[j..k], b[i..k];
    forall m | 0 <= m < k - i ensures s[m] == t[m] {}
  }

  lemma SliceOfSlice(b: seq<byte>, at: nat, n: nat, i: nat, width: nat)
    requires at + n <= |b| && i + width <= n
    ensures b[at..at + n][i..i + width] == b[at + i..at + i + width]
  {
    var s, t := b[at..at + n][i..i + width], b[at + i..at + i + width];
    forall k | 0 <= k < width ensures s[k] == t[k] {}
  }

  /** The parts of a record of four fields. */
  lemma Fields4(a: seq<byte>, b: seq<byte>, c: seq<byte>, d: seq<byte>)
    ensures var x := a + b + c + d; var i, j, k := |a|, |a| + |b|, |a| + |b| + |c|;
      x[0..i] == a && x[i..j] == b && x[j..k] == c && x[k..k + |d|] == d
  {
    var ab, abc := a + b, a + b + c;
    SliceKeep(a, b, 0, |a|);
    SliceKeep(ab, c, 0, |a|);
    SliceKeep(abc, d, 0, |a|);
    assert a[0..|a|] == a;
    SliceLast(a, b);
    SliceKeep(ab, c, |a|, |ab|);
    SliceKeep(abc, d, |a|, |ab|);
    SliceLast(ab, c);
    SliceKeep(abc, d, |ab|, |abc|);
    SliceLast(abc, d);
  }

  /** Bytes `start` up to `start + size`, as if the file went on with zeros. */
  function Window(b: seq<byte>, start: nat, size: nat): (w: seq<byte>)
    ensures |w| == size
  {
    seq(size, i requires 0 <= i => if start + i < |b| then b[start + i] else 0)
  }

  // ---- multiples ----

  lemma MultipleMod(q: nat, block: nat)
    requires block > 0
    ensures q * block % block == 0 && q * block / block == q
  {
    var x := q * block;
    var d := q - x / block;
    assert d * block == q * block - x / block * block;
    assert x % block == d * block;
    MultiplesApart(d, block);
  }

  lemma MultiplesApart(d: int, block: int)
    requires block > 0
    ensures (d >= 1 ==> d * block >= block) && (d <= -1 ==> d * block <= 0 - block)
  {
    if d >= 1 { assert d * block == (d - 1) * block + block; }
    if d <= -1 { assert d * block == (d + 1) * block - block; }
  }
}
