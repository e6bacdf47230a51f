/** Fixed-width big-endian numbers, as values and as the loops that write and read them. */
module BigEndian {
  import opened Frames

  /** The n low bytes of v, most significant first. */
  function BytesOf(v: nat, n: nat): (s: seq<byte>)
    ensures |s| == n
  {
    if n == 0 then [] else BytesOf(v / 256, n - 1) + [v % 256]
  }

  function NumberOf(s: seq<byte>): nat
  {
    if s == [] then 0 else 256 * NumberOf(s[..|s| - 1]) + s[|s| - 1]
  }

  function Pow256(n: nat): nat
  {
    if n == 0 then 1 else 256 * Pow256(n - 1)
  }

  lemma {:induction false} NumberOfBytesOf(v: nat, n: nat)
    requires v < Pow256(n)
    ensures NumberOf(BytesOf(v, n)) == v
  {
    if n > 0 {
      NumberOfBytesOf(v / 256, n - 1);
      assert BytesOf(v, n)[..n - 1] == BytesOf(v / 256, n - 1);
    }
  }

  lemma {:induction false} BytesOfNumberOf(s: seq<byte>)
    ensures BytesOf(NumberOf(s), |s|) == s && NumberOf(s) < Pow256(|s|)
  {
    if s != [] {
      BytesOfNumberOf(s[..|s| - 1]);
      assert s == s[..|s| - 1] + [s[|s| - 1]];
    }
  }

  lemma DivideTwice(v: nat, p: nat)
    requires p > 0
    ensures v / 256 / p == v / (256 * p)
  {
    var a, b, r := v / 256 / p, v / 256 % p, v % 256;
    assert v == 256 * (p * a + b) + r == 256 * p * a + (256 * b + r);
    Quotient(v, 256 * p, a, 256 * b + r);
  }

  lemma Quotient(v: nat, n: nat, a: nat, r: nat)
    requires v == n * a + r && r < n
    ensures v / n == a
  {
    Multiples(n, v / n + 1, a);
    Multiples(n, a + 1, v / n);
  }

  lemma Multiples(n: nat, a: nat, b: nat)
    ensures a <= b ==> n * a <= n * b
  {
  }

  lemma {:induction false} PowPositive(n: nat)
    ensures Pow256(n) > 0
  {
    if n > 0 {
      PowPositive(n - 1);
    }
  }

  /** The byte at position i has i more significant ones before it. */
  lemma {:induction false} ByteAt(v: nat, n: nat, i: nat)
    requires i < n
    ensures Pow256(n - 1 - i) > 0 && BytesOf(v, n)[i] == v / Pow256(n - 1 - i) % 256
  {
    PowPositive(n - 1 - i);
    if i < n - 1 {
      ByteAt(v / 256, n - 1, i);
      assert BytesOf(v, n)[i] == BytesOf(v / 256, n - 1)[i];
      DivideTwice(v, Pow256(n - 2 - i));
    }
  }

  /** s with t written over it at `at`. */
  function Overlay(s: seq<byte>, at: nat, t: seq<byte>): (r: seq<byte>)
    requires at + |t| <= |s|
    ensures |r| == |s| && r[at..at + |t|] == t && r[..at] == s[..at] && r[at + |t|..] == s[at + |t|..]
  {
    s[..at] + t + s[at + |t|..]
  }

  /** Writing one thing right behind another writes their concatenation. */
  lemma OverlayNext(s: seq<byte>, at: nat, t: seq<byte>, u: seq<byte>)
    requires at + |t| + |u| <= |s|
    ensures Overlay(Overlay(s, at, t), at + |t|, u) == Overlay(s, at, t + u)
  {
  }

  method Set(a: array<byte>, s: seq<byte>, at: nat)
    requires at + |s| <= a.Length
    modifies a
    ensures a[..] == Overlay(old(a[..]), at, s)
  {
    forall i | 0 <= i < |s| {
      a[at + i] := s[i];
    }
  }

  method WriteUint64(a: array<byte>, v: nat, at: nat)
    requires at + 8 <= a.Length
    modifies a
    ensures a[..] == Overlay(old(a[..]), at, BytesOf(v, 8))
  {
    var i, rest := 8, v;
    while i > 0
      invariant 0 <= i <= 8 && BytesOf(v, 8) == BytesOf(rest, i) + a[at + i..at + 8]
      invariant a[..at + i] == old(a[..at + i]) && a[at + 8..] == old(a[at + 8..])
    {
      i := i - 1;
      assert BytesOf(rest, i + 1) == BytesOf(rest / 256, i) + [rest % 256];
      a[at + i] := rest % 256;
      rest := rest / 256;
      assert a[at + i..at + 8] == [a[at + i]] + a[at + i + 1..at + 8];
    }
    assert a[..] == a[..at] + a[at..at + 8] + a[at + 8..];
  }

  method ReadUint64(s: seq<byte>, at: nat) returns (v: nat)
    requires at + 8 <= |s|
    ensures v == NumberOf(s[at..at + 8])
  {
    v := 0;
    for i := at to at + 8
      invariant v == NumberOf(s[at..i])
    {
      assert s[at..i + 1][..i - at] == s[at..i];
      v := 256 * v + s[i];
    }
  }
}
