/** Little-endian bytes of an unsigned integer: Rust's `to_le_bytes` and `from_le_bytes`. */
module Bytes {
  import opened Integers

  function Bound(width: nat): (b: nat)
    ensures b > 0
  {
    if width == 0 then 1 else 256 * Bound(width - 1)
  }

  function ToLe(x: nat, width: nat): (s: seq<byte>)
    ensures |s| == width
  {
    if width == 0 then [] else [x % 256] + ToLe(x / 256, width - 1)
  }

  function FromLe(s: seq<byte>): nat {
    if s == [] then 0 else s[0] + 256 * FromLe(s[1..])
  }

  lemma {:induction false} FromLeToLe(x: nat, width: nat)
    requires x < Bound(width)
    ensures FromLe(ToLe(x, width)) == x
  {
    if width > 0 {
      FromLeToLe(x / 256, width - 1);
      assert ToLe(x, width)[1..] == ToLe(x / 256, width - 1);
    }
  }

  lemma {:induction false} ToLeFromLe(s: seq<byte>)
    ensures FromLe(s) < Bound(|s|)
    ensures ToLe(FromLe(s), |s|) == s
  {
    if s != [] {
      ToLeFromLe(s[1..]);
      assert FromLe(s) % 256 == s[0] && FromLe(s) / 256 == FromLe(s[1..]);
    }
  }

  /** Positional notation, the least byte first: byte `i` counts 256 to the power of `i`. */
  function Positional(s: seq<byte>, n: nat): nat
    requires n <= |s|
  {
    if n == 0 then 0 else Positional(s, n - 1) + s[n - 1] * Bound(n - 1)
  }

  lemma {:induction false} PositionalShifts(s: seq<byte>, n: nat)
    requires 0 < n <= |s|
    ensures Positional(s, n) == s[0] + 256 * Positional(s[1..], n - 1)
  {
    if n > 1 {
      PositionalShifts(s, n - 1);
      TimesBound(s[n - 1], n - 2, n - 1);
    } else {
      assert Positional(s, 0) == 0 && Bound(0) == 1;
    }
  }

  lemma TimesBound(b: nat, n: nat, more: nat)
    requires more == n + 1
    ensures b * Bound(more) == 256 * (b * Bound(n))
  {
    assert Bound(more) == 256 * Bound(n);
  }

  lemma {:induction false} FromLeIsPositional(s: seq<byte>)
    ensures FromLe(s) == Positional(s, |s|)
  {
    if s != [] {
      FromLeIsPositional(s[1..]);
      PositionalShifts(s, |s|);
    }
  }

  /** The widths the sources use. */
  lemma Widths()
    ensures Bound(2) == 0x1_0000 && Bound(4) == 0x1_0000_0000 && Bound(8) == 0x1_0000_0000_0000_0000
  {
    assert Bound(3) == 256 * Bound(2) && Bound(2) == 256 * Bound(1) && Bound(1) == 256 * Bound(0);
    assert Bound(4) == 256 * Bound(3);
    assert Bound(8) == 256 * Bound(7) && Bound(7) == 256 * Bound(6) && Bound(6) == 256 * Bound(5)
        && Bound(5) == 256 * Bound(4);
  }
}
