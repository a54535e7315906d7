/**
 * The byte codec under every packet: little-endian integers written into a caller's buffer
 * and read back from an advancing cursor.
 */
module Bytes {
  import opened Types

  function Pow256(n: nat): nat {
    if n == 0 then 1 else 256 * Pow256(n - 1)
  }

  /** The `n` low bytes of `v`, least significant first. */
  function Le(v: nat, n: nat): (s: seq<byte>)
    ensures |s| == n
  {
    if n == 0 then [] else [(v % 256) as byte] + Le(v / 256, n - 1)
  }

  function UnLe(s: seq<byte>): nat {
    if s == [] then 0 else s[0] as nat + 256 * UnLe(s[1..])
  }

  lemma {:induction false} LeRoundTrip(v: nat, n: nat)
    requires v < Pow256(n)
    ensures UnLe(Le(v, n)) == v
  {
    if n > 0 {
      LeRoundTrip(v / 256, n - 1);
      assert Le(v, n)[1..] == Le(v / 256, n - 1);
    }
  }

  lemma {:induction false} UnLeRoundTrip(s: seq<byte>)
    ensures UnLe(s) < Pow256(|s|)
    ensures Le(UnLe(s), |s|) == s
  {
    if s != [] {
      UnLeRoundTrip(s[1..]);
      SplitByte(s[0] as nat, UnLe(s[1..]));
      assert s == [s[0]] + s[1..];
    }
  }

  lemma SplitByte(low: nat, high: nat)
    requires low < 256
    ensures (low + 256 * high) % 256 == low && (low + 256 * high) / 256 == high
  {
  }

  lemma {:induction false} NextMultiple(d: nat, p: nat, q: nat)
    requires p < q
    ensures d * p + d <= d * q
  {
    if p + 1 < q {
      NextMultiple(d, p, q - 1);
    }
    assert d * q == d * (q - 1) + d;
  }

  lemma Quotient(v: nat, d: nat, q: nat, r: nat)
    requires r < d && v == d * q + r
    ensures v / d == q
  {
    if v / d < q {
      NextMultiple(d, v / d, q);
    } else if v / d > q {
      NextMultiple(d, q, v / d);
    }
  }

  lemma NextDigit(v: nat, b: nat)
    requires b > 0
    ensures v / 256 / b == v / (256 * b)
  {
    var q, high, low := v / 256 / b, v / 256 % b, v % 256;
    assert v == 256 * (b * q + high) + low;
    assert 256 * (b * q) == 256 * b * q;
    Quotient(v, 256 * b, q, 256 * high + low);
  }

  /** Byte `k` of an integer is its digit of weight 256^k: the least significant byte comes first. */
  lemma {:induction false} LeDigit(v: nat, n: nat, k: nat)
    requires k < n
    ensures Pow256(k) > 0 && Le(v, n)[k] as nat == v / Pow256(k) % 256
  {
    if k > 0 {
      LeDigit(v / 256, n - 1, k - 1);
      NextDigit(v, Pow256(k - 1));
    }
  }

  /** From offset `o` on, `s` holds the `n` digits of `v`, the least significant first. */
  ghost predicate DigitsAt(s: seq<byte>, o: nat, v: nat, n: nat) {
    o + n <= |s| && forall k :: 0 <= k < n ==> Pow256(k) > 0 && s[o + k] as nat == v / Pow256(k) % 256
  }

  lemma LeAt(s: seq<byte>, o: nat, v: nat, n: nat)
    requires o + n <= |s| && s[o..o + n] == Le(v, n)
    ensures DigitsAt(s, o, v, n)
  {
    forall k | 0 <= k < n
      ensures Pow256(k) > 0 && s[o + k] as nat == v / Pow256(k) % 256
    {
      assert s[o..o + n][k] == s[o + k];
      LeDigit(v, n, k);
    }
  }

  /** The first `k` bytes, each times its weight. */
  function Weighed(s: seq<byte>, k: nat): nat
    requires k <= |s|
  {
    if k == 0 then 0 else Weighed(s, k - 1) + s[k - 1] as nat * Pow256(k - 1)
  }

  lemma {:induction false} WeighedTail(s: seq<byte>, k: nat)
    requires k < |s|
    ensures Weighed(s, k + 1) == s[0] as nat + 256 * Weighed(s[1..], k)
  {
    if k > 0 {
      WeighedTail(s, k - 1);
      assert s[1..][k - 1] == s[k];
      assert Weighed(s[1..], k) == Weighed(s[1..], k - 1) + s[k] as nat * Pow256(k - 1);
      assert Weighed(s, k + 1) == Weighed(s, k) + s[k] as nat * Pow256(k);
      hide Weighed;
      NextWeight(s[k] as nat, k);
    }
  }

  lemma NextWeight(b: nat, k: nat)
    requires k > 0
    ensures b * Pow256(k) == 256 * (b * Pow256(k - 1))
  {
    var p := Pow256(k - 1);
    assert Pow256(k) == 256 * p;
    hide Pow256;
    assert b * (256 * p) == 256 * (b * p);
  }

  lemma {:induction false} WeighedPrefix(s: seq<byte>, t: seq<byte>, k: nat)
    requires k <= |t| && t <= s
    ensures Weighed(s, k) == Weighed(t, k)
  {
    if k > 0 {
      WeighedPrefix(s, t, k - 1);
    }
  }

  /** A byte string is read as the sum of its bytes, byte `k` weighing 256^k, and each byte is that digit. */
  lemma {:induction false} UnLeWeighed(s: seq<byte>)
    ensures UnLe(s) == Weighed(s, |s|)
    ensures forall k :: 0 <= k < |s| ==> Pow256(k) > 0 && s[k] as nat == UnLe(s) / Pow256(k) % 256
  {
    if s != [] {
      UnLeWeighed(s[1..]);
      WeighedTail(s, |s| - 1);
    }
    UnLeRoundTrip(s);
    forall k | 0 <= k < |s|
      ensures Pow256(k) > 0 && s[k] as nat == UnLe(s) / Pow256(k) % 256
    {
      LeDigit(UnLe(s), |s|, k);
    }
  }

  lemma LeInjective(a: nat, b: nat, n: nat)
    requires a < Pow256(n) && b < Pow256(n) && Le(a, n) == Le(b, n)
    ensures a == b
  {
    LeRoundTrip(a, n);
    LeRoundTrip(b, n);
  }

  lemma Widths()
    ensures Pow256(1) == 0x100 && Pow256(2) == 0x1_0000
    ensures Pow256(4) == 0x1_0000_0000 && Pow256(8) == 0x1_0000_0000_0000_0000
  {
    assert Pow256(3) == 0x100_0000;
    assert Pow256(5) == 0x100_0000_0000;
    assert Pow256(6) == 0x1_0000_0000_0000;
    assert Pow256(7) == 0x100_0000_0000_0000;
  }

  /** `before` with `data` laid over it from offset `o` on. */
  function Overlay(before: seq<byte>, o: nat, data: seq<byte>): (s: seq<byte>)
    requires o + |data| <= |before|
    ensures |s| == |before|
  {
    before[..o] + data + before[o + |data|..]
  }

  /** `SliceWrite` for byte slices; the buffer may extend past the written bytes. */
  method WriteBytes(buf: array<byte>, o: nat, data: seq<byte>) returns (n: nat)
    requires o + |data| <= buf.Length
    modifies buf
    ensures n == |data|
    ensures buf[..] == Overlay(old(buf[..]), o, data)
  {
    var i := 0;
    while i < |data|
      invariant 0 <= i <= |data|
      invariant buf[o..o + i] == data[..i]
      invariant forall k :: 0 <= k < o || o + i <= k < buf.Length ==> buf[k] == old(buf[k])
    {
      buf[o + i] := data[i];
      assert buf[o..o + i + 1] == buf[o..o + i] + [data[i]];
      i := i + 1;
    }
    n := |data|;
    assert buf[..] == buf[..o] + buf[o..o + i] + buf[o + i..];
  }

  /** `SliceWrite` for the unsigned integers, `width` bytes each. */
  method WriteLe(buf: array<byte>, o: nat, v: nat, width: nat) returns (n: nat)
    requires o + width <= buf.Length
    modifies buf
    ensures n == width
    ensures buf[..] == Overlay(old(buf[..]), o, Le(v, width))
    ensures forall k :: 0 <= k < width ==> Pow256(k) > 0 && buf[o + k] as nat == v / Pow256(k) % 256
  {
    n := WriteBytes(buf, o, Le(v, width));
    forall k | 0 <= k < width
      ensures Pow256(k) > 0 && buf[o + k] as nat == v / Pow256(k) % 256
    {
      assert buf[..][o + k] == Le(v, width)[k];
      LeDigit(v, width, k);
    }
  }

  /** Two adjacent writes are one write of the concatenation. */
  lemma OverlayJoin(before: seq<byte>, o: nat, a: seq<byte>, b: seq<byte>)
    requires o + |a| + |b| <= |before|
    ensures Overlay(Overlay(before, o, a), o + |a|, b) == Overlay(before, o, a + b)
  {
  }

  /** Writes `data` behind the bytes `done` that already stand at `at`. */
  method PutBytes(buf: array<byte>, ghost start: seq<byte>, at: nat, ghost done: seq<byte>, o: nat, data: seq<byte>)
    returns (next: nat)
    requires o == at + |done| && o + |data| <= buf.Length == |start|
    requires buf[..] == Overlay(start, at, done)
    modifies buf
    ensures next == o + |data|
    ensures buf[..] == Overlay(start, at, done + data)
  {
    var n := WriteBytes(buf, o, data);
    OverlayJoin(start, at, done, data);
    next := o + n;
  }

  method PutLe(buf: array<byte>, ghost start: seq<byte>, at: nat, ghost done: seq<byte>, o: nat, v: nat, width: nat)
    returns (next: nat)
    requires o == at + |done| && o + width <= buf.Length == |start|
    requires buf[..] == Overlay(start, at, done)
    modifies buf
    ensures next == o + width
    ensures buf[..] == Overlay(start, at, done + Le(v, width))
  {
    next := PutBytes(buf, start, at, done, o, Le(v, width));
  }

  /** `SliceRead`: the unread part of a packet, which every read advances. */
  class Cursor {
    var rest: seq<byte>

    constructor (bytes: seq<byte>)
      ensures rest == bytes
    {
      rest := bytes;
    }

    method ReadBytes(n: nat) returns (r: Option<seq<byte>>)
      modifies this
      ensures (r, rest) == TakeBytes(old(rest), n)
    {
      if |rest| < n {
        return None;
      }
      r := Some(rest[..n]);
      rest := rest[n..];
    }

    method ReadLe(n: nat) returns (r: Option<nat>)
      modifies this
      ensures (r, rest) == TakeLe(old(rest), n)
      ensures r.Some? <==> n <= |old(rest)|
      ensures r.Some? ==> r.value == Weighed(old(rest), n) && rest == old(rest)[n..]
    {
      var b := ReadBytes(n);
      match b
      case None => r := None;
      case Some(s) =>
        UnLeWeighed(s);
        WeighedPrefix(old(rest), s, n);
        r := Some(UnLe(s));
    }
  }

  function TakeBytes(s: seq<byte>, n: nat): (Option<seq<byte>>, seq<byte>) {
    if |s| < n then (None, s) else (Some(s[..n]), s[n..])
  }

  function TakeLe(s: seq<byte>, n: nat): (Option<nat>, seq<byte>) {
    if |s| < n then (None, s) else (Some(UnLe(s[..n])), s[n..])
  }

  /** A read undoes the write in front of it and leaves what follows. */
  lemma TakeLeWritten(v: nat, n: nat, rest: seq<byte>)
    requires v < Pow256(n)
    ensures TakeLe(Le(v, n) + rest, n) == (Some(v), rest)
  {
    LeRoundTrip(v, n);
    assert (Le(v, n) + rest)[..n] == Le(v, n) && (Le(v, n) + rest)[n..] == rest;
  }
}
