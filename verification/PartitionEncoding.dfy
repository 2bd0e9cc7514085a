/**
 The byte encoding of batching partitions. Components are delimited by base-128 length prefixes; a
 decoder that recovers the components shows that distinct partitions never share an encoding.
 */
module PartitionEncoding {
  import opened Seqs

  type byte = x: int | 0 <= x < 256

  const TAG_SINGLE: byte := 0x01
  const TAG_COMPOSITE: byte := 0x02
  const MAX_VARINT_LEN := 10

  // ---------------------------------------------------------------- encoding

  /** Seven bits a byte, least significant first, the high bit set on all but the last. */
  function Uvarint(n: nat): (r: seq<byte>) {
    if n < 128 then [n] else [n % 128 + 128] + Uvarint(n / 128)
  }

  function Component(v: seq<byte>): (r: seq<byte>) {
    Uvarint(|v|) + v
  }

  function Components(vs: seq<seq<byte>>): (r: seq<byte>) {
    if vs == [] then [] else Components(vs[..|vs| - 1]) + Component(vs[|vs| - 1])
  }

  function Composite(vs: seq<seq<byte>>): (r: seq<byte>) {
    [TAG_COMPOSITE] + Components(vs)
  }

  const SINGLE: seq<byte> := [TAG_SINGLE]

  method PutUvarint(n: nat) returns (r: seq<byte>)
    ensures r == Uvarint(n)
  {
    r := [];
    var x := n;
    while x >= 128
      invariant r + Uvarint(x) == Uvarint(n)
    {
      assert r + ([x % 128 + 128] + Uvarint(x / 128)) == r + [x % 128 + 128] + Uvarint(x / 128);
      r := r + [x % 128 + 128];
      x := x / 128;
    }
    r := r + [x];
  }

  method PartitionFromBytes(values: seq<seq<byte>>) returns (r: seq<byte>)
    ensures r == Composite(values)
  {
    r := [TAG_COMPOSITE];
    for i := 0 to |values|
      invariant r == Composite(values[..i])
    {
      assert values[..i + 1][..i] == values[..i];
      var prefix := PutUvarint(|values[i]|);
      r := r + prefix;
      r := r + values[i];
    }
    assert values[..|values|] == values;
  }

  // ---------------------------------------------------------------- decoding

  /** Reads one length prefix; the rest of the input follows it. */
  function ReadUvarint(s: seq<byte>): (r: Option<(nat, seq<byte>)>)
    ensures r.Some? ==> |r.value.1| < |s|
  {
    if s == [] then None
    else if s[0] < 128 then Some((s[0], s[1..]))
    else
      var r := ReadUvarint(s[1..]);
      if r.None? then None else Some((s[0] - 128 + 128 * r.value.0, r.value.1))
  }

  function ReadComponents(s: seq<byte>): (r: Option<seq<seq<byte>>>)
    decreases |s|
  {
    if s == [] then Some([])
    else
      var head := ReadUvarint(s);
      if head.None? || head.value.0 > |head.value.1| then None
      else
        var (n, rest) := head.value;
        var tail := ReadComponents(rest[n..]);
        if tail.None? then None else Some([rest[..n]] + tail.value)
  }

  /** The components of a composite partition, if the bytes are one. */
  function Decode(s: seq<byte>): (r: Option<seq<seq<byte>>>) {
    if s == [] || s[0] != TAG_COMPOSITE then None else ReadComponents(s[1..])
  }

  lemma {:induction false} ReadsBack(n: nat, tail: seq<byte>)
    ensures ReadUvarint(Uvarint(n) + tail) == Some((n, tail))
  {
    var s := Uvarint(n) + tail;
    if n < 128 {
      assert s[1..] == tail;
    } else {
      ReadsBack(n / 128, tail);
      assert s[1..] == Uvarint(n / 128) + tail;
    }
  }

  lemma {:induction false} ComponentsFront(vs: seq<seq<byte>>)
    requires vs != []
    ensures Components(vs) == Component(vs[0]) + Components(vs[1..])
  {
    hide Component;
    var n := |vs| - 1;
    if n == 0 {
      assert vs[..0] == [] && vs[1..] == [];
      assert [] + Component(vs[0]) == Component(vs[0]) + [];
    } else {
      ComponentsFront(vs[..n]);
      assert vs[..n][1..] == vs[1..][..n - 1];
      Associates(Component(vs[0]), Components(vs[1..][..n - 1]), Component(vs[n]));
    }
  }

  lemma Associates(a: seq<byte>, b: seq<byte>, c: seq<byte>)
    ensures (a + b) + c == a + (b + c)
  {
  }

  lemma {:induction false} ComponentsReadBack(vs: seq<seq<byte>>)
    ensures ReadComponents(Components(vs)) == Some(vs)
  {
    if vs != [] {
      var rest := Components(vs[1..]);
      ComponentsFront(vs);
      ReadsBack(|vs[0]|, vs[0] + rest);
      assert Components(vs) == Uvarint(|vs[0]|) + (vs[0] + rest);
      assert (vs[0] + rest)[..|vs[0]|] == vs[0] && (vs[0] + rest)[|vs[0]|..] == rest;
      ComponentsReadBack(vs[1..]);
      assert |Uvarint(|vs[0]|)| > 0;
      assert [vs[0]] + vs[1..] == vs;
    }
  }

  /** Decoding recovers exactly the components encoded. */
  lemma RoundTrip(vs: seq<seq<byte>>)
    ensures Decode(Composite(vs)) == Some(vs)
  {
    ComponentsReadBack(vs);
    assert Composite(vs)[1..] == Components(vs);
  }

  /** Equal encodings come from equal component lists. */
  lemma Injective(a: seq<seq<byte>>, b: seq<seq<byte>>)
    ensures Composite(a) == Composite(b) <==> a == b
  {
    RoundTrip(a);
    RoundTrip(b);
  }

  /** No component list, not even the empty one, encodes to the single partition. */
  lemma SingleApart(vs: seq<seq<byte>>)
    ensures Composite(vs) != SINGLE && Composite(vs) != [] && SINGLE != []
  {
    assert Composite(vs)[0] == TAG_COMPOSITE && SINGLE[0] == TAG_SINGLE;
  }

  // ---------------------------------------------------------------- prefix size

  function Pow128(k: nat): (r: nat)
    ensures r >= 1
  {
    if k == 0 then 1 else 128 * Pow128(k - 1)
  }

  lemma {:induction false} UvarintLength(n: nat, k: nat)
    requires k >= 1
    ensures |Uvarint(n)| <= k <==> n < Pow128(k)
  {
    if n >= 128 && k > 1 {
      UvarintLength(n / 128, k - 1);
      assert n / 128 < Pow128(k - 1) <==> n < 128 * Pow128(k - 1);
    } else if k > 1 {
      assert Pow128(k) >= 128;
    } else {
      assert Pow128(1) == 128 * Pow128(0);
    }
  }

  /** Every 64-bit length fits the ten-byte buffer the encoder reserves. */
  lemma BufferSuffices(n: nat)
    requires n < 0x1_0000_0000_0000_0000
    ensures |Uvarint(n)| <= MAX_VARINT_LEN
  {
    UvarintLength(n, 10);
    assert Pow128(10) == 128 * 128 * 128 * 128 * 128 * 128 * 128 * 128 * 128 * 128 by {
      assert Pow128(5) == 128 * 128 * 128 * 128 * 128 by { assert Pow128(2) == 128 * 128; assert Pow128(4) ==
        128 * 128 * Pow128(2); }
      assert Pow128(7) == 128 * 128 * Pow128(5);
      assert Pow128(9) == 128 * 128 * Pow128(7);
    }
  }
}
