/**
 * The streaming MurmurHash3 x86_32 accumulator of murmur/murmur.go.
 *
 * The pure part of this module is the specification: `Murmur3(seed, data)`
 * is the digest of a whole byte string, folded block by block.  The class
 * `Digest32` is the Go `digest32`, whose `Write` accepts the input in any
 * number of chunks; its methods are proved against the specification.
 * Bytes are `bv8` and words are `bv32`, so every multiplication, addition
 * and rotation below wraps modulo 2^32 exactly as Go's `uint32` does.
 */
module Murmur {

  const C1: bv32 := 0xcc9e_2d51
  const C2: bv32 := 0x1b87_3593
  const M: bv32 := 5
  const N: bv32 := 0xe654_6b64

  // ---------------------------------------------------------------------
  // Specification
  // ---------------------------------------------------------------------

  /** The little-endian word held in the first four bytes of `p`. */
  function Word(p: seq<bv8>): bv32
    requires |p| >= 4
  {
    (p[0] as bv32) | ((p[1] as bv32) << 8) | ((p[2] as bv32) << 16) | ((p[3] as bv32) << 24)
  }

  /** The per-block key scramble: `*c1`, rotate left by 15, `*c2`. */
  function Scramble(k: bv32): bv32 {
    ((k * C1).RotateLeft(15)) * C2
  }

  /** One scrambled block mixed into the running state: xor, rotate left
      by 13, `*5 + 0xe6546b64`. */
  function Mix(h: bv32, k: bv32): bv32 {
    ((h ^ Scramble(k)).RotateLeft(13)) * M + N
  }

  /** The running state after every complete 4-byte block of `p`,
      starting from `h`; trailing bytes are ignored. */
  function HashBlocks(h: bv32, p: seq<bv8>): bv32
    decreases |p|
  {
    if |p| < 4 then h else HashBlocks(Mix(h, Word(p)), p[4..])
  }

  /** The 0 to 3 bytes left once every complete block of `p` is taken. */
  function Tail(p: seq<bv8>): (t: seq<bv8>)
    ensures |t| == |p| % 4
    decreases |p|
  {
    if |p| < 4 then p else Tail(p[4..])
  }

  /** A tail padded with zero bytes to a block, read little-endian. */
  function TailWord(t: seq<bv8>): bv32
    requires |t| < 4
  {
    Word(t + seq(4 - |t|, _ => 0))
  }

  /** The low 32 bits of a count, Go's `uint32(n)`; counts that already
      fit are converted directly. */
  function Low32(n: nat): bv32 {
    if n < 0x1_0000_0000 then n as bv32 else (n % 0x1_0000_0000) as bv32
  }

  /** The fmix32 avalanche. */
  function Fmix(h: bv32): bv32 {
    var h1 := h ^ (h >> 16);
    var h2 := h1 * 0x85eb_ca6b;
    var h3 := h2 ^ (h2 >> 13);
    var h4 := h3 * 0xc2b2_ae35;
    h4 ^ (h4 >> 16)
  }

  /** The last, partial block scrambled into the state: unlike `Mix`,
      no rotation and no `*5 + n` follow. */
  function MixTail(h: bv32, k: bv32): bv32 {
    h ^ Scramble(k)
  }

  /** The total length, truncated to 32 bits, folded into the state. */
  function MixLength(h: bv32, len: nat): bv32 {
    h ^ Low32(len)
  }

  /** Finalisation of a running state `h`, the unmixed tail and the total
      length: scramble the tail into `h` (only when there is one), fold in
      the truncated length, then avalanche. */
  function Finish(h: bv32, tail: seq<bv8>, len: nat): bv32
    requires |tail| < 4
  {
    Fmix(MixLength(WithTail(h, tail), len))
  }

  /** The state with the tail, if there is one, scrambled in. */
  function WithTail(h: bv32, tail: seq<bv8>): bv32
    requires |tail| < 4
  {
    if tail == [] then h else MixTail(h, TailWord(tail))
  }

  /** MurmurHash3 x86_32 of `data` with `seed`. */
  function Murmur3(seed: bv32, data: seq<bv8>): bv32 {
    Finish(HashBlocks(seed, data), Tail(data), |data|)
  }

  /** The four bytes of `x`, most significant first. */
  function BigEndian(x: bv32): (s: seq<bv8>)
    ensures |s| == 4
  {
    [((x >> 24) & 0xff) as bv8, ((x >> 16) & 0xff) as bv8, ((x >> 8) & 0xff) as bv8, (x & 0xff) as bv8]
  }

  /** Reads four bytes, most significant first. */
  function FromBigEndian(s: seq<bv8>): bv32
    requires |s| == 4
  {
    ((s[0] as bv32) << 24) | ((s[1] as bv32) << 16) | ((s[2] as bv32) << 8) | (s[3] as bv32)
  }

  // ---------------------------------------------------------------------
  // Properties of the specification
  // ---------------------------------------------------------------------

  /** Folding over a prefix made of whole blocks and then over the rest is
      folding over the concatenation: the fact that makes chunked input
      hash like unchunked input. */
  lemma {:induction false} HashBlocksAppend(h: bv32, a: seq<bv8>, b: seq<bv8>)
    requires |a| % 4 == 0
    ensures HashBlocks(h, a + b) == HashBlocks(HashBlocks(h, a), b)
    decreases |a|
  {
    if |a| == 0 {
      assert a + b == b;
    } else {
      assert Word(a + b) == Word(a) by {
        assert (a + b)[..4] == a[..4];
      }
      assert (a + b)[4..] == a[4..] + b;
      HashBlocksAppend(Mix(h, Word(a)), a[4..], b);
    }
  }

  /** The tail of a concatenation whose prefix is made of whole blocks is
      the tail of the suffix. */
  lemma {:induction false} TailAppend(a: seq<bv8>, b: seq<bv8>)
    requires |a| % 4 == 0
    ensures Tail(a + b) == Tail(b)
    decreases |a|
  {
    if |a| == 0 {
      assert a + b == b;
    } else {
      assert (a + b)[4..] == a[4..] + b;
      TailAppend(a[4..], b);
    }
  }

  /** The tail is the last `|p| % 4` bytes of `p`. */
  lemma {:induction false} TailIsSuffix(p: seq<bv8>)
    ensures Tail(p) == p[|p| - |p| % 4..]
    decreases |p|
  {
    if |p| >= 4 {
      TailIsSuffix(p[4..]);
      assert (|p| - 4) % 4 == |p| % 4;
      assert p[4..][|p| - 4 - (|p| - 4) % 4..] == p[|p| - |p| % 4..];
    }
  }

  /** Splits `p` into its whole blocks and its tail; the tail does not
      affect the running state. */
  lemma WholeBlocksOnly(h: bv32, p: seq<bv8>)
    ensures var full := p[..|p| - |p| % 4];
            |full| % 4 == 0 && p == full + Tail(p) && HashBlocks(h, p) == HashBlocks(h, full)
  {
    var cut := |p| - |p| % 4;
    var full := p[..cut];
    assert |full| % 4 == 0;
    TailIsSuffix(p);
    assert p == full + Tail(p);
    HashBlocksAppend(h, full, Tail(p));
    assert HashBlocks(HashBlocks(h, full), Tail(p)) == HashBlocks(h, full);
  }

  /** How `Write` regroups its input when it completes a pending tail `t`:
      the whole blocks before the tail, the topped-up block, the rest. */
  lemma TopUpSplit(fed: seq<bv8>, t: seq<bv8>, p: seq<bv8>)
    requires t == Tail(fed) && 0 < |t| && 4 - |t| < |p|
    ensures var full := fed[..|fed| - |t|];
            |full| % 4 == 0 && |full + (t + p[..4 - |t|])| % 4 == 0 &&
            fed + p == full + (t + p[..4 - |t|]) + p[4 - |t|..]
  {
    TailIsSuffix(fed);
    var full := fed[..|fed| - |t|];
    assert fed == full + t;
    assert p == p[..4 - |t|] + p[4 - |t|..];
  }

  /** The path of `Write` that completes a pending tail `t`: the tail
      topped up to a block, then the rest of the new bytes, gives the
      state of the whole input. */
  lemma TopUpThenBlocks(seed: bv32, fed: seq<bv8>, t: seq<bv8>, p: seq<bv8>)
    requires t == Tail(fed) && 0 < |t| && 4 - |t| < |p|
    ensures HashBlocks(HashBlocks(HashBlocks(seed, fed), t + p[..4 - |t|]), p[4 - |t|..]) == HashBlocks(seed, fed + p)
    ensures Tail(p[4 - |t|..]) == Tail(fed + p)
  {
    var full, block, rest := fed[..|fed| - |t|], t + p[..4 - |t|], p[4 - |t|..];
    TopUpSplit(fed, t, p);
    WholeBlocksOnly(seed, fed);
    HashBlocksAppend(seed, full, block);
    HashBlocksAppend(seed, full + block, rest);
    TailAppend(full + block, rest);
  }

  /** How `Write` regroups its input when it buffers: the whole blocks
      before the pending tail `t`, then `t` and the new bytes. */
  lemma BufferedSplit(fed: seq<bv8>, t: seq<bv8>, p: seq<bv8>)
    requires t == Tail(fed)
    ensures var full := fed[..|fed| - |t|];
            |full| % 4 == 0 && fed + p == full + (t + p)
  {
    TailIsSuffix(fed);
    var full := fed[..|fed| - |t|];
    assert fed == full + t;
  }

  /** The path of `Write` that puts the pending tail `t` in front of the
      new bytes (also the path when there is no tail) gives the state of
      the whole input. */
  lemma BufferedThenBlocks(seed: bv32, fed: seq<bv8>, t: seq<bv8>, p: seq<bv8>)
    requires t == Tail(fed)
    ensures HashBlocks(HashBlocks(seed, fed), t + p) == HashBlocks(seed, fed + p)
    ensures Tail(t + p) == Tail(fed + p)
  {
    var full := fed[..|fed| - |t|];
    BufferedSplit(fed, t, p);
    WholeBlocksOnly(seed, fed);
    HashBlocksAppend(seed, full, t + p);
    TailAppend(full, t + p);
  }

  /** The bytes appended by `Sum` decode back to the digest. */
  lemma BigEndianRoundTrip(x: bv32)
    ensures FromBigEndian(BigEndian(x)) == x
  {
  }

  // ---------------------------------------------------------------------
  // The streaming accumulator
  // ---------------------------------------------------------------------

  /** The `switch` with `fallthrough` of Go's `Sum32`: the 1 to 3 tail
      bytes assembled into a key from the highest one down. */
  method TailKey(tail: seq<bv8>) returns (k: bv32)
    requires 0 < |tail| < 4
    ensures k == TailWord(tail)
  {
    k := 0;
    var count := |tail| % 4;
    if count == 3 {
      k := k ^ ((tail[2] as bv32) << 16);
    }
    if count >= 2 {
      k := k ^ ((tail[1] as bv32) << 8);
    }
    k := k ^ (tail[0] as bv32);
  }

  /** The body of Go's `Sum32`, on a copy `h` of the running state: the
      tail key scrambled and xored in only when there is at least one tail
      byte, then the truncated length and the avalanche. */
  method Finalize(h: bv32, tail: seq<bv8>, len: nat) returns (r: bv32)
    requires |tail| < 4
    ensures r == Finish(h, tail, len)
  {
    var acc := h;
    if |tail| != 0 {
      var k := TailKey(tail);
      acc := MixTail(h, k);
    }
    r := Fmix(MixLength(acc, len));
  }

  /** Go's `digest32`: `h` the running state, `len` the number of bytes
      fed since the last reset, `tail` the 0 to 3 bytes not yet mixed.
      The ghost field `fed` is every byte written since the last reset. */
  class Digest32 {
    const seed: bv32
    var len: nat
    var h: bv32
    var tail: seq<bv8>
    ghost var fed: seq<bv8>

    /** The state is exactly what the specification says the bytes fed
        so far produce. */
    ghost predicate Valid()
      reads this
    {
      len == |fed| && h == HashBlocks(seed, fed) && tail == Tail(fed)
    }

    /** `New32WithSeed`: a digest that is already reset. */
    constructor (seed: bv32)
      ensures Valid() && this.seed == seed && fed == []
      ensures len == 0 && h == seed && tail == []
    {
      this.seed := seed;
      new;
      Reset();
    }

    method Reset()
      modifies this
      ensures Valid() && fed == []
      ensures len == 0 && h == seed && tail == []
    {
      len := 0;
      tail := [];
      h := seed;
      fed := [];
    }

    /** Go's `hash`: mixes every complete block of `p` into `h` and
        returns the bytes left over. */
    method Hash(p: seq<bv8>) returns (rest: seq<bv8>)
      modifies this`h
      ensures h == HashBlocks(old(h), p)
      ensures rest == Tail(p)
    {
      var acc := h;
      var q := p;
      while |q| >= 4
        invariant HashBlocks(acc, q) == HashBlocks(old(h), p)
        invariant Tail(q) == Tail(p)
      {
        var k := (q[0] as bv32) | ((q[1] as bv32) << 8) | ((q[2] as bv32) << 16) | ((q[3] as bv32) << 24);
        acc := Mix(acc, k);
        q := q[4..];
      }
      h := acc;
      rest := q;
    }

    /** Feeds `p`: tops up a pending tail, mixes every complete block and
        keeps the leftover bytes.  The whole state afterwards is the one
        the specification gives for everything fed so far followed by `p`;
        the written count is `|p|` (the error result is always nil). */
    method Write(p: seq<bv8>) returns (n: nat)
      requires Valid()
      modifies this
      ensures Valid() && fed == old(fed) + p
      ensures n == |p| && len == old(len) + |p|
      ensures |tail| < 4
    {
      ghost var before := fed;
      n := |p|;
      len := len + n;

      var rest := p;
      if |tail| > 0 {
        var free := 4 - |tail|;
        if free < |rest| {
          var block := tail + rest[..free];
          rest := rest[free..];
          var _ := Hash(block);
          TopUpThenBlocks(seed, before, tail, p);
        } else {
          rest := tail + rest;
          BufferedThenBlocks(seed, before, tail, p);
        }
      } else {
        BufferedThenBlocks(seed, before, tail, p);
        assert tail + p == rest;
      }
      tail := Hash(rest);
      fed := before + p;
    }

    /** In every valid state the pending tail is the last `len % 4` bytes
        fed since the reset. */
    lemma TailIsLastBytes()
      requires Valid()
      ensures |tail| == len % 4 && tail == fed[len - len % 4..]
    {
      TailIsSuffix(fed);
    }

    /** `Sum32`: finalises a copy of the state; nothing is modified, so a
        second call returns the same value and later writes carry on as
        though it had not been made. */
    method Sum32() returns (r: bv32)
      requires Valid()
      ensures r == Murmur3(seed, fed)
    {
      r := Finalize(h, tail, len);
    }

    /** `Sum`: appends the digest to `b`, most significant byte first. */
    method Sum(b: seq<bv8>) returns (r: seq<bv8>)
      requires Valid()
      ensures r == b + BigEndian(Murmur3(seed, fed))
      ensures |r| == |b| + 4 && r[..|b|] == b && FromBigEndian(r[|b|..]) == Murmur3(seed, fed)
    {
      var d := Sum32();
      r := b + BigEndian(d);
      BigEndianRoundTrip(d);
      assert r[|b|..] == BigEndian(d);
    }
  }

  // ---------------------------------------------------------------------
  // Clients
  // ---------------------------------------------------------------------

  /** Two writes give the digest of one write of the concatenation. */
  method ChunkedWrites(seed: bv32, a: seq<bv8>, b: seq<bv8>) returns (chunked: bv32, whole: bv32)
    ensures chunked == whole
    ensures whole == Murmur3(seed, a + b)
  {
    var d1 := new Digest32(seed);
    var _ := d1.Write(a);
    var _ := d1.Write(b);
    assert d1.fed == a + b;
    chunked := d1.Sum32();

    var d2 := new Digest32(seed);
    var _ := d2.Write(a + b);
    assert d2.fed == a + b;
    whole := d2.Sum32();
  }

  /** `Sum32` between writes neither changes the digest nor disturbs the
      writes that follow it. */
  method SumBetweenWrites(seed: bv32, a: seq<bv8>, b: seq<bv8>) returns (first: bv32, second: bv32, last: bv32)
    ensures first == second == Murmur3(seed, a)
    ensures last == Murmur3(seed, a + b)
  {
    var d := new Digest32(seed);
    var _ := d.Write(a);
    assert d.fed == a;
    first := d.Sum32();
    second := d.Sum32();
    var _ := d.Write(b);
    assert d.fed == a + b;
    last := d.Sum32();
  }
}
