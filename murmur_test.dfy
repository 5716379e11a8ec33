/**
 * The concrete cases of murmur/murmur_test.go, proved about the model: the
 * MurmurHash3 digests and big-endian sums those tests expect.
 *
 * Digests of concrete inputs are proved one block at a time: each step
 * names the little-endian word read and the state it produces.
 */
module MurmurTest {
  import opened Murmur

  /** "hello, murmur3" */
  const Hello: seq<bv8> := [0x68, 0x65, 0x6c, 0x6c, 0x6f, 0x2c, 0x20, 0x6d, 0x75, 0x72, 0x6d, 0x75, 0x72, 0x33]
  /** "hello, hash" */
  const HelloHash: seq<bv8> := [0x68, 0x65, 0x6c, 0x6c, 0x6f, 0x2c, 0x20, 0x68, 0x61, 0x73, 0x68]

  // ---------------------------------------------------------------------
  // Evaluating a digest step by step
  // ---------------------------------------------------------------------

  /** One complete block `b` in front of `rest`: reading word `w` takes the
      state from `h` to `next`. */
  lemma BlockStep(h: bv32, b: seq<bv8>, rest: seq<bv8>, w: bv32, next: bv32)
    requires |b| == 4 && Word(b) == w && Mix(h, w) == next
    ensures HashBlocks(h, b + rest) == HashBlocks(next, rest) && Tail(b + rest) == Tail(rest)
  {
    assert (b + rest)[4..] == rest;
  }

  /** Finalisation of a non-empty tail whose padded word is `w`. */
  lemma TailStep(h: bv32, t: seq<bv8>, len: nat, w: bv32, x: bv32, r: bv32)
    requires 0 < |t| < 4 && TailWord(t) == w && MixTail(h, w) == x && Fmix(MixLength(x, len)) == r
    ensures Finish(h, t, len) == r
  {
  }

  // ---------------------------------------------------------------------
  // murmur/murmur_test.go
  // ---------------------------------------------------------------------

  /** "hello, murmur3" cut into its three blocks and its tail. */
  lemma HelloSplit()
    ensures Hello == [0x68, 0x65, 0x6c, 0x6c] + ([0x6f, 0x2c, 0x20, 0x6d] + ([0x75, 0x72, 0x6d, 0x75] + [0x72, 0x33]))
  {
  }

  /** "hello, murmur3" followed by "hello, hash" cut into its six blocks
      and its tail. */
  lemma AppendedSplit()
    ensures Hello + HelloHash ==
      [0x68, 0x65, 0x6c, 0x6c] + ([0x6f, 0x2c, 0x20, 0x6d] + ([0x75, 0x72, 0x6d, 0x75] +
      ([0x72, 0x33, 0x68, 0x65] + ([0x6c, 0x6c, 0x6f, 0x2c] + ([0x20, 0x68, 0x61, 0x73] + [0x68])))))
  {
  }

  /** From seed 5, the three blocks of "hello, murmur3" leave 2513851853,
      whatever follows them. */
  lemma HelloBlocks(rest: seq<bv8>)
    ensures var p := [0x68, 0x65, 0x6c, 0x6c] + ([0x6f, 0x2c, 0x20, 0x6d] + ([0x75, 0x72, 0x6d, 0x75] + rest));
      HashBlocks(5, p) == HashBlocks(2513851853, rest) && Tail(p) == Tail(rest)
  {
    BlockStep(366002701, [0x75, 0x72, 0x6d, 0x75], rest, 0x756d_7275, 2513851853);
    BlockStep(4010856397, [0x6f, 0x2c, 0x20, 0x6d], [0x75, 0x72, 0x6d, 0x75] + rest, 0x6d20_2c6f, 366002701);
    BlockStep(5, [0x68, 0x65, 0x6c, 0x6c], [0x6f, 0x2c, 0x20, 0x6d] + ([0x75, 0x72, 0x6d, 0x75] + rest), 0x6c6c_6568, 4010856397);
  }

  /** From 2513851853, the next three blocks of the appended input leave
      3151469056, whatever follows them. */
  lemma AppendedBlocks(rest: seq<bv8>)
    ensures var p := [0x72, 0x33, 0x68, 0x65] + ([0x6c, 0x6c, 0x6f, 0x2c] + ([0x20, 0x68, 0x61, 0x73] + rest));
      HashBlocks(2513851853, p) == HashBlocks(3151469056, rest) && Tail(p) == Tail(rest)
  {
    BlockStep(186731704, [0x20, 0x68, 0x61, 0x73], rest, 0x7361_6820, 3151469056);
    BlockStep(2925710799, [0x6c, 0x6c, 0x6f, 0x2c], [0x20, 0x68, 0x61, 0x73] + rest, 0x2c6f_6c6c, 186731704);
    BlockStep(2513851853, [0x72, 0x33, 0x68, 0x65], [0x6c, 0x6c, 0x6f, 0x2c] + ([0x20, 0x68, 0x61, 0x73] + rest), 0x6568_3372, 2925710799);
  }

  /** Seed 5 and "hello, murmur3" give 4015002046. */
  lemma KnownAnswer()
    ensures Murmur3(5, Hello) == 4015002046
  {
    HelloSplit();
    HelloBlocks([0x72, 0x33]);
    TailStep(2513851853, [0x72, 0x33], 14, 0x3372, 368789420, 4015002046);
  }

  /** Seed 5 and "hello, murmur3" followed by "hello, hash" give
      3535845019. */
  lemma KnownAnswerAppended()
    ensures Murmur3(5, Hello + HelloHash) == 3535845019
  {
    AppendedSplit();
    HelloBlocks([0x72, 0x33, 0x68, 0x65] + ([0x6c, 0x6c, 0x6f, 0x2c] + ([0x20, 0x68, 0x61, 0x73] + [0x68])));
    AppendedBlocks([0x68]);
    TailStep(3151469056, [0x68], 25, 0x68, 2578746867, 3535845019);
  }

  /** `TestSum`: one write, then `Sum(nil)`. */
  method TestSum() returns (got: seq<bv8>)
    ensures got == [0xef, 0x50, 0x11, 0xbe]
  {
    var h := new Digest32(5);
    var _ := h.Write(Hello);
    assert h.fed == Hello;
    KnownAnswer();
    got := h.Sum([]);
  }

  /** `TestSumWithAppend`: two writes, then `Sum(nil)`. */
  method TestSumWithAppend() returns (got: seq<bv8>)
    ensures got == [0xd2, 0xc0, 0xb6, 0x9b]
  {
    var h := new Digest32(5);
    var _ := h.Write(Hello);
    var _ := h.Write(HelloHash);
    assert h.fed == Hello + HelloHash;
    KnownAnswerAppended();
    got := h.Sum([]);
  }

  /** `TestSum32`: one write, then `Sum32()`. */
  method TestSum32() returns (got: bv32)
    ensures got == 4015002046
  {
    var h := new Digest32(5);
    var _ := h.Write(Hello);
    assert h.fed == Hello;
    KnownAnswer();
    got := h.Sum32();
  }
}
