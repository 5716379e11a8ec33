# Bloom filter over MurmurHash3, in Dafny

This project models the two components of a small Go Bloom filter library and
proves properties of them:

- **`murmur/murmur.go`** is a streaming MurmurHash3 x86_32 accumulator
  (`digest32`). It keeps a running 32-bit state `h`, the number of bytes fed
  `len`, and a `tail` of 0 to 3 bytes that are not yet mixed. `Write` accepts
  the input in any number of chunks. `Sum32` finalises a copy of the state:
  it mixes in the tail, then the length truncated to 32 bits, then applies
  the fmix32 avalanche. `Sum` appends that digest to a byte slice, most
  significant byte first.
- **`bloom.go`** is the filter (`Bloom`). It is an array of `m` bits and `k`
  hashers, and hasher `i` is seeded with `i`. `Add` resets every hasher,
  feeds it the key and sets the bit at the digest modulo `m`. `Contains`
  checks the same bits and stops at the first clear one.

The pure specification in each module is written as functions:

- `Murmur.Murmur3(seed, data)` is the digest of a whole byte string. It folds
  `Mix` over the little-endian 4-byte blocks, then applies `Finish`.
- `Bloom.AddKey`, `Bloom.AddAll` and `Bloom.InFilter` give the bit array after
  additions, and whether a key is reported present.

The Go objects are Dafny classes, and their methods are proved against those
functions:

- `Murmur.Digest32` keeps the invariant `Valid()`. It says that `h`, `len` and
  `tail` are exactly what the specification gives for the bytes fed since the
  last reset, which are held in the ghost field `fed`.
- `Bloom.Filter` holds its bits in an `array<bool>` that `Add` updates in
  place.

Bytes are `bv8` and words are `bv32`, so Go's `uint32` wrap-around is exact.
The length counter is a Go `int`, modelled as an unbounded `nat`. It is
hashed as `uint32(d.len)`, which is written out as `Murmur.Low32`; the same
function gives hasher `i` its seed `uint32(i)`. The bit index
`int(h.Sum32()) % b.m` is taken on the digest as a non-negative integer.
`bloom.go` accepts `k = 0`, and then `Add` changes no bit and `Contains`
reports every key present (`Bloom.NoHashers`).

The test files are modelled as well, in `murmur_test.dfy` and
`bloom_test.dfy`. Their expected values are proved about the model: the
digests 4015002046 and 3535845019, and the membership answers of the two
filter tests.

## Model

| member | source | states |
|---|---|---|
| Murmur.Digest32.constructor | murmur/murmur.go:26-31 | `New32WithSeed`: the new digest is already reset: `h` is the seed, `len` is 0, the tail is empty and the invariant holds for the empty input |
| Murmur.Digest32.Reset | murmur/murmur.go:81-85 | `h` becomes the seed, `len` becomes 0 and `tail` becomes empty, from any state; the invariant is re-established for the empty input |
| Murmur.Digest32.Hash | murmur/murmur.go:54-74 | the block loop leaves `h` equal to the old state folded through the mixing step (`*c1`, rotate left 15, `*c2`, xor, rotate left 13, `*5 + 0xe6546b64`, all mod 2^32) over every complete block of `p`; it returns exactly the 0 to 3 leftover bytes; only `h` changes |
| Murmur.Digest32.Write | murmur/murmur.go:33-52 | returns `n == len(p)` and adds exactly `len(p)` to `len`; on every branch (top up and mix a pending tail, or buffer it in front of the new bytes) the new state is the specification's state for everything fed since the reset followed by `p`, and `tail` has fewer than 4 bytes |
| Murmur.Digest32.TailIsLastBytes | murmur/murmur.go:37-49 | in every valid state, so after every `Write`, `tail` is exactly the last `len % 4` bytes fed since the reset |
| Murmur.Digest32.Sum32 | murmur/murmur.go:95-123 | returns `Murmur3(seed, fed)`: the MurmurHash3 x86_32 digest of everything fed since the reset; it has no `modifies` clause, so `h`, `len` and `tail` are unchanged |
| Murmur.Digest32.Sum | murmur/murmur.go:76-79 | returns `b` followed by the 4 big-endian bytes of the digest; the prefix is `b` unchanged and the appended bytes decode back to the digest |
| Murmur.TailKey | murmur/murmur.go:97-107 | the `switch` with `fallthrough` on 1 to 3 tail bytes builds the same key as the tail padded with zero bytes and read little-endian |
| Murmur.Finalize | murmur/murmur.go:96-121 | the body of `Sum32` equals the specification's finalisation: the tail key is scrambled and xored in only when the tail is non-empty, then the length mod 2^32 is xored in, then the avalanche is applied |
| Murmur.HashBlocksAppend | murmur/murmur.go:57-69 | folding over a whole-block prefix and then over the rest gives the same state as folding over the concatenation |
| Murmur.TailAppend | murmur/murmur.go:57-73 | the leftover of a concatenation whose prefix is whole blocks is the leftover of the suffix |
| Murmur.TailIsSuffix | murmur/murmur.go:57-73 | the leftover bytes are the last `len % 4` bytes of the input |
| Murmur.WholeBlocksOnly | murmur/murmur.go:54-73 | an input is its whole blocks followed by its leftover, and the leftover does not change the running state |
| Murmur.TopUpThenBlocks | murmur/murmur.go:37-43 | the `free < len(p)` branch of `Write`: mixing the topped-up tail block and then the remaining new bytes gives the state and leftover of the whole input |
| Murmur.BufferedThenBlocks | murmur/murmur.go:44-49 | the other branch, and the case with no pending tail: hashing the tail followed by the new bytes gives the state and leftover of the whole input |
| Murmur.BigEndianRoundTrip | murmur/murmur.go:78 | the four bytes `Sum` appends, read most significant first, give back the digest |
| Murmur.ChunkedWrites | murmur/murmur.go:33-52 | a digest fed `a` and then `b` gives the same `Sum32` as one fed `a + b`, for every split point, and both equal `Murmur3(seed, a + b)` |
| Murmur.SumBetweenWrites | murmur/murmur.go:95-123 | two `Sum32` calls in a row return the same value, and a later `Write` carries on as though they had not been made |
| MurmurTest.KnownAnswer | murmur/murmur_test.go:41-53 | seed 5 with "hello, murmur3" gives 4015002046 |
| MurmurTest.KnownAnswerAppended | murmur/murmur_test.go:25-39 | seed 5 with "hello, murmur3" followed by "hello, hash" gives 3535845019 |
| MurmurTest.TestSum | murmur/murmur_test.go:9-23 | a digest with seed 5 fed "hello, murmur3" gives `Sum(nil)` equal to the big-endian bytes of 4015002046 |
| MurmurTest.TestSumWithAppend | murmur/murmur_test.go:25-39 | a digest with seed 5 fed "hello, murmur3" and then "hello, hash" gives `Sum(nil)` equal to the big-endian bytes of 3535845019 |
| MurmurTest.TestSum32 | murmur/murmur_test.go:41-53 | a digest with seed 5 fed "hello, murmur3" gives `Sum32()` equal to 4015002046 |
| Bloom.BitIndex | bloom.go:48 | the index hasher `i` selects for a key is a valid bit position, below `m` |
| Bloom.Indices | bloom.go:57-60 | the indices one pass over the hashers selects: exactly `k` of them, each below `m` |
| Bloom.IndicesAt | bloom.go:45-48 | entry `i` of the selected indices is the digest of the key with seed `i`, modulo `m` |
| Bloom.IndicesMeans | bloom.go:57-61 | a bit is among the selected ones if and only if some hasher `i < k` selects it |
| Bloom.SetAllExactly | bloom.go:61 | after setting the bits at a list of indices, a bit is true if and only if it was true before or its index is in the list |
| Bloom.AddKeyExactly | bloom.go:56-63 | adding a key sets exactly the bits its hashers select and leaves every other bit as it was |
| Bloom.AddNeverClears | bloom.go:61 | adding a key never clears a bit: every bit true before is true after |
| Bloom.AddThenContains | bloom.go:44-63 | right after a key is added, it is reported present |
| Bloom.AddKeepsPresent | bloom.go:56-63 | adding any other key keeps a present key present |
| Bloom.PresentStaysPresent | bloom.go:56-63 | any sequence of further additions keeps a present key present |
| Bloom.NoFalseNegatives | bloom.go:44-63 | a key that was added is reported present after any sequence of further additions |
| Bloom.NoHashers | bloom.go:44-53 | with `k == 0`, adding changes no bit and every key is reported present |
| Bloom.ClearBitAbsent | bloom.go:49-51 | if any hasher selects a clear bit, the key is not reported present (the early `return false`) |
| Bloom.InFilterMeans | bloom.go:44-54 | a key is reported present if and only if, for every hasher `i < k`, the bit it selects is set |
| Bloom.Filter.constructor | bloom.go:17-34 | `New` with `m` and `k` given: a fresh array of `m` clear bits and exactly `k` fresh hashers, hasher `i` seeded with `uint32(i)` |
| Bloom.Filter.IndexOf | bloom.go:46-48 | resetting hasher `i`, feeding it the key and taking `Sum32` modulo `m` yields `BitIndex(m, i, key)`: it depends only on the seed, the key and `m`, never on earlier calls |
| Bloom.Filter.Add | bloom.go:56-63 | the new bits are the old bits with every bit the key's hashers select set (`AddKey`); `m`, `k`, the bit array and the hasher list are constants, and only the hashers' scratch state changes, which every later use resets first |
| Bloom.Filter.Contains | bloom.go:44-54 | returns true if and only if every bit the key's hashers select is set (`InFilter`), and leaves the bits unchanged |
| BloomTest.AddFourLookUpFive | bloom_test.go:12-37 | for any `m > 0`, `k` and keys: a new filter with four keys added answers each of the five lookups as the specification gives for the bits after the four additions |
| BloomTest.FourThenAbsent | bloom_test.go:14-37 | in an empty filter of 416 bits with 2 hashers, after four keys are added, all four are present, and a fifth key is absent when none of the four selects its first bit |
| BloomTest.TestString | bloom_test.go:9-38 | with 416 bits and 2 hashers (what `New(100, 0.01)` yields), after "cfkuouhbuq", "cawakensvd", "wtpyceapwn" and "ehnfcuxuqu" are added, all four are reported present and "zxfinprwoo" absent |
| BloomTest.TestUint32 | bloom_test.go:40-75 | with 416 bits and 2 hashers, after 100 to 103 are added as 4-byte big-endian keys, all four are reported present and 104 absent |

## Left out

- `calculateM` / `calculateK` (bloom.go:36-42) use float64 logarithms and truncating conversions. The filter takes `m` and `k` directly. The test filters use 416 and 2, which is what `New(100, 0.01)` computes.
- The field `n` of `Bloom` is only stored and never read, so it is not modelled.
- Serialization (`WriteTo` / `ReadFrom`), any union operation, and `TestPersistence` with its file I/O are left out. No source for these operations is part of this model.
- `Size` / `BlockSize` are not modelled: they only return constants. The `hash.Hash32` interface plumbing is not modelled either: the filter holds the concrete `Murmur.Digest32` class.
- Go slice aliasing is not modelled: `append(d.tail, …)` may write into a caller's backing array, and `tail` may share the caller's buffer. Bytes are immutable `seq<bv8>` values.
- Murmur.Digest32.Write: the error result, which is always nil, has no counterpart.
- Murmur.Digest32.Write: does not model overflow of Go's `int` length counter, which is unbounded here. Only its truncation to 32 bits in `Sum32` is modelled.
- Bloom.Filter.IndexOf: the index is the digest as a non-negative integer modulo `m`. A platform with 32-bit `int` can give a negative `int(h.Sum32())` and then a panic, which is not modelled.
- Bloom.Filter.Add: requires `m > 0`, because Go's `% b.m` panics on zero whenever there is a hasher. The harmless case `m == 0` with `k == 0` is excluded as well.
- Bloom.Filter.Contains: requires `m > 0`, for the same reason as `Add`.
- Concurrency: the code has none, and a filter is not safe for concurrent use.
- False-positive rates: these claims are probabilistic, not a contract.
