/**
 * The Bloom filter of bloom.go: an array of `m` bits and `k` MurmurHash3
 * hashers, hasher `i` seeded with `i`.  Adding a key sets, for every
 * hasher, the bit at the key's digest modulo `m`; a key is reported
 * present when all of those bits are set.
 *
 * The pure part of the module states what the bit array is after a
 * sequence of additions and when a key is reported present; the class
 * `Filter` is the Go `Bloom`, proved against it.
 */
module Bloom {
  import Murmur

  // ---------------------------------------------------------------------
  // Specification
  // ---------------------------------------------------------------------

  /** The bit that hasher `i`, seeded with `uint32(i)`, selects for `key`
      in a filter of `m` bits: the digest, read as a non-negative integer,
      modulo `m`. */
  function BitIndex(m: nat, i: nat, key: seq<bv8>): (idx: nat)
    requires m > 0
    ensures idx < m
  {
    (Murmur.Murmur3(Murmur.Low32(i), key) as int) % m
  }

  /** The bits the first `k` hashers select for `key`, hasher 0 first. */
  function Indices(m: nat, k: nat, key: seq<bv8>): (s: seq<nat>)
    requires m > 0
    ensures |s| == k && InRange(s, m)
    decreases k
  {
    if k == 0 then [] else Indices(m, k - 1, key) + [BitIndex(m, k - 1, key)]
  }

  /** Every index of `idxs` names a bit of an array of `m` bits. */
  predicate InRange(idxs: seq<nat>, m: nat) {
    forall j | 0 <= j < |idxs| :: idxs[j] < m
  }

  /** `bits` with the bits at `idxs` set, one after the other. */
  function SetAll(bits: seq<bool>, idxs: seq<nat>): (r: seq<bool>)
    requires InRange(idxs, |bits|)
    ensures |r| == |bits|
    decreases |idxs|
  {
    if idxs == [] then bits else SetAll(bits, idxs[..|idxs| - 1])[idxs[|idxs| - 1] := true]
  }

  /** Whether every bit at `idxs` is set. */
  predicate AllSet(bits: seq<bool>, idxs: seq<nat>)
    requires InRange(idxs, |bits|)
  {
    forall j | 0 <= j < |idxs| :: bits[idxs[j]]
  }

  /** The bits after adding `key`: every bit its hashers select set. */
  function AddKey(bits: seq<bool>, k: nat, key: seq<bv8>): (r: seq<bool>)
    requires |bits| > 0
    ensures |r| == |bits|
  {
    SetAll(bits, Indices(|bits|, k, key))
  }

  /** The bits after adding every key of `keys`, first to last. */
  function AddAll(bits: seq<bool>, k: nat, keys: seq<seq<bv8>>): (r: seq<bool>)
    requires |bits| > 0
    ensures |r| == |bits|
    decreases |keys|
  {
    if keys == [] then bits else AddAll(AddKey(bits, k, keys[0]), k, keys[1..])
  }

  /** Whether `key` is reported present: every bit that one of the `k`
      hashers selects for it is set. */
  predicate InFilter(bits: seq<bool>, k: nat, key: seq<bv8>)
    requires |bits| > 0
  {
    AllSet(bits, Indices(|bits|, k, key))
  }

  // ---------------------------------------------------------------------
  // Properties of the specification
  // ---------------------------------------------------------------------

  /** Setting the bits at `idxs` sets exactly those and keeps the others
      as they were. */
  lemma {:induction false} SetAllExactly(bits: seq<bool>, idxs: seq<nat>, j: nat)
    requires InRange(idxs, |bits|) && j < |bits|
    ensures SetAll(bits, idxs)[j] == (bits[j] || j in idxs)
    decreases |idxs|
  {
    if idxs != [] {
      var init := idxs[..|idxs| - 1];
      SetAllExactly(bits, init, j);
      assert idxs == init + [idxs[|idxs| - 1]];
    }
  }

  /** Setting bits never clears one. */
  lemma SetAllNeverClears(bits: seq<bool>, idxs: seq<nat>)
    requires InRange(idxs, |bits|)
    ensures forall j | 0 <= j < |bits| && bits[j] :: SetAll(bits, idxs)[j]
  {
    forall j | 0 <= j < |bits| && bits[j]
      ensures SetAll(bits, idxs)[j]
    {
      SetAllExactly(bits, idxs, j);
    }
  }

  /** Once set, the bits at `idxs` are all set. */
  lemma SetAllThenAllSet(bits: seq<bool>, idxs: seq<nat>)
    requires InRange(idxs, |bits|)
    ensures AllSet(SetAll(bits, idxs), idxs)
  {
    forall j | 0 <= j < |idxs|
      ensures SetAll(bits, idxs)[idxs[j]]
    {
      SetAllExactly(bits, idxs, idxs[j]);
    }
  }

  /** Adding a key sets exactly the bits its hashers select: no other bit
      changes. */
  lemma AddKeyExactly(bits: seq<bool>, k: nat, key: seq<bv8>, j: nat)
    requires |bits| > 0 && j < |bits|
    ensures AddKey(bits, k, key)[j] == (bits[j] || j in Indices(|bits|, k, key))
  {
    SetAllExactly(bits, Indices(|bits|, k, key), j);
  }

  /** Adding a key never clears a bit. */
  lemma AddNeverClears(bits: seq<bool>, k: nat, key: seq<bv8>)
    requires |bits| > 0
    ensures forall j | 0 <= j < |bits| && bits[j] :: AddKey(bits, k, key)[j]
  {
    SetAllNeverClears(bits, Indices(|bits|, k, key));
  }

  /** A key just added is reported present. */
  lemma AddThenContains(bits: seq<bool>, k: nat, key: seq<bv8>)
    requires |bits| > 0
    ensures InFilter(AddKey(bits, k, key), k, key)
  {
    SetAllThenAllSet(bits, Indices(|bits|, k, key));
  }

  /** Adding another key keeps every key that was present present. */
  lemma AddKeepsPresent(bits: seq<bool>, k: nat, key: seq<bv8>, other: seq<bv8>)
    requires |bits| > 0 && InFilter(bits, k, key)
    ensures InFilter(AddKey(bits, k, other), k, key)
  {
    AddNeverClears(bits, k, other);
  }

  /** Any sequence of additions keeps a present key present. */
  lemma {:induction false} PresentStaysPresent(bits: seq<bool>, k: nat, key: seq<bv8>, later: seq<seq<bv8>>)
    requires |bits| > 0 && InFilter(bits, k, key)
    ensures InFilter(AddAll(bits, k, later), k, key)
    decreases |later|
  {
    if later != [] {
      AddKeepsPresent(bits, k, key, later[0]);
      PresentStaysPresent(AddKey(bits, k, later[0]), k, key, later[1..]);
    }
  }

  /** No false negatives: once added, a key is reported present after
      any further additions. */
  lemma NoFalseNegatives(bits: seq<bool>, k: nat, key: seq<bv8>, later: seq<seq<bv8>>)
    requires |bits| > 0
    ensures InFilter(AddAll(AddKey(bits, k, key), k, later), k, key)
  {
    AddThenContains(bits, k, key);
    PresentStaysPresent(AddKey(bits, k, key), k, key, later);
  }

  /** With no hashers, adding changes nothing and every key is reported
      present. */
  lemma NoHashers(bits: seq<bool>, key: seq<bv8>)
    requires |bits| > 0
    ensures AddKey(bits, 0, key) == bits && InFilter(bits, 0, key)
  {
  }

  /** Hasher `i` selects the bit `BitIndex(m, i, key)`. */
  lemma {:induction false} IndicesAt(m: nat, k: nat, key: seq<bv8>, i: nat)
    requires m > 0 && i < k
    ensures Indices(m, k, key)[i] == BitIndex(m, i, key)
    decreases k
  {
    var init := Indices(m, k - 1, key);
    assert Indices(m, k, key) == init + [BitIndex(m, k - 1, key)];
    if i < k - 1 {
      IndicesAt(m, k - 1, key, i);
      assert (init + [BitIndex(m, k - 1, key)])[i] == init[i];
    }
  }

  /** A bit is among the selected ones exactly when some hasher selects
      it. */
  lemma IndicesMeans(m: nat, k: nat, key: seq<bv8>, j: nat)
    requires m > 0
    ensures j in Indices(m, k, key) <==> exists i | 0 <= i < k :: BitIndex(m, i, key) == j
  {
    var s := Indices(m, k, key);
    if j in s {
      var p :| 0 <= p < |s| && s[p] == j;
      IndicesAt(m, k, key, p);
    }
    if exists i | 0 <= i < k :: BitIndex(m, i, key) == j {
      var i :| 0 <= i < k && BitIndex(m, i, key) == j;
      IndicesAt(m, k, key, i);
    }
  }

  /** A key is reported present exactly when the bit each hasher selects
      for it is set. */
  lemma InFilterMeans(bits: seq<bool>, k: nat, key: seq<bv8>)
    requires |bits| > 0
    ensures InFilter(bits, k, key) <==> forall i | 0 <= i < k :: bits[BitIndex(|bits|, i, key)]
  {
    if InFilter(bits, k, key) {
      forall i | 0 <= i < k
        ensures bits[BitIndex(|bits|, i, key)]
      {
        IndicesAt(|bits|, k, key, i);
      }
    }
    if !InFilter(bits, k, key) {
      var s := Indices(|bits|, k, key);
      var p :| 0 <= p < |s| && !bits[s[p]];
      IndicesAt(|bits|, k, key, p);
    }
  }

  /** Setting one more bit after a run of bits. */
  lemma SetAllSnoc(bits: seq<bool>, idxs: seq<nat>, x: nat)
    requires InRange(idxs, |bits|) && x < |bits|
    ensures InRange(idxs + [x], |bits|)
    ensures SetAll(bits, idxs + [x]) == SetAll(bits, idxs)[x := true]
  {
    assert (idxs + [x])[..|idxs|] == idxs;
  }

  /** One more set bit extends a run of set bits. */
  lemma AllSetSnoc(bits: seq<bool>, idxs: seq<nat>, x: nat)
    requires InRange(idxs, |bits|) && x < |bits|
    ensures InRange(idxs + [x], |bits|)
    ensures AllSet(bits, idxs + [x]) == (AllSet(bits, idxs) && bits[x])
  {
    assert (idxs + [x])[|idxs|] == x;
    assert forall j | 0 <= j < |idxs| :: (idxs + [x])[j] == idxs[j];
  }

  /** A clear bit that one of the hashers selects means the key is not
      reported present. */
  lemma ClearBitAbsent(bits: seq<bool>, k: nat, key: seq<bv8>, i: nat)
    requires |bits| > 0 && i < k && !bits[BitIndex(|bits|, i, key)]
    ensures !InFilter(bits, k, key)
  {
    IndicesAt(|bits|, k, key, i);
  }

  // ---------------------------------------------------------------------
  // The filter
  // ---------------------------------------------------------------------

  /** Go's `Bloom`: `bits` of length `m` and `k` hashers.  The hashers are
      shared objects: `Add` and `Contains` reset and feed them. */
  class Filter {
    const m: nat
    const k: nat
    const bits: array<bool>
    const hashes: seq<Murmur.Digest32>

    ghost predicate Valid() {
      bits.Length == m && |hashes| == k &&
      forall i | 0 <= i < k :: hashes[i].seed == Murmur.Low32(i)
    }

    /** `New` with the sizes given: all bits clear, hasher `i` seeded
        with `i`. */
    constructor (m: nat, k: nat)
      ensures Valid() && this.m == m && this.k == k
      ensures fresh(bits) && bits[..] == seq(m, _ => false)
      ensures forall i | 0 <= i < k :: fresh(hashes[i])
    {
      var hs: seq<Murmur.Digest32> := [];
      var i := 0;
      while i < k
        invariant i <= k && |hs| == i
        invariant forall j | 0 <= j < i :: hs[j].seed == Murmur.Low32(j) && fresh(hs[j])
      {
        var d := new Murmur.Digest32(Murmur.Low32(i));
        hs := hs + [d];
        i := i + 1;
      }
      this.m := m;
      this.k := k;
      bits := new bool[m](_ => false);
      hashes := hs;
    }

    /** The index hasher `i` yields for `key`: reset, write, sum, modulo
        `m`.  Because of the reset it depends only on the seed, the key
        and `m`, never on earlier calls. */
    method IndexOf(i: nat, key: seq<bv8>) returns (idx: nat)
      requires Valid() && m > 0 && i < k
      modifies hashes[i]
      ensures idx == BitIndex(m, i, key)
    {
      var h := hashes[i];
      h.Reset();
      var _ := h.Write(key);
      assert h.fed == key;
      var sum := h.Sum32();
      idx := (sum as int) % m;
    }

    /** Sets, for every hasher, the bit it selects for `key`. */
    method Add(key: seq<bv8>)
      requires Valid() && m > 0
      modifies bits, hashes
      ensures bits[..] == AddKey(old(bits[..]), k, key)
    {
      ghost var before := bits[..];
      var i := 0;
      while i < |hashes|
        invariant i <= k
        invariant bits[..] == SetAll(before, Indices(m, i, key))
      {
        var idx := IndexOf(i, key);
        SetAllSnoc(before, Indices(m, i, key), idx);
        bits[idx] := true;
        i := i + 1;
      }
    }

    /** Whether every bit selected for `key` is set; stops at the first
        clear one.  The bits are not modified. */
    method Contains(key: seq<bv8>) returns (r: bool)
      requires Valid() && m > 0
      modifies hashes
      ensures r == InFilter(bits[..], k, key)
      ensures bits[..] == old(bits[..])
    {
      ghost var b := bits[..];
      var i := 0;
      while i < |hashes|
        invariant i <= k && bits[..] == b
        invariant AllSet(b, Indices(m, i, key))
      {
        var idx := IndexOf(i, key);
        AllSetSnoc(b, Indices(m, i, key), idx);
        if !bits[idx] {
          ClearBitAbsent(b, k, key, i);
          return false;
        }
        i := i + 1;
      }
      return true;
    }
  }
}
