/** The chunking encoder of the BLE write path: how an outbound MAVLink buffer is
    copied and split into fragments no longer than the negotiated chunk size. */
module Chunking {

  type Byte = bv8

  /** The slices the loop in enqueueBleWrite appends, in order: starting at offset 0,
      each slice takes min(n, bytes left) bytes. */
  function Chunk(p: seq<Byte>, n: nat): (fs: seq<seq<Byte>>)
    requires n >= 1
    decreases |p|
  {
    if |p| == 0 then []
    else
      var c := if n < |p| then n else |p|;
      [p[..c]] + Chunk(p[c..], n)
  }

  /** One turn of the loop in enqueueBleWrite: from offset, the next fragment is the
      min(n, bytes left) bytes there, and the rest of the fragments start after it. */
  lemma ChunkFrom(p: seq<Byte>, offset: nat, n: nat)
    requires n >= 1 && offset < |p|
    ensures var c := if n < |p| - offset then n else |p| - offset;
      Chunk(p[offset..], n) == [p[offset..offset + c]] + Chunk(p[offset + c..], n)
  {
    var c := if n < |p| - offset then n else |p| - offset;
    assert p[offset..][..c] == p[offset..offset + c];
    assert p[offset..][c..] == p[offset + c..];
  }

  /** In-order concatenation of fragments: what the peer reassembles. */
  function Flatten(fs: seq<seq<Byte>>): seq<Byte>
  {
    if fs == [] then [] else fs[0] + Flatten(fs[1..])
  }

  /** fs is a split of p into pieces of exactly n bytes, except a last piece of 1..n bytes. */
  ghost predicate IsSplit(fs: seq<seq<Byte>>, p: seq<Byte>, n: nat)
  {
    && Flatten(fs) == p
    && (forall i :: 0 <= i < |fs| ==> 1 <= |fs[i]| <= n)
    && (forall i :: 0 <= i < |fs| - 1 ==> |fs[i]| == n)
  }

  lemma {:induction false} FlattenAppend(a: seq<seq<Byte>>, b: seq<seq<Byte>>)
    ensures Flatten(a + b) == Flatten(a) + Flatten(b)
  {
    if a == [] {
      assert a + b == b;
    } else {
      assert (a + b)[1..] == a[1..] + b;
      FlattenAppend(a[1..], b);
    }
  }

  /** Round trip: concatenating the fragments in emitted order gives back the payload. */
  lemma {:induction false} ChunkFlatten(p: seq<Byte>, n: nat)
    requires n >= 1
    ensures Flatten(Chunk(p, n)) == p
    decreases |p|
  {
    if |p| > 0 {
      var c := if n < |p| then n else |p|;
      ChunkFlatten(p[c..], n);
      assert Chunk(p, n)[1..] == Chunk(p[c..], n);
      assert p[..c] + p[c..] == p;
    }
  }

  /** Every fragment is non-empty and at most n bytes; all but the last are exactly n. */
  lemma {:induction false} ChunkSizes(p: seq<Byte>, n: nat)
    requires n >= 1
    ensures forall i :: 0 <= i < |Chunk(p, n)| ==> 1 <= |Chunk(p, n)[i]| <= n
    ensures forall i :: 0 <= i < |Chunk(p, n)| - 1 ==> |Chunk(p, n)[i]| == n
    decreases |p|
  {
    if |p| > 0 {
      var c := if n < |p| then n else |p|;
      ChunkSizes(p[c..], n);
      var fs := Chunk(p, n);
      assert fs == [p[..c]] + Chunk(p[c..], n);
      forall i | 0 <= i < |fs|
        ensures 1 <= |fs[i]| <= n
        ensures i < |fs| - 1 ==> |fs[i]| == n
      {
        if i > 0 {
          assert fs[i] == Chunk(p[c..], n)[i - 1];
        } else if |fs| > 1 {
          assert c == n;
        }
      }
    }
  }

  /** The fragment count is the ceiling of |p| / n, stated without division. */
  lemma {:induction false} ChunkCountBounds(p: seq<Byte>, n: nat)
    requires n >= 1
    ensures (|Chunk(p, n)| - 1) * n < |p| <= |Chunk(p, n)| * n
    decreases |p|
  {
    if |p| > 0 {
      var c := if n < |p| then n else |p|;
      ChunkCountBounds(p[c..], n);
      var k := |Chunk(p[c..], n)|;
      assert |Chunk(p, n)| == k + 1;
      if n < |p| {
        assert (k + 1) * n == k * n + n;
        assert k * n == (k - 1) * n + n;
      } else {
        assert k == 0;
      }
    }
  }

  lemma MulCancel(a: int, b: int, n: int)
    requires n >= 1 && a * n < b * n
    ensures a < b
  {
  }

  lemma CeilUnique(len: nat, n: nat, k: int)
    requires n >= 1
    requires (k - 1) * n < len <= k * n
    ensures k == (len + n - 1) / n
  {
    var q := (len + n - 1) / n;
    var r := (len + n - 1) % n;
    assert len + n - 1 == q * n + r && 0 <= r < n;
    assert k * n == (k - 1) * n + n;
    assert (q + 1) * n == q * n + n;
    MulCancel(k, q + 1, n);
    assert (k + 1) * n == k * n + n;
    MulCancel(q, k + 1, n);
  }

  /** A buffer of L bytes is sent as ceil(L / n) fragments. */
  lemma ChunkCount(p: seq<Byte>, n: nat)
    requires n >= 1
    ensures |Chunk(p, n)| == (|p| + n - 1) / n
  {
    ChunkCountBounds(p, n);
    CeilUnique(|p|, n, |Chunk(p, n)|);
  }

  /** Chunk is the only split into full n-byte pieces plus a shorter last piece:
      any fragment sequence with those sizes that reassembles to p is Chunk(p, n). */
  lemma {:induction false} SplitIsChunk(fs: seq<seq<Byte>>, p: seq<Byte>, n: nat)
    requires n >= 1
    requires IsSplit(fs, p, n)
    ensures fs == Chunk(p, n)
    decreases |fs|
  {
    if fs == [] {
      assert p == [];
    } else {
      var rest := fs[1..];
      assert Flatten(fs) == fs[0] + Flatten(rest);
      assert IsSplit(rest, p[|fs[0]|..], n) by {
        assert p[|fs[0]|..] == Flatten(rest);
        forall i | 0 <= i < |rest| ensures 1 <= |rest[i]| <= n {
          assert rest[i] == fs[i + 1];
        }
        forall i | 0 <= i < |rest| - 1 ensures |rest[i]| == n {
          assert rest[i] == fs[i + 1];
        }
      }
      SplitIsChunk(rest, p[|fs[0]|..], n);
      var c := if n < |p| then n else |p|;
      if |fs| == 1 {
        assert Flatten(rest) == [];
        assert p == fs[0];
        assert c == |p|;
      } else {
        assert |fs[0]| == n;
        ChunkSizes(p[n..], n);
        assert Chunk(p[n..], n) == rest;
        assert |Flatten(rest)| > 0 by {
          assert |rest[0]| >= 1;
          assert [rest[0]] + rest[1..] == rest;
          FlattenAppend([rest[0]], rest[1..]);
          assert Flatten([rest[0]]) == rest[0] + Flatten([]);
        }
        assert c == n;
      }
      assert fs[0] == p[..c];
      assert fs == [p[..c]] + Chunk(p[c..], n);
    }
  }

  /** Arrays.copyOf(data, length): the first `length` bytes of data, padded with zero
      bytes when length exceeds the array. */
  function CopyOf(data: seq<Byte>, length: nat): (r: seq<Byte>)
    ensures |r| == length
    ensures forall i :: 0 <= i < length && i < |data| ==> r[i] == data[i]
    ensures forall i :: |data| <= i < length ==> r[i] == 0
  {
    if length <= |data| then data[..length]
    else data + seq(length - |data|, _ => 0)
  }
}
