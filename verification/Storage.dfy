/** Bytes, files, digests. */
module Storage {
  import opened Names

  newtype Byte = x: int | 0 <= x < 256
  type Bytes = seq<Byte>
  type Files = map<Name, Bytes>

  /** The digest is left uninterpreted; the code relies only on its never being the empty string. */
  type Digest = h: Bytes -> string | forall b :: h(b) != "" witness (b: Bytes) => "d"

  /** Block counts the 32-bit loop counters of `build` and `clear` can count to; the handler refuses 0. */
  type BlockCount = n: nat | 1 <= n <= MAX_BLOCKS witness 1

  const MAX_BLOCKS: nat := 0xFFFF_FFFF

  function Zeros(n: nat): (z: Bytes)
    ensures |z| == n
  {
    seq(n, _ => 0)
  }

  /** Content of a file after a stream positioned at pos has written data: a gap is filled with zeros. */
  function WriteAt(f: Bytes, pos: nat, data: Bytes): (g: Bytes)
    ensures data != [] ==> |g| == if pos + |data| <= |f| then |f| else pos + |data|
    ensures data == [] ==> g == f
    ensures forall k | 0 <= k < |data| :: pos + k < |g| && g[pos + k] == data[k]
    ensures forall k | 0 <= k < |f| && !(pos <= k < pos + |data|) :: k < |g| && g[k] == f[k]
    ensures data != [] ==> forall k | |f| <= k < pos :: g[k] == 0
  {
    if data == [] then f
    else
      var padded := if |f| < pos then f + Zeros(pos - |f|) else f;
      padded[..pos] + data + if pos + |data| <= |padded| then padded[pos + |data|..] else []
  }

  function Concat(bs: seq<Bytes>): Bytes {
    if bs == [] then [] else bs[0] + Concat(bs[1..])
  }

  lemma {:induction false} ConcatAppend(bs: seq<Bytes>, b: Bytes)
    ensures Concat(bs + [b]) == Concat(bs) + b
  {
    if bs == [] {
      assert (bs + [b])[1..] == [];
    } else {
      ConcatAppend(bs[1..], b);
      assert (bs + [b])[1..] == bs[1..] + [b];
    }
  }

  lemma {:induction false} ConcatSplit(bs: seq<Bytes>, k: nat)
    requires k <= |bs|
    ensures Concat(bs) == Concat(bs[..k]) + Concat(bs[k..])
  {
    if k == 0 {
      assert bs[..k] == [] && bs[k..] == bs;
    } else {
      ConcatSplit(bs[1..], k - 1);
      assert bs[..k][1..] == bs[1..][..k - 1] && bs[k..] == bs[1..][k - 1..];
    }
  }

  /** Where block k lies inside the whole: it starts after the blocks before it. */
  lemma BlockSpan(bs: seq<Bytes>, k: nat)
    requires k < |bs|
    ensures |Concat(bs[..k + 1])| == |Concat(bs[..k])| + |bs[k]| <= |Concat(bs)|
    ensures Concat(bs)[|Concat(bs[..k])|..|Concat(bs[..k + 1])|] == bs[k]
  {
    assert bs[..k + 1] == bs[..k] + [bs[k]];
    ConcatAppend(bs[..k], bs[k]);
    ConcatSplit(bs, k + 1);
  }
}
