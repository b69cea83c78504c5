/** The block store of one upload session, as functions of the digests recorded and of the directory. */
module BlockStore {
  import opened Names
  import opened Storage

  /** The digest vector of a new builder. */
  function Blank(n: nat): (hs: seq<string>)
    ensures |hs| == n && forall i | 0 <= i < n :: hs[i] == ""
  {
    seq(n, _ => "")
  }

  predicate AllSet(hs: seq<string>) {
    forall i | 0 <= i < |hs| :: hs[i] != ""
  }

  /** The number `is_ready` compares with the total. */
  function CountSet(hs: seq<string>): nat {
    if hs == [] then 0 else CountSet(hs[..|hs| - 1]) + if hs[|hs| - 1] != "" then 1 else 0
  }

  lemma {:induction false} CountIsTotalIff(hs: seq<string>)
    ensures CountSet(hs) <= |hs|
    ensures CountSet(hs) == |hs| <==> AllSet(hs)
  {
    if hs != [] {
      CountIsTotalIff(hs[..|hs| - 1]);
    }
  }

  lemma {:induction false} CountUpdate(hs: seq<string>, i: nat, d: string)
    requires i < |hs| && d != ""
    ensures CountSet(hs[i := d]) == CountSet(hs) + if hs[i] == "" then 1 else 0
  {
    if i == |hs| - 1 {
      assert hs[i := d][..i] == hs[..i];
    } else {
      assert hs[i := d][..|hs| - 1] == hs[..|hs| - 1][i := d];
      CountUpdate(hs[..|hs| - 1], i, d);
    }
  }

  datatype Push = Push(hs: seq<string>, files: Files, ok: bool)

  /** push_block: skip if the digest is recorded already, otherwise write the file and then record. */
  function PushBlock(h: Digest, hs: seq<string>, files: Files, u: Uid, idx: nat, value: Bytes, opens: bool): Push
    requires 1 <= idx <= |hs|
  {
    if hs[idx - 1] == h(value) then Push(hs, files, true)
    else if !opens then Push(hs, files, false)
    else Push(hs[idx - 1 := h(value)], files[BlockName(u, idx) := value], true)
  }

  /** A push raises the count by one exactly when it succeeds on a block without a digest; it never lowers it. */
  lemma PushCounts(h: Digest, hs: seq<string>, files: Files, u: Uid, idx: nat, value: Bytes, opens: bool)
    requires 1 <= idx <= |hs|
    ensures var p := PushBlock(h, hs, files, u, idx, value, opens);
            CountSet(p.hs) == CountSet(hs) + if p.ok && hs[idx - 1] == "" then 1 else 0
  {
    CountUpdate(hs, idx - 1, h(value));
  }

  /** Every block file that `build` will read is there. */
  predicate Complete(files: Files, u: Uid, n: nat) {
    forall i | 1 <= i <= n :: BlockName(u, i) in files
  }

  /** What `build` has read when it stops: blocks i+1..n, up to the first file that is missing. */
  function Gather(files: Files, u: Uid, i: nat, n: nat): Bytes
    decreases if i < n then n - i else 0
  {
    if i >= n || BlockName(u, i + 1) !in files then []
    else files[BlockName(u, i + 1)] + Gather(files, u, i + 1, n)
  }

  /** The directory after `build`. An output stream that does not open swallows every write. */
  function Built(files: Files, u: Uid, n: nat, opens: bool): Files {
    if opens then files[u := Gather(files, u, 0, n)] else files
  }

  /** Blocks i+1..n are there. */
  predicate CompleteFrom(files: Files, u: Uid, i: nat, n: nat) {
    forall k | i < k <= n :: BlockName(u, k) in files
  }

  lemma GatherNext(files: Files, u: Uid, i: nat, n: nat)
    requires i <= n
    ensures i == n || BlockName(u, i + 1) !in files ==> Gather(files, u, i, n) == []
    ensures i < n && BlockName(u, i + 1) in files ==>
              && Gather(files, u, i, n) == files[BlockName(u, i + 1)] + Gather(files, u, i + 1, n)
              && (CompleteFrom(files, u, i, n) <==> CompleteFrom(files, u, i + 1, n))
    ensures i == n ==> CompleteFrom(files, u, i, n)
    ensures i < n && BlockName(u, i + 1) !in files ==> !CompleteFrom(files, u, i, n)
  {
  }

  function BlockNames(u: Uid, n: nat): set<Name> {
    set i: nat | 1 <= i <= n :: BlockName(u, i)
  }

  /** The directory after `clear`. */
  function Cleared(files: Files, u: Uid, n: nat): Files {
    files - BlockNames(u, n)
  }

  /** The block files of u hold bs. */
  ghost predicate FilesHold(files: Files, u: Uid, bs: seq<Bytes>) {
    forall i | 1 <= i <= |bs| :: BlockName(u, i) in files && files[BlockName(u, i)] == bs[i - 1]
  }

  lemma {:induction false} GatherFrom(files: Files, u: Uid, bs: seq<Bytes>, i: nat)
    requires i <= |bs| && FilesHold(files, u, bs)
    ensures Gather(files, u, i, |bs|) == Concat(bs[i..])
    decreases |bs| - i
  {
    if i < |bs| {
      GatherFrom(files, u, bs, i + 1);
      assert bs[i..][1..] == bs[i + 1..];
    }
  }

  /** `build` over files holding bs writes exactly their concatenation. */
  lemma GatherIsConcat(files: Files, u: Uid, bs: seq<Bytes>)
    requires FilesHold(files, u, bs)
    ensures Gather(files, u, 0, |bs|) == Concat(bs)
  {
    GatherFrom(files, u, bs, 0);
    assert bs[0..] == bs;
  }

  /** Gathering looks at no file but the blocks. */
  lemma {:induction false} GatherDepends(f: Files, g: Files, u: Uid, i: nat, n: nat)
    requires forall k | i < k <= n :: BlockName(u, k) in f <==> BlockName(u, k) in g
    requires forall k | i < k <= n && BlockName(u, k) in f :: f[BlockName(u, k)] == g[BlockName(u, k)]
    ensures Gather(f, u, i, n) == Gather(g, u, i, n)
    decreases if i < n then n - i else 0
  {
    if i < n && BlockName(u, i + 1) in f {
      GatherDepends(f, g, u, i + 1, n);
    }
  }

  datatype Store = Store(hs: seq<string>, files: Files)

  /** A client that pushes blocks of bs in the given order, each block file opening. */
  function PushAll(h: Digest, st: Store, u: Uid, bs: seq<Bytes>, order: seq<nat>): Store
    requires |st.hs| == |bs|
    requires forall k | 0 <= k < |order| :: 1 <= order[k] <= |bs|
    decreases |order|
  {
    if order == [] then st
    else
      var p := PushBlock(h, st.hs, st.files, u, order[0], bs[order[0] - 1], true);
      PushAll(h, Store(p.hs, p.files), u, bs, order[1..])
  }

  /** Block i is recorded and stored. */
  ghost predicate Stored(h: Digest, st: Store, u: Uid, bs: seq<Bytes>, i: nat)
    requires |st.hs| == |bs| && 1 <= i <= |bs|
  {
    st.hs[i - 1] == h(bs[i - 1]) && BlockName(u, i) in st.files && st.files[BlockName(u, i)] == bs[i - 1]
  }

  /** The blocks in `pushed` are stored, no other block is recorded. */
  ghost predicate Holds(h: Digest, st: Store, u: Uid, bs: seq<Bytes>, pushed: set<nat>) {
    && |st.hs| == |bs|
    && forall i | 1 <= i <= |bs| :: if i in pushed then Stored(h, st, u, bs, i) else st.hs[i - 1] == ""
  }

  lemma PushHolds(h: Digest, st: Store, u: Uid, bs: seq<Bytes>, j: nat, pushed: set<nat>)
    requires Holds(h, st, u, bs, pushed) && 1 <= j <= |bs|
    ensures var p := PushBlock(h, st.hs, st.files, u, j, bs[j - 1], true);
            Holds(h, Store(p.hs, p.files), u, bs, pushed + {j})
  {
    var p := PushBlock(h, st.hs, st.files, u, j, bs[j - 1], true);
    var next := Store(p.hs, p.files);
    forall i | 1 <= i <= |bs|
      ensures if i in pushed + {j} then Stored(h, next, u, bs, i) else next.hs[i - 1] == ""
    {
      BlockNameInjective(u, i, j);
    }
  }

  function Numbers(order: seq<nat>): set<nat> {
    set i | i in order
  }

  lemma NumbersStep(order: seq<nat>, pushed: set<nat>)
    ensures order == [] ==> pushed + Numbers(order) == pushed
    ensures order != [] ==> pushed + Numbers(order) == pushed + {order[0]} + Numbers(order[1..])
  {
    if order != [] {
      assert order == [order[0]] + order[1..];
    }
  }

  lemma {:induction false} PushAllHolds(h: Digest, st: Store, u: Uid, bs: seq<Bytes>, order: seq<nat>, pushed: set<nat>)
    requires Holds(h, st, u, bs, pushed)
    requires forall k | 0 <= k < |order| :: 1 <= order[k] <= |bs|
    ensures Holds(h, PushAll(h, st, u, bs, order), u, bs, pushed + Numbers(order))
    decreases |order|
  {
    hide Holds, Numbers, PushBlock;
    NumbersStep(order, pushed);
    HoldsLength(h, st, u, bs, pushed);
    if order != [] {
      var p := PushBlock(h, st.hs, st.files, u, order[0], bs[order[0] - 1], true);
      PushHolds(h, st, u, bs, order[0], pushed);
      HoldsLength(h, Store(p.hs, p.files), u, bs, pushed + {order[0]});
      PushAllHolds(h, Store(p.hs, p.files), u, bs, order[1..], pushed + {order[0]});
    }
  }

  lemma HoldsLength(h: Digest, st: Store, u: Uid, bs: seq<Bytes>, pushed: set<nat>)
    requires Holds(h, st, u, bs, pushed)
    ensures |st.hs| == |bs|
  {
  }

  /** Round trip: push the blocks of any byte string in any order, with any repetitions. `is_ready` then
      holds exactly when each of 1..n was pushed, and in that case `build` writes the original string. */
  lemma Reassembly(h: Digest, files: Files, u: Uid, bs: seq<Bytes>, order: seq<nat>)
    requires forall k | 0 <= k < |order| :: 1 <= order[k] <= |bs|
    ensures var st := PushAll(h, Store(Blank(|bs|), files), u, bs, order);
            && (CountSet(st.hs) == |bs| <==> forall i: nat | 1 <= i <= |bs| :: i in order)
            && (CountSet(st.hs) == |bs| ==> Built(st.files, u, |bs|, true)[u] == Concat(bs))
  {
    var st0 := Store(Blank(|bs|), files);
    var st := PushAll(h, st0, u, bs, order);
    assert Holds(h, st0, u, bs, {});
    PushAllHolds(h, st0, u, bs, order, {});
    var pushed := {} + Numbers(order);
    assert Holds(h, st, u, bs, pushed);
    CountIsTotalIff(st.hs);
    if AllSet(st.hs) {
      forall i: nat | 1 <= i <= |bs| ensures i in order && Stored(h, st, u, bs, i) {
        assert st.hs[i - 1] != "";
        assert i in pushed;
      }
      assert FilesHold(st.files, u, bs) by {
        forall i | 1 <= i <= |bs| ensures BlockName(u, i) in st.files && st.files[BlockName(u, i)] == bs[i - 1] {
          assert Stored(h, st, u, bs, i);
        }
      }
      GatherIsConcat(st.files, u, bs);
    }
    if forall i: nat | 1 <= i <= |bs| :: i in order {
      forall i | 0 <= i < |bs| ensures st.hs[i] != "" {
        assert i + 1 in pushed;
      }
    }
  }
}
