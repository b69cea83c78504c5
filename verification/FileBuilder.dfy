/** The builder of one upload session: digests and block files updated in place. */
module FileBuilding {
  import opened Names
  import opened Storage
  import opened BlockStore

  /** The directory all sessions work in. */
  class Directory {
    var files: Files

    constructor ()
      ensures files == map[]
    {
      files := map[];
    }
  }

  /** Unsigned 32-bit arithmetic of the loop counters in `build` and `clear`. */
  function Wrap32(x: nat): (y: nat)
    ensures y <= MAX_BLOCKS && (x <= MAX_BLOCKS ==> y == x)
  {
    x % 0x1_0000_0000
  }

  /** The loop counter after k increments. */
  function CounterAt(k: nat): (c: nat)
    ensures c <= MAX_BLOCKS
  {
    if k == 0 then 0 else Wrap32(CounterAt(k - 1) + 1)
  }

  lemma {:induction false} CounterCounts(k: nat)
    requires k <= MAX_BLOCKS
    ensures CounterAt(k) == k
  {
    hide Wrap32;
    if k > 0 {
      CounterCounts(k - 1);
    }
  }

  /** The loop of `clear` over n blocks ends exactly when n is at most 2^32 - 1, whatever the width of the total. */
  lemma LoopEndsIff(n: nat)
    ensures (exists k: nat :: CounterAt(k) >= n) <==> n <= 0xFFFF_FFFF
  {
    hide Wrap32, CounterAt;
    if n <= MAX_BLOCKS {
      CounterCounts(n);
      assert CounterAt(n) >= n;
    }
  }

  /** The file that `build` asks for after k rounds: the number in its name wraps like the counter. */
  function Visited(u: Uid, k: nat): Name {
    BlockName(u, Wrap32(CounterAt(k) + 1))
  }

  /** The loop of `build` also leaves, by an exception, at the first file that is missing. So beyond 2^32 - 1
      blocks it ends exactly when one of the names u0, u1, .. u4294967295 is missing: the wrapped number 0 is
      not the number of any block. */
  lemma BuildEndsIff(files: Files, u: Uid, n: nat)
    ensures (exists k: nat :: CounterAt(k) >= n || Visited(u, k) !in files) <==>
            n <= 0xFFFF_FFFF || exists i: nat :: i <= 0xFFFF_FFFF && BlockName(u, i) !in files
  {
    hide Wrap32, CounterAt, BlockName;
    if n <= MAX_BLOCKS {
      CounterCounts(n);
      assert CounterAt(n) >= n;
    } else {
      if i: nat :| i <= MAX_BLOCKS && BlockName(u, i) !in files {
        var k := VisitsAll(u, i);
        assert Visited(u, k) !in files;
      }
      if k: nat :| CounterAt(k) >= n || Visited(u, k) !in files {
        assert BlockName(u, Wrap32(CounterAt(k) + 1)) !in files;
      }
    }
  }

  lemma VisitsAll(u: Uid, i: nat) returns (k: nat)
    requires i <= MAX_BLOCKS
    ensures Visited(u, k) == BlockName(u, i)
  {
    hide CounterAt, BlockName;
    k := if i == 0 then MAX_BLOCKS else i - 1;
    CounterCounts(k);
    assert Wrap32(MAX_BLOCKS + 1) == 0;
  }

  /** Until then it visits the block numbers 1..n once each, in order. */
  lemma LoopVisitsInOrder(n: nat, k: nat)
    requires k < n <= MAX_BLOCKS
    ensures CounterAt(k) == k < n && Wrap32(CounterAt(k) + 1) == k + 1
  {
    hide Wrap32, CounterAt;
    CounterCounts(k);
  }

  class FileBuilder {
    const dir: Directory
    const sha: Digest
    const fileName: Uid
    const total: BlockCount
    const hashes: array<string>

    constructor (fileName: Uid, total: BlockCount, dir: Directory, sha: Digest)
      ensures this.fileName == fileName && this.total == total && this.dir == dir && this.sha == sha
      ensures Valid() && fresh(hashes) && hashes[..] == Blank(total)
    {
      this.fileName, this.total, this.dir, this.sha := fileName, total, dir, sha;
      hashes := new string[total](_ => "");
      new;
      assert hashes[..] == Blank(total);
    }

    ghost predicate Valid() {
      hashes.Length == total
    }

    /** Counts the recorded digests and compares with the total: true exactly when none is missing. */
    method IsReady() returns (ready: bool)
      requires Valid()
      ensures ready <==> AllSet(hashes[..])
    {
      var count := 0;
      for i := 0 to hashes.Length
        invariant count == CountSet(hashes[..i])
      {
        assert hashes[..i + 1][..i] == hashes[..i];
        if hashes[i] != "" {
          count := count + 1;
        }
      }
      assert hashes[..hashes.Length] == hashes[..];
      CountIsTotalIff(hashes[..]);
      ready := count == total;
    }

    method GetHashIfNeedWrite(idx: nat, value: Bytes) returns (need: bool, sum: string)
      requires Valid() && 1 <= idx <= total
      ensures sum == sha(value) && (need <==> hashes[idx - 1] != sum)
    {
      sum := sha(value);
      need := hashes[idx - 1] != sum;
    }

    /** `opens` is the environment's answer to opening the block file. */
    method WriteBlock(idx: nat, value: Bytes, opens: bool) returns (ok: bool)
      requires Valid() && 1 <= idx <= total
      modifies dir
      ensures ok == opens
      ensures dir.files == if opens then old(dir.files)[BlockName(fileName, idx) := value] else old(dir.files)
    {
      if !opens {
        return false;
      }
      var name := fileName + Decimal.Dec(idx);
      dir.files := dir.files[name := []];
      dir.files := dir.files[name := WriteAt(dir.files[name], 0, value)];
      assert WriteAt([], 0, value) == value;
      return true;
    }

    method UpdateBlockHash(idx: nat, sum: string)
      requires Valid() && 1 <= idx <= total
      modifies hashes
      ensures hashes[..] == old(hashes[..])[idx - 1 := sum]
    {
      hashes[idx - 1] := sum;
    }

    /** False when the write threw: then neither the digests nor the directory changed. */
    method PushBlock(idx: nat, value: Bytes, opens: bool) returns (ok: bool)
      requires Valid() && 1 <= idx <= total
      modifies hashes, dir
      ensures Push(hashes[..], dir.files, ok) ==
              BlockStore.PushBlock(sha, old(hashes[..]), old(dir.files), fileName, idx, value, opens)
      ensures !ok ==> hashes[..] == old(hashes[..]) && dir.files == old(dir.files)
    {
      var need, sum := GetHashIfNeedWrite(idx, value);
      if !need {
        return true;
      }
      ok := WriteBlock(idx, value, opens);
      if !ok {
        return;
      }
      UpdateBlockHash(idx, sum);
    }

    /** Copies one block to the end of the output through the buffer, which is enlarged when the block does
        not fit and never cleared: exactly the block's bytes arrive, none of an earlier, longer block. */
    method CopyBlock(block: Bytes, buffer: array<Byte>, opens: bool) returns (next: array<Byte>)
      requires opens ==> fileName in dir.files
      modifies dir, buffer
      ensures next == buffer || fresh(next)
      ensures dir.files ==
              if opens then old(dir.files)[fileName := old(dir.files)[fileName] + block] else old(dir.files)
    {
      next := buffer;
      if next.Length < |block| {
        next := Enlarged(next, |block|);
      }
      ReadInto(next, block);
      assert next[..|block|] == block;
      if opens {
        dir.files := dir.files[fileName := dir.files[fileName] + next[..|block|]];
      }
    }

    /** Writes the blocks in order through one buffer; stops with an exception at a missing block file. */
    method Build(opens: bool) returns (ok: bool)
      requires Valid()
      modifies dir
      ensures dir.files == Built(old(dir.files), fileName, total, opens)
      ensures ok <==> Complete(old(dir.files), fileName, total)
    {
      ghost var before := dir.files;
      if opens {
        dir.files := dir.files[fileName := []];
      }
      var buffer := new Byte[25 * 1024 * 1024](_ => 0);
      var i: nat := 0;
      ghost var written: Bytes := [];
      while i < total
        invariant i <= total
        invariant dir.files == if opens then before[fileName := written] else before
        invariant Progress(before, fileName, i, total, written)
        invariant fresh(buffer)
        decreases total - i
      {
        var name := fileName + Decimal.Dec(Wrap32(i + 1));
        BlockNameInjective(fileName, i + 1, i + 1);
        assert name == BlockName(fileName, i + 1) && name != fileName;
        ProgressStep(before, fileName, i, total, written);
        if name !in dir.files {
          return false;
        }
        buffer := CopyBlock(dir.files[name], buffer, opens);
        written := written + before[name];
        i := Wrap32(i + 1);
      }
      ProgressEnd(before, fileName, total, written);
      return true;
    }

    /** std::vector::resize to a larger size: the old bytes stay in front, zeros follow. */
    static method Enlarged(a: array<Byte>, n: nat) returns (b: array<Byte>)
      requires a.Length <= n
      ensures fresh(b) && b[..] == a[..] + Zeros(n - a.Length)
    {
      b := new Byte[n](k => 0);
      var k := 0;
      while k < a.Length
        invariant k <= a.Length
        invariant b[..k] == a[..k]
        invariant forall j | k <= j < n :: b[j] == 0
      {
        b[k] := a[k];
        k := k + 1;
      }
    }

    /** Reads a whole file into the front of the buffer; the rest of the buffer keeps its stale bytes. */
    static method ReadInto(a: array<Byte>, data: Bytes)
      requires |data| <= a.Length
      modifies a
      ensures a[..] == data + old(a[..])[|data|..]
    {
      var k := 0;
      while k < |data|
        invariant k <= |data|
        invariant a[..k] == data[..k]
        invariant a[k..] == old(a[..])[k..]
      {
        a[k] := data[k];
        k := k + 1;
      }
      assert a[..] == a[..k] + a[k..];
    }

    /** Removes every block file that exists and nothing else; the destructor does this. */
    method Clear()
      requires Valid()
      modifies dir
      ensures dir.files == Cleared(old(dir.files), fileName, total)
    {
      var i: nat := 0;
      while i < total
        invariant i <= total
        invariant dir.files == Cleared(old(dir.files), fileName, i)
        decreases total - i
      {
        var name := fileName + Decimal.Dec(Wrap32(i + 1));
        if name in dir.files {
          dir.files := dir.files - {name};
        }
        ClearedNext(old(dir.files), fileName, i);
        i := Wrap32(i + 1);
      }
    }
  }

  /** The loop of `build` after i blocks: they were all there, and `written` is what they held. */
  ghost predicate Progress(files: Files, u: Uid, i: nat, n: nat, written: Bytes) {
    Complete(files, u, i) && written + Gather(files, u, i, n) == Gather(files, u, 0, n)
  }

  lemma ProgressStep(files: Files, u: Uid, i: nat, n: nat, written: Bytes)
    requires Progress(files, u, i, n, written) && i < n
    ensures var name := BlockName(u, i + 1);
            if name in files then Progress(files, u, i + 1, n, written + files[name])
            else written == Gather(files, u, 0, n) && !Complete(files, u, n)
  {
    var name := BlockName(u, i + 1);
    if name in files {
      assert written + (files[name] + Gather(files, u, i + 1, n)) == written + files[name] + Gather(files, u, i + 1, n);
    } else {
      assert written + [] == written;
    }
  }

  lemma ProgressEnd(files: Files, u: Uid, n: nat, written: Bytes)
    requires Progress(files, u, n, n, written)
    ensures written == Gather(files, u, 0, n)
  {
    assert written + [] == written;
  }

  lemma ClearedNext(files: Files, u: Uid, i: nat)
    ensures Cleared(files, u, i + 1) == Cleared(files, u, i) - {BlockName(u, i + 1)}
  {
    assert BlockNames(u, i + 1) == BlockNames(u, i) + {BlockName(u, i + 1)};
  }
}
