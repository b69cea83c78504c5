/** File names in the one directory that block files and finished files share. */
module Names {
  import opened Decimal

  type Uid = string
  type Name = string

  /** The file of block i of uid u: the uid followed by the decimal block number. */
  function BlockName(u: Uid, i: nat): Name {
    u + Dec(i)
  }

  /** x is a file name that a session of uid u with at most n blocks can touch:
      the finished file, or the file of one of the blocks 1..n. */
  ghost predicate Owns(u: Uid, n: nat, x: Name) {
    x == u || exists i: nat :: 1 <= i <= n && x == BlockName(u, i)
  }

  /** v is itself the name of one of u's block files. */
  ghost predicate IsBlockOf(v: Uid, u: Uid, n: nat) {
    exists d: nat :: 1 <= d <= n && v == BlockName(u, d)
  }

  ghost predicate Overlap(u: Uid, nu: nat, v: Uid, nv: nat) {
    exists x: Name :: Owns(u, nu, x) && Owns(v, nv, x)
  }

  /** cap bounds the block count of every uid in use; no two uids share a file name. */
  ghost predicate Separated(cap: map<Uid, nat>) {
    forall u, v | u in cap && v in cap && u != v :: !Overlap(u, cap[u], v, cap[v])
  }

  lemma BlockNameInjective(u: Uid, i: nat, j: nat)
    ensures BlockName(u, i) != u
    ensures BlockName(u, i) == BlockName(u, j) ==> i == j
  {
    DecReadsBack(i);
    if BlockName(u, i) == BlockName(u, j) {
      assert BlockName(u, i)[|u|..] == Dec(i) && BlockName(u, j)[|u|..] == Dec(j);
      DecInjective(i, j);
    }
  }

  lemma OwnsBlock(u: Uid, n: nat, i: nat)
    requires 1 <= i <= n
    ensures Owns(u, n, BlockName(u, i))
  {
  }

  /** If block i of u and block j of v have the same name and u is the shorter uid,
      then v is u followed by a leading part of the numeral i. */
  lemma SharedBlockName(u: Uid, i: nat, v: Uid, j: nat) returns (d: nat)
    requires i >= 1 && |u| < |v| && BlockName(u, i) == BlockName(v, j)
    ensures 1 <= d <= i && v == BlockName(u, d)
  {
    var k := |v| - |u|;
    DecReadsBack(j);
    assert |u| + |Dec(i)| == |v| + |Dec(j)|;
    assert v == BlockName(v, j)[..|v|] == u + Dec(i)[..k];
    DecPrefix(i, k);
    d := Shorten(i, |Dec(i)| - k);
    ShortenPositive(i, |Dec(i)| - k);
  }

  lemma OverlapImpliesBlock(u: Uid, nu: nat, v: Uid, nv: nat, x: Name)
    requires u != v && Owns(u, nu, x) && Owns(v, nv, x)
    ensures IsBlockOf(v, u, nu) || IsBlockOf(u, v, nv)
  {
    if x != u && x != v {
      var i: nat :| 1 <= i <= nu && x == BlockName(u, i);
      var j: nat :| 1 <= j <= nv && x == BlockName(v, j);
      assert x[..|u|] == u && x[..|v|] == v;
      if |u| < |v| {
        var d := SharedBlockName(u, i, v, j);
      } else if |v| < |u| {
        var d := SharedBlockName(v, j, u, i);
      }
    }
  }

  /** Two sessions can touch the same file exactly when one uid is the name of a block file of the other. */
  lemma OverlapIff(u: Uid, nu: nat, v: Uid, nv: nat)
    requires u != v
    ensures Overlap(u, nu, v, nv) <==> IsBlockOf(v, u, nu) || IsBlockOf(u, v, nv)
  {
    if Overlap(u, nu, v, nv) {
      var x :| Owns(u, nu, x) && Owns(v, nv, x);
      OverlapImpliesBlock(u, nu, v, nv, x);
    }
    if IsBlockOf(v, u, nu) {
      assert Owns(u, nu, v) && Owns(v, nv, v);
    }
    if IsBlockOf(u, v, nv) {
      assert Owns(u, nu, u) && Owns(v, nv, u);
    }
  }

  /** The separation every isolation result needs, as a test on the uids alone. */
  lemma SeparatedIff(cap: map<Uid, nat>)
    ensures Separated(cap) <==> forall u, v | u in cap && v in cap :: !IsBlockOf(v, u, cap[u])
  {
    forall u, v | u in cap && v in cap
      ensures u != v ==>
                (Overlap(u, cap[u], v, cap[v]) <==> IsBlockOf(v, u, cap[u]) || IsBlockOf(u, v, cap[v]))
      ensures !IsBlockOf(u, u, cap[u])
    {
      if u != v {
        OverlapIff(u, cap[u], v, cap[v]);
      }
      forall d: nat ensures u != BlockName(u, d) { BlockNameInjective(u, d, d); }
    }
    if forall u, v | u in cap && v in cap :: !IsBlockOf(v, u, cap[u]) {
      assert Separated(cap);
    }
    if Separated(cap) {
      forall u, v | u in cap && v in cap ensures !IsBlockOf(v, u, cap[u]) {
        if u != v {
          assert !Overlap(u, cap[u], v, cap[v]);
        }
      }
    }
  }
}
