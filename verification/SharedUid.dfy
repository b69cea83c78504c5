/** Several tasks of the same uid at once, from the opening of a session to the deletion of its builder. */
module SharedUid {
  import opened Names
  import opened Storage
  import opened BlockStore
  import opened Tasks
  import opened Views
  import opened Interleaving

  /** The builder in the table has recorded block i. */
  predicate Has(w: World, u: Uid, i: nat) {
    SlotOf(w, u).Live? && 1 <= i <= |SlotOf(w, u).hashes| && SlotOf(w, u).hashes[i - 1] != ""
  }

  /** The request pushes a block of the file bs. */
  predicate Fitting(r: Request, bs: seq<Bytes>) {
    r.total == |bs| && 1 <= r.idx <= |bs| && r.value == bs[r.idx - 1]
  }

  /** Task id is in flight with block i of u. */
  predicate Carries(c: Config, u: Uid, i: nat, id: nat) {
    InFlight(c, id) && c.tasks[id].r.uid == u && c.tasks[id].r.idx == i
  }

  /** Two requests that can both come to write the same block file. */
  predicate Contend(w: World, r: Request, r2: Request) {
    r.idx == r2.idx && r.blockOpens && r2.blockOpens && !Has(w, r.uid, r.idx)
  }

  /** The clients of u all upload the same file bs, and send a block again while a task is in flight with it only if
      the block is recorded, or the file of one of the two does not open. */
  predicate Agrees(c: Config, m: Move, u: Uid, bs: seq<Bytes>) {
    m.Start? && m.r.uid == u ==>
      && Fitting(m.r, bs)
      && forall id | id in c.tasks && Carries(c, u, m.r.idx, id) :: !Contend(c.w, c.tasks[id].r, m.r)
  }

  predicate Agreeing(h: Digest, cap: map<Uid, nat>, c: Config, ms: seq<Move>, u: Uid, bs: seq<Bytes>)
    requires Allowed(h, cap, c, ms)
    decreases |ms|
  {
    ms == [] || (Agrees(c, ms[0], u, bs) && Agreeing(h, cap, Apply(h, c, ms[0]), ms[1..], u, bs))
  }

  /** A recorded digest means that the block file is complete and correct. */
  ghost predicate Trustworthy(h: Digest, u: Uid, bs: seq<Bytes>, w: World) {
    SlotOf(w, u).Live? ==>
      && |SlotOf(w, u).hashes| == |bs|
      && forall i | 1 <= i <= |bs| :: Trusted(h, u, bs, SlotOf(w, u).hashes, w.files, i)
  }

  ghost predicate Trusted(h: Digest, u: Uid, bs: seq<Bytes>, hs: seq<string>, files: Files, i: nat)
    requires 1 <= i <= |bs| == |hs|
  {
    hs[i - 1] == "" || (hs[i - 1] == h(bs[i - 1]) && Find(files, BlockName(u, i)) == Some(bs[i - 1]))
  }

  /** The stream has taken blocks 1..i: what it holds back are their bytes from its place on. */
  predicate Taken(bs: seq<Bytes>, i: nat, out: Stream)
    requires i <= |bs|
  {
    out.pos <= |Concat(bs[..i])| && out.held == Concat(bs[..i])[out.pos..]
  }

  /** What a task of u in flight knows at each of its places. */
  ghost predicate Knows(h: Digest, u: Uid, bs: seq<Bytes>, w: World, r: Request, pc: Pc) {
    && Fitting(r, bs)
    && !pc.Clear? && !pc.Callback? && !pc.End?
    && (!pc.Get? ==> Alive(w, u, pc.own))
    && (pc.Open? || pc.Fill? || pc.Mark? ==>
          && pc.sum == h(r.value)
          && |SlotOf(w, u).hashes| == |bs|
          && (r.blockOpens ==> SlotOf(w, u).hashes[r.idx - 1] == ""))
    && (pc.Fill? ==> Find(w.files, BlockName(u, r.idx)) == Some([]))
    && (pc.Mark? ==> Find(w.files, BlockName(u, r.idx)) == Some(r.value))
    && (pc.Fill? || pc.Mark? ==> r.blockOpens)
    && (pc.Ready? ==> Has(w, u, r.idx))
    && (pc.BuildOpen? || pc.Measure? || pc.Read? || pc.Write? || pc.Close? || pc.Erase? ==>
          AllSet(SlotOf(w, u).hashes))
    && (pc.Measure? || pc.Read? || pc.Write? ==> pc.n == |bs| && pc.i <= |bs| && Taken(bs, pc.i, pc.out))
    && (pc.Read? || pc.Write? ==> pc.i < |bs| && pc.size == |bs[pc.i]|)
    && (pc.Write? ==> pc.size <= |pc.buf| && pc.buf[..pc.size] == bs[pc.i])
    && (pc.Close? ==> pc.whole && Taken(bs, |bs|, pc.out))
  }

  /** Tasks of u in flight: each knows its place, and no two contend for a block. */
  ghost predicate Orderly(h: Digest, u: Uid, bs: seq<Bytes>, c: Config) {
    && (forall id | id in c.tasks && InFlight(c, id) && c.tasks[id].r.uid == u ::
          Knows(h, u, bs, c.w, c.tasks[id].r, c.tasks[id].pc))
    && DistinctBlocks(c, u)
  }

  ghost predicate DistinctBlocks(c: Config, u: Uid) {
    forall i, j | i in c.tasks && j in c.tasks && i != j && InFlight(c, i) && InFlight(c, j)
                  && c.tasks[i].r.uid == u && c.tasks[j].r.uid == u ::
      !Contend(c.w, c.tasks[i].r, c.tasks[j].r)
  }

  ghost predicate AllWithin(cap: map<Uid, nat>, c: Config) {
    && SlotsWithin(cap, c.w)
    && forall id | id in c.tasks && InFlight(c, id) ::
         c.tasks[id].r.uid in cap && PcWithin(cap[c.tasks[id].r.uid], c.tasks[id].r, c.tasks[id].pc)
  }

  /** gen is the number of the builder of u: of the one in the table, or of the next one. */
  predicate Current(u: Uid, gen: nat, w: World) {
    Born(w, u) + (if SlotOf(w, u).Live? then 0 else 1) == gen
  }

  /** Nothing has come of session gen of u and of those after it: no deletion, no callback, no undefined task. */
  ghost predicate Unfinished(c: Config, u: Uid, gen: nat) {
    forall g: nat | g >= gen :: Unrecorded(c, Round(u, g))
  }

  predicate Unrecorded(c: Config, round: Round) {
    round !in c.deleted && round !in c.broken && round !in c.called
  }

  ghost predicate Sound(h: Digest, cap: map<Uid, nat>, u: Uid, bs: seq<Bytes>, gen: nat, c: Config) {
    && u in cap && |bs| <= cap[u] && AllWithin(cap, c) && Trustworthy(h, u, bs, c.w) && Orderly(h, u, bs, c)
    && gen >= 1 && Current(u, gen, c.w) && Unfinished(c, u, gen)
  }

  lemma AdvanceWithin(h: Digest, cap: map<Uid, nat>, c: Config, id: nat)
    requires Separated(cap) && AllWithin(cap, c) && InFlight(c, id)
    ensures AllWithin(cap, Apply(h, c, Advance(id)))
    ensures var v := c.tasks[id].r.uid;
            forall u | u in cap && u != v :: SameView(u, cap[u], Apply(h, c, Advance(id)).w, c.w)
  {
    hide Step, SameView, OnlyOwn;
    var t := c.tasks[id];
    var c' := Apply(h, c, Advance(id));
    StepWithin(h, c.w, t.r, t.pc, cap[t.r.uid]);
    StepOnlyOwn(h, c.w, t.r, t.pc, cap[t.r.uid]);
    forall u | u in cap && u != t.r.uid ensures SameView(u, cap[u], c'.w, c.w) {
      OnlyOwnKeepsView(u, cap[u], t.r.uid, cap[t.r.uid], c.w, c'.w);
    }
    SlotsStayWithin(cap, c.w, c'.w, t.r.uid);
    forall i | i in c'.tasks && InFlight(c', i)
      ensures c'.tasks[i].r.uid in cap && PcWithin(cap[c'.tasks[i].r.uid], c'.tasks[i].r, c'.tasks[i].pc)
    {
      assert InFlight(c, i);
    }
  }

  /** Nothing a task of u knows depends on more than u's view. */
  lemma KnowsView(h: Digest, u: Uid, n: nat, bs: seq<Bytes>, w: World, w': World)
    requires SameView(u, n, w', w) && |bs| <= n
    ensures Trustworthy(h, u, bs, w) ==> Trustworthy(h, u, bs, w')
    ensures forall r: Request, pc: Pc :: Knows(h, u, bs, w, r, pc) ==> Knows(h, u, bs, w', r, pc)
    ensures forall gen :: Current(u, gen, w) ==> Current(u, gen, w')
    ensures HasKept(u, w, w')
  {
    assert SlotOf(w, u) == SlotOf(w', u);
    if SlotOf(w, u).Live? && Trustworthy(h, u, bs, w) {
      forall i | 1 <= i <= |bs| ensures Trusted(h, u, bs, SlotOf(w', u).hashes, w'.files, i) {
        assert Trusted(h, u, bs, SlotOf(w, u).hashes, w.files, i);
      }
    }
  }

  /** The step keeps the store trustworthy, the session current, and tells the task what it must know next. */
  ghost predicate Kept(h: Digest, u: Uid, bs: seq<Bytes>, w: World, w': World, r: Request, pc': Pc) {
    && Trustworthy(h, u, bs, w')
    && (forall gen :: Current(u, gen, w) ==> Current(u, gen, w'))
    && (!pc'.End? ==> Knows(h, u, bs, w', r, pc'))
    && pc' != End(Undefined)
    && HasKept(u, w, w')
  }

  ghost predicate HasKept(u: Uid, w: World, w': World) {
    forall i | Has(w, u, i) :: Has(w', u, i)
  }

  lemma GetKnows(h: Digest, u: Uid, bs: seq<Bytes>, w: World, r: Request)
    requires Trustworthy(h, u, bs, w) && r.uid == u && Knows(h, u, bs, w, r, Get)
    ensures var (w', pc') := GetStep(w, r); Kept(h, u, bs, w, w', r, pc')
    ensures SlotOf(w, u).Live? ==> GetStep(w, r).0 == w
  {
  }

  lemma BuilderKnows(h: Digest, u: Uid, bs: seq<Bytes>, w: World, r: Request, pc: Pc)
    requires Trustworthy(h, u, bs, w) && r.uid == u && Knows(h, u, bs, w, r, pc)
    requires pc.Check? || pc.Mark? || pc.Ready?
    ensures var (w', pc') := BuilderStep(h, w, r, pc); Kept(h, u, bs, w, w', r, pc')
  {
    var w' := BuilderStep(h, w, r, pc).0;
    assert Trusted(h, u, bs, SlotOf(w, u).hashes, w.files, r.idx);
    forall i | 1 <= i <= |bs| ensures Trusted(h, u, bs, SlotOf(w', u).hashes, w'.files, i) {
      assert Trusted(h, u, bs, SlotOf(w, u).hashes, w.files, i);
    }
  }

  lemma OpenKnows(h: Digest, u: Uid, bs: seq<Bytes>, w: World, r: Request, pc: Pc)
    requires Trustworthy(h, u, bs, w) && r.uid == u && Knows(h, u, bs, w, r, pc) && pc.Open?
    ensures var (w', pc') := WriteStep(w, r, pc); Kept(h, u, bs, w, w', r, pc')
  {
    hide Taken, BlockName, AllSet;
    if r.blockOpens {
      OneFileTrusted(h, u, bs, w, WriteStep(w, r, pc).0, r.idx);
    }
    hide Trustworthy;
  }

  lemma FillKnows(h: Digest, u: Uid, bs: seq<Bytes>, w: World, r: Request, pc: Pc)
    requires Trustworthy(h, u, bs, w) && r.uid == u && Knows(h, u, bs, w, r, pc) && pc.Fill?
    ensures var (w', pc') := WriteStep(w, r, pc); Kept(h, u, bs, w, w', r, pc')
  {
    hide WriteAt, Taken, BlockName, AllSet;
    WriteAtEnd([], r.value);
    assert [] + r.value == r.value;
    OneFileTrusted(h, u, bs, w, WriteStep(w, r, pc).0, r.idx);
    hide Trustworthy;
  }

  lemma WriteKnows(h: Digest, u: Uid, bs: seq<Bytes>, w: World, r: Request, pc: Pc)
    requires Trustworthy(h, u, bs, w) && r.uid == u && Knows(h, u, bs, w, r, pc)
    requires pc.Open? || pc.Fill?
    ensures var (w', pc') := WriteStep(w, r, pc); Kept(h, u, bs, w, w', r, pc')
  {
    hide Trustworthy, Knows, WriteStep, Kept;
    if pc.Open? {
      OpenKnows(h, u, bs, w, r, pc);
    } else {
      FillKnows(h, u, bs, w, r, pc);
    }
  }

  /** Only the file of a block without a recorded digest changed. */
  lemma OneFileTrusted(h: Digest, u: Uid, bs: seq<Bytes>, w: World, w': World, idx: nat)
    requires Trustworthy(h, u, bs, w) && w'.slots == w.slots
    requires w'.files - {BlockName(u, idx)} == w.files - {BlockName(u, idx)}
    requires SlotOf(w, u).Live? && 1 <= idx <= |SlotOf(w, u).hashes| && SlotOf(w, u).hashes[idx - 1] == ""
    ensures Trustworthy(h, u, bs, w')
  {
    hide BlockName;
    forall i | 1 <= i <= |bs| ensures Trusted(h, u, bs, SlotOf(w', u).hashes, w'.files, i) {
      assert Trusted(h, u, bs, SlotOf(w, u).hashes, w.files, i);
      BlockNameInjective(u, i, idx);
      SameRest(w.files, w'.files, BlockName(u, idx), BlockName(u, i));
    }
  }

  lemma SameRest(f: Files, g: Files, x: Name, y: Name)
    requires f - {x} == g - {x}
    ensures y != x ==> Find(f, y) == Find(g, y)
  {
    assert y != x ==> (y in f <==> y in f - {x}) && (y in g <==> y in g - {x});
  }

  /** `build` reads complete blocks: the measured size, then the bytes, are those of the uploaded file. */
  /** A recorded block is in its file. */
  lemma BlockThere(h: Digest, u: Uid, bs: seq<Bytes>, w: World, i: nat)
    requires Trustworthy(h, u, bs, w) && SlotOf(w, u).Live? && AllSet(SlotOf(w, u).hashes) && i < |bs|
    ensures Find(w.files, BlockName(u, i + 1)) == Some(bs[i])
    ensures |SlotOf(w, u).hashes| == |bs|
  {
    assert Trusted(h, u, bs, SlotOf(w, u).hashes, w.files, i + 1);
    assert SlotOf(w, u).hashes[i] != "";
  }

  lemma MeasureKnows(h: Digest, u: Uid, bs: seq<Bytes>, w: World, r: Request, pc: Pc)
    requires Trustworthy(h, u, bs, w) && r.uid == u && Knows(h, u, bs, w, r, pc) && Fits(pc) && pc.Measure?
    ensures var (w', pc') := BuildStep(w, r, pc); w' == w && !pc'.End? && Knows(h, u, bs, w, r, pc')
  {
    if pc.i < |bs| {
      BlockThere(h, u, bs, w, pc.i);
    }
    hide Taken, AllSet, Grown, Has, Trustworthy;
  }

  lemma BufferKnows(h: Digest, u: Uid, bs: seq<Bytes>, w: World, r: Request, pc: Pc)
    requires Trustworthy(h, u, bs, w) && r.uid == u && Knows(h, u, bs, w, r, pc) && Fits(pc) && pc.Read?
    ensures var (w', pc') := BuildStep(w, r, pc); w' == w && !pc'.End? && Knows(h, u, bs, w, r, pc')
  {
    BlockThere(h, u, bs, w, pc.i);
    assert bs[pc.i][..|bs[pc.i]|] == bs[pc.i];
    hide Taken, AllSet, Zeros, Has, Trustworthy, BlockName, Put, Released, Fitting;
  }

  lemma ReadKnows(h: Digest, u: Uid, bs: seq<Bytes>, w: World, r: Request, pc: Pc)
    requires Trustworthy(h, u, bs, w) && r.uid == u && Knows(h, u, bs, w, r, pc) && Fits(pc)
    requires pc.Measure? || pc.Read?
    ensures var (w', pc') := BuildStep(w, r, pc); w' == w && !pc'.End? && Knows(h, u, bs, w, r, pc')
  {
    hide Knows, BuildStep, Trustworthy, Fits;
    if pc.Measure? {
      MeasureKnows(h, u, bs, w, r, pc);
    } else {
      BufferKnows(h, u, bs, w, r, pc);
    }
  }

  /** Between w and w' only the finished file of u changed. */
  ghost predicate OnlyOutput(u: Uid, w: World, w': World) {
    && w'.slots == w.slots && w'.births == w.births
    && forall i: nat :: Find(w'.files, BlockName(u, i)) == Find(w.files, BlockName(u, i))
  }

  lemma OutputKnows(h: Digest, u: Uid, bs: seq<Bytes>, w: World, w': World, r: Request, pc: Pc)
    requires Trustworthy(h, u, bs, w) && OnlyOutput(u, w, w')
    ensures Trustworthy(h, u, bs, w') && (Knows(h, u, bs, w, r, pc) ==> Knows(h, u, bs, w', r, pc))
  {
    if SlotOf(w, u).Live? {
      forall i | 1 <= i <= |bs| ensures Trusted(h, u, bs, SlotOf(w', u).hashes, w'.files, i) {
        assert Trusted(h, u, bs, SlotOf(w, u).hashes, w.files, i);
      }
    }
  }

  /** Of the bytes of block i + 1 and those held back, any leading part may go to the file. */
  lemma TakenNext(bs: seq<Bytes>, i: nat, out: Stream, k: nat)
    requires i < |bs| && Taken(bs, i, out) && k <= |out.held + bs[i]|
    ensures var all := out.held + bs[i];
            && out.pos + k <= |Concat(bs)| && Concat(bs)[out.pos..out.pos + k] == all[..k]
            && Taken(bs, i + 1, Stream(out.pos + k, all[k..]))
  {
    var all := out.held + bs[i];
    assert bs[..i + 1] == bs[..i] + [bs[i]];
    ConcatAppend(bs[..i], bs[i]);
    ConcatSplit(bs, i + 1);
    assert Concat(bs[..i + 1])[out.pos..] == all;
    assert Concat(bs)[out.pos..out.pos + k] == all[..k];
  }

  lemma OutputStepKnows(h: Digest, u: Uid, bs: seq<Bytes>, w: World, r: Request, pc: Pc)
    requires Trustworthy(h, u, bs, w) && r.uid == u && Knows(h, u, bs, w, r, pc) && Fits(pc)
    requires pc.BuildOpen? || pc.Write? || pc.Close?
    ensures var (w', pc') := BuildStep(w, r, pc);
            && OnlyOutput(u, w, w') && !pc'.End?
            && Trustworthy(h, u, bs, w') && Knows(h, u, bs, w', r, pc')
  {
    hide BuildStep, Trustworthy, OnlyOutput;
    BuildOnlyOutput(w, r, pc);
    OutputKnows(h, u, bs, w, BuildStep(w, r, pc).0, r, pc);
    OutputNext(h, u, bs, w, BuildStep(w, r, pc).0, r, pc);
  }

  lemma BuildOnlyOutput(w: World, r: Request, pc: Pc)
    requires (pc.BuildOpen? || pc.Write? || pc.Close?) && Fits(pc) && SlotOf(w, r.uid).Live?
    ensures OnlyOutput(r.uid, w, BuildStep(w, r, pc).0)
  {
    hide WriteAt, Released;
    forall k: nat ensures BlockName(r.uid, k) != r.uid { BlockNameInjective(r.uid, k, k); }
  }

  lemma WriteNext(h: Digest, u: Uid, bs: seq<Bytes>, w: World, w': World, r: Request, pc: Pc)
    requires r.uid == u && pc.Write? && Fits(pc)
    requires Knows(h, u, bs, w, r, pc) && Knows(h, u, bs, w', r, pc)
    ensures var pc' := BuildStep(w, r, pc).1; !pc'.End? && Knows(h, u, bs, w', r, pc')
  {
    var all := pc.out.held + bs[pc.i];
    assert pc.out.held + pc.buf[..pc.size] == all;
    TakenNext(bs, pc.i, pc.out, Released(r, pc.i, all));
    hide Put, Released, Taken, AllSet, Find, Has;
  }

  /** Where the build goes next, in a state w' in which it still knows what it knew. */
  lemma OutputNext(h: Digest, u: Uid, bs: seq<Bytes>, w: World, w': World, r: Request, pc: Pc)
    requires r.uid == u && (pc.BuildOpen? || pc.Write? || pc.Close?) && Fits(pc)
    requires Trustworthy(h, u, bs, w) && Knows(h, u, bs, w, r, pc) && Knows(h, u, bs, w', r, pc)
    ensures var pc' := BuildStep(w, r, pc).1; !pc'.End? && Knows(h, u, bs, w', r, pc')
  {
    hide Put, Released, Trustworthy, Taken, AllSet, Zeros, Find, Has;
    if pc.Write? {
      hide Knows, BuildStep, Fits;
      WriteNext(h, u, bs, w, w', r, pc);
    } else if pc.BuildOpen? {
      TrustworthyLength(h, u, bs, w);
      NothingTaken(bs);
    }
  }

  lemma NothingTaken(bs: seq<Bytes>)
    ensures Taken(bs, 0, Stream(0, []))
  {
    assert Concat(bs[..0]) == [];
  }

  lemma TrustworthyLength(h: Digest, u: Uid, bs: seq<Bytes>, w: World)
    requires Trustworthy(h, u, bs, w) && SlotOf(w, u).Live?
    ensures |SlotOf(w, u).hashes| == |bs|
  {
  }

  /** A step of one task of u leaves what the other tasks of u know, provided they do not contend. */
  lemma OthersKnow(h: Digest, u: Uid, bs: seq<Bytes>, w: World, r: Request, pc: Pc, r2: Request, pc2: Pc)
    requires !pc.Erase? && Fits(pc) && r.uid == u && r2.uid == u && !Contend(w, r, r2)
    requires Trustworthy(h, u, bs, w) && Knows(h, u, bs, w, r, pc) && Knows(h, u, bs, w, r2, pc2)
    ensures Knows(h, u, bs, Step(h, w, r, pc).0, r2, pc2)
  {
    hide GetStep, BuilderStep, WriteStep, BuildStep, DeleteStep, Trustworthy, Knows;
    NotDangling(h, u, bs, w, r, pc);
    if pc.Get? {
      GetOthers(h, u, bs, w, r, r2, pc2);
    } else if pc.Check? || pc.Mark? || pc.Ready? {
      BuilderOthers(h, u, bs, w, r, pc, r2, pc2);
    } else if pc.Open? || pc.Fill? {
      WriteOthers(h, u, bs, w, r, pc, r2, pc2);
    } else if pc.BuildOpen? || pc.Write? || pc.Close? {
      OutputStepKnows(h, u, bs, w, r, pc);
      OutputKnows(h, u, bs, w, BuildStep(w, r, pc).0, r2, pc2);
    } else {
      ReadKnows(h, u, bs, w, r, pc);
    }
  }

  lemma NotDangling(h: Digest, u: Uid, bs: seq<Bytes>, w: World, r: Request, pc: Pc)
    requires Knows(h, u, bs, w, r, pc)
    ensures !Dangling(w, u, pc) && !pc.End? && !pc.Clear? && !pc.Callback?
    ensures !pc.Get? ==> SlotOf(w, u).Live? && pc.own == Born(w, u)
  {
  }

  lemma GetOthers(h: Digest, u: Uid, bs: seq<Bytes>, w: World, r: Request, r2: Request, pc2: Pc)
    requires r.uid == u && Knows(h, u, bs, w, r2, pc2)
    ensures Knows(h, u, bs, GetStep(w, r).0, r2, pc2)
  {
    hide Taken;
  }

  lemma WriteOthers(h: Digest, u: Uid, bs: seq<Bytes>, w: World, r: Request, pc: Pc, r2: Request, pc2: Pc)
    requires (pc.Open? || pc.Fill?) && r.uid == u && r2.uid == u && !Contend(w, r, r2)
    requires Knows(h, u, bs, w, r, pc) && Knows(h, u, bs, w, r2, pc2)
    ensures Knows(h, u, bs, WriteStep(w, r, pc).0, r2, pc2)
  {
    hide Taken;
    BlockNameInjective(u, r.idx, r2.idx);
  }

  lemma BuilderOthers(h: Digest, u: Uid, bs: seq<Bytes>, w: World, r: Request, pc: Pc, r2: Request, pc2: Pc)
    requires (pc.Check? || pc.Mark? || pc.Ready?) && r.uid == u && r2.uid == u
    requires !Contend(w, r, r2)
    requires Trustworthy(h, u, bs, w) && Knows(h, u, bs, w, r, pc) && Knows(h, u, bs, w, r2, pc2)
    ensures Knows(h, u, bs, BuilderStep(h, w, r, pc).0, r2, pc2)
  {
    hide Taken;
    assert h(r.value) != "";
  }

  /** One step of a task of u before the deletion. */
  lemma StepKnows(h: Digest, u: Uid, bs: seq<Bytes>, w: World, r: Request, pc: Pc)
    requires !pc.End? && !pc.Erase? && Fits(pc) && r.uid == u
    requires Trustworthy(h, u, bs, w) && Knows(h, u, bs, w, r, pc)
    ensures var (w', pc') := Step(h, w, r, pc); Kept(h, u, bs, w, w', r, pc')
  {
    hide GetStep, BuilderStep, WriteStep, BuildStep, DeleteStep, Trustworthy, Knows;
    NotDangling(h, u, bs, w, r, pc);
    if pc.Get? {
      GetKnows(h, u, bs, w, r);
    } else if pc.Check? || pc.Mark? || pc.Ready? {
      BuilderKnows(h, u, bs, w, r, pc);
    } else if pc.Open? || pc.Fill? {
      WriteKnows(h, u, bs, w, r, pc);
    } else if pc.BuildOpen? || pc.Write? || pc.Close? {
      OutputStepKnows(h, u, bs, w, r, pc);
    } else {
      ReadKnows(h, u, bs, w, r, pc);
    }
  }

  lemma AdvanceSound(h: Digest, cap: map<Uid, nat>, u: Uid, bs: seq<Bytes>, gen: nat, c: Config, id: nat)
    requires Separated(cap) && Sound(h, cap, u, bs, gen, c) && InFlight(c, id)
    requires Round(u, gen) !in Apply(h, c, Advance(id)).deleted
    ensures Sound(h, cap, u, bs, gen, Apply(h, c, Advance(id)))
    ensures c.tasks[id].r.uid == u ==> !c.tasks[id].pc.Erase?
  {
    hide Step, SameView, Knows, Trustworthy, Separated, Taken;
    AdvanceWithin(h, cap, c, id);
    var c', t := Apply(h, c, Advance(id)), c.tasks[id];
    if t.r.uid == u {
      NotDangling(h, u, bs, c.w, t.r, t.pc);
      StepKnows(h, u, bs, c.w, t.r, t.pc);
    } else {
      KnowsView(h, u, cap[u], bs, c.w, c'.w);
    }
    forall i | i in c'.tasks && InFlight(c', i) && c'.tasks[i].r.uid == u
      ensures InFlight(c, i) && Knows(h, u, bs, c'.w, c'.tasks[i].r, c'.tasks[i].pc)
    {
      assert InFlight(c, i);
      if i != id && t.r.uid == u {
        OthersKnow(h, u, bs, c.w, t.r, t.pc, c.tasks[i].r, c.tasks[i].pc);
      }
    }
    assert DistinctBlocks(c', u) by { AdvanceDistinct(h, c, u, id); }
  }

  lemma AdvanceDistinct(h: Digest, c: Config, u: Uid, id: nat)
    requires DistinctBlocks(c, u) && InFlight(c, id) && HasKept(u, c.w, Apply(h, c, Advance(id)).w)
    ensures DistinctBlocks(Apply(h, c, Advance(id)), u)
  {
    hide Step, Has;
    var c' := Apply(h, c, Advance(id));
    forall i | i in c'.tasks && InFlight(c', i) ensures InFlight(c, i) && c'.tasks[i].r == c.tasks[i].r {
    }
  }

  lemma StartSound(h: Digest, cap: map<Uid, nat>, u: Uid, bs: seq<Bytes>, gen: nat, c: Config, m: Move)
    requires Sound(h, cap, u, bs, gen, c) && m.Start? && Enabled(c, m) && Capped(cap, m) && Agrees(c, m, u, bs)
    ensures Sound(h, cap, u, bs, gen, Apply(h, c, m))
  {
    hide Trustworthy, Knows, DistinctBlocks, PcWithin, SlotsWithin;
    var c' := Apply(h, c, m);
    StartDistinct(h, u, bs, c, m);
    assert Knows(h, u, bs, c.w, m.r, Get) || m.r.uid != u by { StartKnows(h, u, bs, c, m); }
    assert PcWithin(cap[m.r.uid], m.r, Get) by { GetWithin(cap[m.r.uid], m.r); }
    assert forall i | i in c'.tasks && i != m.id :: i in c.tasks && c'.tasks[i] == c.tasks[i];
    forall i | i in c'.tasks && InFlight(c', i) ensures i == m.id || InFlight(c, i) {
    }
    assert c'.w == c.w && c'.tasks[m.id] == Task(m.r, Get);
  }

  lemma GetWithin(n: nat, r: Request)
    requires r.total <= n
    ensures PcWithin(n, r, Get)
  {
  }

  lemma StartKnows(h: Digest, u: Uid, bs: seq<Bytes>, c: Config, m: Move)
    requires m.Start? && Agrees(c, m, u, bs)
    ensures m.r.uid == u ==> Knows(h, u, bs, c.w, m.r, Get)
  {
  }

  lemma StartDistinct(h: Digest, u: Uid, bs: seq<Bytes>, c: Config, m: Move)
    requires DistinctBlocks(c, u) && m.Start? && Enabled(c, m) && Agrees(c, m, u, bs)
    ensures DistinctBlocks(Apply(h, c, m), u)
  {
    hide Fitting;
    var c' := Apply(h, c, m);
    assert forall i | i in c'.tasks && i != m.id :: i in c.tasks && c'.tasks[i] == c.tasks[i];
    forall i | i in c'.tasks && i != m.id && InFlight(c', i) ensures InFlight(c, i) {
    }
    if m.r.uid == u {
      forall i | i in c.tasks && InFlight(c, i) && c.tasks[i].r.uid == u
        ensures !Contend(c.w, c.tasks[i].r, m.r) && !Contend(c.w, m.r, c.tasks[i].r)
      {
        assert c.tasks[i].r.idx == m.r.idx ==> Carries(c, u, m.r.idx, i);
      }
    }
  }

  lemma {:induction false} HistoryGrows(h: Digest, cap: map<Uid, nat>, c: Config, ms: seq<Move>)
    requires Allowed(h, cap, c, ms)
    ensures c.deleted <= After(h, cap, c, ms).deleted && c.broken <= After(h, cap, c, ms).broken
    decreases |ms|
  {
    hide Step;
    if ms != [] {
      HistoryGrows(h, cap, Apply(h, c, ms[0]), ms[1..]);
    }
  }

  /** A run up to the deletion of builder gen of u, by clients that agree about u's file. The tasks of other uids
      are not restricted. */
  ghost predicate Continues(h: Digest, cap: map<Uid, nat>, c: Config, ms: seq<Move>, u: Uid, bs: seq<Bytes>, gen: nat) {
    Allowed(h, cap, c, ms) && Agreeing(h, cap, c, ms, u, bs) && Round(u, gen) !in After(h, cap, c, ms).deleted
  }

  lemma ContinuesNext(h: Digest, cap: map<Uid, nat>, c: Config, ms: seq<Move>, u: Uid, bs: seq<Bytes>, gen: nat)
    requires Continues(h, cap, c, ms, u, bs, gen) && ms != []
    ensures Enabled(c, ms[0]) && Capped(cap, ms[0]) && Agrees(c, ms[0], u, bs)
    ensures Continues(h, cap, Apply(h, c, ms[0]), ms[1..], u, bs, gen)
    ensures Round(u, gen) !in Apply(h, c, ms[0]).deleted
  {
    hide Step;
    HistoryGrows(h, cap, Apply(h, c, ms[0]), ms[1..]);
  }

  lemma MoveSound(h: Digest, cap: map<Uid, nat>, u: Uid, bs: seq<Bytes>, gen: nat, c: Config, m: Move)
    requires Separated(cap) && Sound(h, cap, u, bs, gen, c)
    requires Enabled(c, m) && Capped(cap, m) && Agrees(c, m, u, bs) && Round(u, gen) !in Apply(h, c, m).deleted
    ensures Sound(h, cap, u, bs, gen, Apply(h, c, m))
  {
    hide Sound, Apply;
    match m {
      case Start(_, _) => StartSound(h, cap, u, bs, gen, c, m);
      case Advance(id) => AdvanceSound(h, cap, u, bs, gen, c, id);
    }
  }

  lemma {:induction false} RunSound(h: Digest, cap: map<Uid, nat>, u: Uid, bs: seq<Bytes>, gen: nat,
                                    c: Config, ms: seq<Move>)
    requires Separated(cap) && Sound(h, cap, u, bs, gen, c) && Continues(h, cap, c, ms, u, bs, gen)
    ensures Sound(h, cap, u, bs, gen, After(h, cap, c, ms))
    decreases |ms|
  {
    hide Sound, Separated, Apply, Continues, Agrees;
    if ms != [] {
      ContinuesNext(h, cap, c, ms, u, bs, gen);
      MoveSound(h, cap, u, bs, gen, c, ms[0]);
      RunSound(h, cap, u, bs, gen, Apply(h, c, ms[0]), ms[1..]);
    }
    assert Allowed(h, cap, c, ms) by { ContinuesAllowed(h, cap, c, ms, u, bs, gen); }
  }

  lemma ContinuesAllowed(h: Digest, cap: map<Uid, nat>, c: Config, ms: seq<Move>, u: Uid, bs: seq<Bytes>, gen: nat)
    requires Continues(h, cap, c, ms, u, bs, gen)
    ensures Allowed(h, cap, c, ms)
  {
  }

  /** A session of u can open: no builder, and every task of u in flight is still to look for one, with its own
      block of the file. There may be any tasks of other uids, and any number of earlier sessions of u. */
  ghost predicate Opening(cap: map<Uid, nat>, c: Config, u: Uid, bs: seq<Bytes>) {
    && u in cap && |bs| <= cap[u] && AllWithin(cap, c) && SlotOf(c.w, u).Null?
    && (forall id | id in c.tasks && InFlight(c, id) && c.tasks[id].r.uid == u :: Waiting(c.tasks[id], bs))
    && DistinctBlocks(c, u)
    && Unfinished(c, u, Born(c.w, u) + 1)
  }

  ghost predicate Waiting(t: Task, bs: seq<Bytes>) {
    t.pc.Get? && Fitting(t.r, bs)
  }

  /** The number of the builder that the session opening in c0 will have. */
  function Gen(c0: Config, u: Uid): nat {
    Born(c0.w, u) + 1
  }

  /** The states the theorems below speak of: from the opening of a session of u up to its deletion. */
  ghost predicate Reached(h: Digest, cap: map<Uid, nat>, c0: Config, ms: seq<Move>, u: Uid, bs: seq<Bytes>) {
    Separated(cap) && Opening(cap, c0, u, bs) && Continues(h, cap, c0, ms, u, bs, Gen(c0, u))
  }

  /** A service that starts with no task and no builder of u is in such a state. */
  lemma InitialOpening(cap: map<Uid, nat>, w0: World, u: Uid, bs: seq<Bytes>)
    requires u in cap && |bs| <= cap[u] && SlotsWithin(cap, w0) && SlotOf(w0, u).Null?
    ensures Opening(cap, Initial(w0), u, bs)
  {
  }

  lemma OpeningSound(h: Digest, cap: map<Uid, nat>, c0: Config, u: Uid, bs: seq<Bytes>)
    requires Opening(cap, c0, u, bs)
    ensures Sound(h, cap, u, bs, Gen(c0, u), c0)
  {
  }

  lemma ReachedSound(h: Digest, cap: map<Uid, nat>, c0: Config, ms: seq<Move>, u: Uid, bs: seq<Bytes>)
    requires Reached(h, cap, c0, ms, u, bs)
    ensures Separated(cap)
    ensures Allowed(h, cap, c0, ms) && Sound(h, cap, u, bs, Gen(c0, u), After(h, cap, c0, ms))
  {
    hide Sound, Opening, Separated, Continues;
    OpeningSound(h, cap, c0, u, bs);
    ContinuesAllowed(h, cap, c0, ms, u, bs, Gen(c0, u));
    RunSound(h, cap, u, bs, Gen(c0, u), c0, ms);
  }

  /** In every such state a recorded digest means a complete and correct block file. */
  lemma RecordedIsComplete(h: Digest, cap: map<Uid, nat>, c0: Config, ms: seq<Move>, u: Uid, bs: seq<Bytes>, i: nat)
    requires Reached(h, cap, c0, ms, u, bs) && 1 <= i <= |bs|
    ensures var w := After(h, cap, c0, ms).w;
            SlotOf(w, u).Live? ==>
              && |SlotOf(w, u).hashes| == |bs|
              && (SlotOf(w, u).hashes[i - 1] != "" ==>
                    SlotOf(w, u).hashes[i - 1] == h(bs[i - 1]) && Find(w.files, BlockName(u, i)) == Some(bs[i - 1]))
  {
    ReachedSound(h, cap, c0, ms, u, bs);
    var w := After(h, cap, c0, ms).w;
    if SlotOf(w, u).Live? {
      assert Trusted(h, u, bs, SlotOf(w, u).hashes, w.files, i);
    }
  }

  /** A task that opens or fills a block file does so for a block without a recorded digest: no recorded block
      is ever written again. And every task of u holds the builder in the table, so that none is undefined. */
  lemma RecordedNeverRewritten(h: Digest, cap: map<Uid, nat>, c0: Config, ms: seq<Move>, u: Uid, bs: seq<Bytes>,
                               id: nat)
    requires Reached(h, cap, c0, ms, u, bs)
    requires InFlight(After(h, cap, c0, ms), id) && After(h, cap, c0, ms).tasks[id].r.uid == u
    ensures var c := After(h, cap, c0, ms);
            var t := c.tasks[id];
            && ((t.pc.Open? && t.r.blockOpens) || t.pc.Fill? ==>
                  && SlotOf(c.w, u).Live? && 1 <= t.r.idx <= |SlotOf(c.w, u).hashes|
                  && SlotOf(c.w, u).hashes[t.r.idx - 1] == "")
            && (!t.pc.Get? ==> Alive(c.w, u, t.pc.own) && RoundOf(t) == Round(u, Gen(c0, u)))
            && Step(h, c.w, t.r, t.pc).1 != End(Undefined)
  {
    hide WriteStep, BuildStep, GetStep, BuilderStep, Taken;
    ReachedSound(h, cap, c0, ms, u, bs);
    var c := After(h, cap, c0, ms);
    if !c.tasks[id].pc.Erase? {
      StepKnows(h, u, bs, c.w, c.tasks[id].r, c.tasks[id].pc);
    }
  }

  /** The move is a task's look at builder gen of u, which it finds ready. */
  predicate FindsReady(h: Digest, c: Config, m: Move, u: Uid, gen: nat) {
    && m.Advance? && InFlight(c, m.id) && c.tasks[m.id].r.uid == u
    && c.tasks[m.id].pc == Ready(gen) && Apply(h, c, m).tasks[m.id].pc == BuildOpen(gen)
  }

  /** It finds so only what is complete, and still in the table. */
  lemma FindsComplete(h: Digest, c: Config, m: Move, u: Uid, gen: nat)
    requires FindsReady(h, c, m, u, gen)
    ensures Alive(c.w, u, gen) && CountSet(SlotOf(c.w, u).hashes) == |SlotOf(c.w, u).hashes|
  {
    hide GetStep, WriteStep, BuildStep, DeleteStep;
    assert !Dangling(c.w, u, c.tasks[m.id].pc);
    CountIsTotalIff(SlotOf(c.w, u).hashes);
  }

  /** If every digest of the builder in the table is recorded, and its number is not in `past`, a task is about to
      look at it. */
  ghost predicate NotLost(c: Config, u: Uid, past: set<nat>) {
    SlotOf(c.w, u).Live? && AllSet(SlotOf(c.w, u).hashes) ==>
      Born(c.w, u) in past || exists id :: AboutToLook(c, u, id)
  }

  ghost predicate AboutToLook(c: Config, u: Uid, id: nat) {
    InFlight(c, id) && c.tasks[id].r.uid == u && c.tasks[id].pc == Ready(Born(c.w, u))
  }

  lemma AdvanceNotLost(h: Digest, c: Config, u: Uid, id: nat, past: set<nat>)
    requires NotLost(c, u, past) && InFlight(c, id)
    ensures var c' := Apply(h, c, Advance(id));
            NotLost(c', u, past) || FindsReady(h, c, Advance(id), u, Born(c'.w, u))
  {
    hide WriteStep, BuildStep;
    var c', t := Apply(h, c, Advance(id)), c.tasks[id];
    if SlotOf(c'.w, u).Live? && AllSet(SlotOf(c'.w, u).hashes) {
      if t.r.uid == u && t.pc.Mark? && c'.tasks[id].pc.Ready? {
        assert AboutToLook(c', u, id);
      } else {
        LookKept(h, c, u, id);
        if k :| AboutToLook(c, u, k) {
          assert k != id ==> AboutToLook(c', u, k);
        }
      }
    }
  }

  /** No other step changes the digests of a builder that is, and stays, complete. */
  lemma LookKept(h: Digest, c: Config, u: Uid, id: nat)
    requires InFlight(c, id)
    requires c.tasks[id].r.uid == u && c.tasks[id].pc.Mark? ==> !Apply(h, c, Advance(id)).tasks[id].pc.Ready?
    requires SlotOf(Apply(h, c, Advance(id)).w, u).Live? && AllSet(SlotOf(Apply(h, c, Advance(id)).w, u).hashes)
    ensures SlotOf(Apply(h, c, Advance(id)).w, u) == SlotOf(c.w, u)
    ensures Born(Apply(h, c, Advance(id)).w, u) == Born(c.w, u)
  {
    hide WriteStep, BuildStep;
    assert Blank(c.tasks[id].r.total)[0] == "";
  }

  /** Move k of the run is a look at builder gen of u that finds it ready. */
  predicate FindsAt(h: Digest, cap: map<Uid, nat>, c: Config, ms: seq<Move>, u: Uid, gen: nat, k: nat) {
    && k < |ms| && Allowed(h, cap, c, ms[..k])
    && FindsReady(h, After(h, cap, c, ms[..k]), ms[k], u, gen)
  }

  lemma FindsLater(h: Digest, cap: map<Uid, nat>, c: Config, ms: seq<Move>, u: Uid, gen: nat, k: nat)
    requires ms != [] && Enabled(c, ms[0]) && Capped(cap, ms[0])
    requires FindsAt(h, cap, Apply(h, c, ms[0]), ms[1..], u, gen, k)
    ensures FindsAt(h, cap, c, ms, u, gen, k + 1)
  {
    hide Apply, FindsReady;
    assert ms[..k + 1][1..] == ms[1..][..k] && ms[..k + 1][0] == ms[0];
  }

  lemma {:induction false} RunNotLost(h: Digest, cap: map<Uid, nat>, c: Config, ms: seq<Move>, u: Uid, past: set<nat>)
    requires NotLost(c, u, past) && Allowed(h, cap, c, ms)
    ensures var e := After(h, cap, c, ms);
            NotLost(e, u, past) || exists k: nat :: FindsAt(h, cap, c, ms, u, Born(e.w, u), k)
    decreases |ms|
  {
    hide Step;
    if ms != [] {
      var c' := Apply(h, c, ms[0]);
      var e := After(h, cap, c, ms);
      var found := if FindsReady(h, c, ms[0], u, Born(c'.w, u)) then past + {Born(c'.w, u)} else past;
      MoveNotLost(h, c, ms[0], u, past);
      RunNotLost(h, cap, c', ms[1..], u, found);
      if k: nat :| FindsAt(h, cap, c', ms[1..], u, Born(e.w, u), k) {
        FindsLater(h, cap, c, ms, u, Born(e.w, u), k);
      } else if found != past {
        assert ms[..0] == [];
        assert FindsAt(h, cap, c, ms, u, Born(c'.w, u), 0);
      }
    }
  }

  lemma MoveNotLost(h: Digest, c: Config, m: Move, u: Uid, past: set<nat>)
    requires NotLost(c, u, past) && Enabled(c, m)
    ensures var c' := Apply(h, c, m);
            NotLost(c', u, if FindsReady(h, c, m, u, Born(c'.w, u)) then past + {Born(c'.w, u)} else past)
  {
    hide Step;
    var c' := Apply(h, c, m);
    match m {
      case Start(_, _) =>
        if id :| AboutToLook(c, u, id) {
          assert AboutToLook(c', u, id);
        }
      case Advance(id) => AdvanceNotLost(h, c, u, id, past);
    }
  }

  /** Readiness is never lost, whatever the clients send, however their tasks interleave and however often the
      builder was deleted before: once every digest is recorded and no task that holds this builder is about to
      look, some move of the run was a task's look that found this builder ready. */
  lemma ReadinessNeverLost(h: Digest, cap: map<Uid, nat>, w0: World, ms: seq<Move>, u: Uid)
    requires Allowed(h, cap, Initial(w0), ms) && SlotOf(w0, u).Null?
    ensures var c := After(h, cap, Initial(w0), ms);
            SlotOf(c.w, u).Live? && AllSet(SlotOf(c.w, u).hashes) && (forall id :: !AboutToLook(c, u, id))
            ==> exists k: nat :: FindsAt(h, cap, Initial(w0), ms, u, Born(c.w, u), k)
  {
    RunNotLost(h, cap, Initial(w0), ms, u, {});
  }
}
