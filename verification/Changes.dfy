/** Clients that may change their minds about a block: what a recorded digest still says. */
module Changes {
  import opened Names
  import opened Storage
  import opened Tasks
  import opened Views
  import opened Interleaving
  import opened SharedUid

  /** The task has not finished its push. */
  predicate InPush(pc: Pc) {
    pc.Get? || pc.Check? || pc.Open? || pc.Fill? || pc.Mark?
  }

  /** Both requests may come to write the same block file. */
  predicate SameFile(r: Request, r2: Request) {
    r.uid == r2.uid && r.idx == r2.idx && r.blockOpens && r2.blockOpens
  }

  /** A block of u is sent while no push of it is under way. Values and totals are up to the clients. */
  predicate TakesTurn(c: Config, m: Move, u: Uid) {
    m.Start? && m.r.uid == u ==>
      forall id | id in c.tasks && InFlight(c, id) :: !(SameFile(c.tasks[id].r, m.r) && InPush(c.tasks[id].pc))
  }

  predicate TakingTurns(h: Digest, cap: map<Uid, nat>, c: Config, ms: seq<Move>, u: Uid)
    requires Allowed(h, cap, c, ms)
    decreases |ms|
  {
    ms == [] || (TakesTurn(c, ms[0], u) && TakingTurns(h, cap, Apply(h, c, ms[0]), ms[1..], u))
  }

  /** What a task of u in flight knows. */
  ghost predicate Placed(h: Digest, w: World, r: Request, pc: Pc) {
    && !pc.Clear? && !pc.Callback? && !pc.End?
    && (!pc.Get? ==> Alive(w, r.uid, pc.own))
    && (pc.Open? || pc.Fill? || pc.Mark? ==> pc.sum == h(r.value) && 1 <= r.idx <= |SlotOf(w, r.uid).hashes|)
    && (pc.Fill? || pc.Mark? ==> r.blockOpens)
    && (pc.Fill? ==> Find(w.files, BlockName(r.uid, r.idx)) == Some([]))
    && (pc.Mark? ==> Find(w.files, BlockName(r.uid, r.idx)) == Some(r.value))
  }

  /** A task stands between opening the file of block i and recording its digest. */
  ghost predicate Rewriting(c: Config, u: Uid, i: nat) {
    exists id :: Rewrites(c, u, i, id)
  }

  ghost predicate Rewrites(c: Config, u: Uid, i: nat, id: nat) {
    Carries(c, u, i, id) && (c.tasks[id].pc.Fill? || c.tasks[id].pc.Mark?)
  }

  /** The digest recorded for block i, if any, is the digest of its file. */
  ghost predicate Matches(h: Digest, w: World, u: Uid, i: nat) {
    Has(w, u, i) ==>
      var file := Find(w.files, BlockName(u, i));
      file.Some? && h(file.value) == SlotOf(w, u).hashes[i - 1]
  }

  ghost predicate Turns(c: Config, u: Uid) {
    forall i, j | i in c.tasks && j in c.tasks && i != j && InFlight(c, i) && InFlight(c, j)
                  && c.tasks[i].r.uid == u && SameFile(c.tasks[i].r, c.tasks[j].r) ::
      !InPush(c.tasks[i].pc) || !InPush(c.tasks[j].pc)
  }

  ghost predicate Honest(h: Digest, cap: map<Uid, nat>, u: Uid, gen: nat, c: Config) {
    && u in cap && AllWithin(cap, c) && Current(u, gen, c.w) && Round(u, gen) !in c.deleted && Turns(c, u)
    && (forall id | id in c.tasks && InFlight(c, id) && c.tasks[id].r.uid == u ::
          Placed(h, c.w, c.tasks[id].r, c.tasks[id].pc))
    && (forall i :: Matches(h, c.w, u, i) || Rewriting(c, u, i))
  }

  /** One step of a task before the deletion, on the task itself. */
  lemma PlacedStep(h: Digest, w: World, r: Request, pc: Pc)
    requires Fits(pc) && Placed(h, w, r, pc) && !pc.Erase?
    ensures var (w', pc') := Step(h, w, r, pc);
            && (pc'.End? || Placed(h, w', r, pc'))
            && (forall gen :: Current(r.uid, gen, w) ==> Current(r.uid, gen, w'))
            && (InPush(pc') ==> InPush(pc))
  {
    hide GetStep, BuilderStep, WriteStep, BuildStep, DeleteStep;
    if pc.Get? || pc.Check? || pc.Mark? || pc.Ready? {
      TablePlaced(h, w, r, pc);
    } else if pc.Open? || pc.Fill? {
      WritePlaced(h, w, r, pc);
    } else {
      BuildPlaced(h, w, r, pc);
    }
  }

  lemma TablePlaced(h: Digest, w: World, r: Request, pc: Pc)
    requires (pc.Get? || pc.Check? || pc.Mark? || pc.Ready?) && Placed(h, w, r, pc)
    ensures var (w', pc') := if pc.Get? then GetStep(w, r) else BuilderStep(h, w, r, pc);
            && (pc'.End? || Placed(h, w', r, pc'))
            && (forall gen :: Current(r.uid, gen, w) ==> Current(r.uid, gen, w'))
            && (InPush(pc') ==> InPush(pc))
  {
  }

  lemma WritePlaced(h: Digest, w: World, r: Request, pc: Pc)
    requires (pc.Open? || pc.Fill?) && Placed(h, w, r, pc)
    ensures var (w', pc') := WriteStep(w, r, pc); pc'.End? || Placed(h, w', r, pc')
  {
    WriteAtEnd([], r.value);
    assert [] + r.value == r.value;
    hide WriteAt;
  }

  lemma BuildPlaced(h: Digest, w: World, r: Request, pc: Pc)
    requires (pc.BuildOpen? || pc.Measure? || pc.Read? || pc.Write? || pc.Close?) && Fits(pc) && Placed(h, w, r, pc)
    ensures var (w', pc') := BuildStep(w, r, pc); (pc'.End? || Placed(h, w', r, pc')) && !InPush(pc')
  {
    hide Put, Released;
  }

  /** The step, on a task that does not push the same block at the same time. */
  lemma OthersPlaced(h: Digest, w: World, r: Request, pc: Pc, r2: Request, pc2: Pc)
    requires Fits(pc) && Placed(h, w, r, pc) && !pc.Erase? && Placed(h, w, r2, pc2) && r2.uid == r.uid
    requires !SameFile(r, r2) || !InPush(pc) || !InPush(pc2)
    ensures Placed(h, Step(h, w, r, pc).0, r2, pc2)
  {
    hide Step;
    StepBlocks(h, w, r, pc);
    BlockNameInjective(r.uid, r.idx, r2.idx);
  }

  /** What the step does to block files and digests: at most to the task's own block, and only while pushing it. */
  lemma StepBlocks(h: Digest, w: World, r: Request, pc: Pc)
    requires Fits(pc) && Placed(h, w, r, pc) && !pc.Erase?
    ensures var (w', pc') := Step(h, w, r, pc);
            && (forall i: nat | i != r.idx || !r.blockOpens || !(pc.Open? || pc.Fill?) ::
                  Find(w'.files, BlockName(r.uid, i)) == Find(w.files, BlockName(r.uid, i)))
            && (SlotOf(w, r.uid).Live? ==>
                  && SlotOf(w', r.uid) == (if pc.Mark? then Live(SlotOf(w, r.uid).hashes[r.idx - 1 := pc.sum])
                                           else SlotOf(w, r.uid))
                  && Born(w', r.uid) == Born(w, r.uid))
            && (SlotOf(w, r.uid).Null? ==> forall i :: !Has(w', r.uid, i))
            && (pc.Open? && r.blockOpens ==> pc'.Fill?) && (pc.Fill? ==> pc'.Mark?)
  {
    hide GetStep, BuilderStep, WriteStep, BuildStep, DeleteStep;
    if pc.Get? || pc.Check? || pc.Mark? || pc.Ready? {
      TableBlocks(h, w, r, pc);
    } else {
      FileBlocks(h, w, r, pc);
    }
  }

  lemma TableBlocks(h: Digest, w: World, r: Request, pc: Pc)
    requires (pc.Get? || pc.Check? || pc.Mark? || pc.Ready?) && Placed(h, w, r, pc)
    ensures var w' := if pc.Get? then GetStep(w, r).0 else BuilderStep(h, w, r, pc).0;
            && w'.files == w.files
            && (SlotOf(w, r.uid).Live? ==>
                  && SlotOf(w', r.uid) == (if pc.Mark? then Live(SlotOf(w, r.uid).hashes[r.idx - 1 := pc.sum])
                                           else SlotOf(w, r.uid))
                  && Born(w', r.uid) == Born(w, r.uid))
            && (SlotOf(w, r.uid).Null? ==> forall i :: !Has(w', r.uid, i))
  {
  }

  lemma FileBlocks(h: Digest, w: World, r: Request, pc: Pc)
    requires Fits(pc) && Placed(h, w, r, pc) && !pc.Erase?
    requires !(pc.Get? || pc.Check? || pc.Mark? || pc.Ready?)
    ensures var (w', pc') := if pc.Open? || pc.Fill? then WriteStep(w, r, pc) else BuildStep(w, r, pc);
            && (forall i: nat | i != r.idx || !r.blockOpens || !(pc.Open? || pc.Fill?) ::
                  Find(w'.files, BlockName(r.uid, i)) == Find(w.files, BlockName(r.uid, i)))
            && w' == w.(files := w'.files)
            && (pc.Open? && r.blockOpens ==> pc'.Fill?) && (pc.Fill? ==> pc'.Mark?)
  {
    hide WriteAt, Released;
    forall i: nat ensures BlockName(r.uid, i) != r.uid
      ensures i != r.idx ==> BlockName(r.uid, i) != BlockName(r.uid, r.idx)
    {
      BlockNameInjective(r.uid, i, r.idx);
    }
  }

  /** A step of a task of u that is not at work on the file of block i. */
  lemma StepMatches(h: Digest, w: World, r: Request, pc: Pc, i: nat)
    requires Fits(pc) && Placed(h, w, r, pc) && !pc.Erase?
    requires !(r.idx == i && r.blockOpens && (pc.Open? || pc.Fill?))
    ensures var w' := Step(h, w, r, pc).0;
            (pc.Mark? && r.idx == i) || Matches(h, w, r.uid, i) ==> Matches(h, w', r.uid, i)
  {
    StepBlocks(h, w, r, pc);
    hide Step;
  }

  lemma PushGoesOn(h: Digest, w: World, r: Request, pc: Pc)
    requires Fits(pc) && Placed(h, w, r, pc)
    ensures pc.Open? && r.blockOpens ==> Step(h, w, r, pc).1.Fill?
    ensures pc.Fill? ==> r.blockOpens && Step(h, w, r, pc).1.Mark?
  {
  }

  /** A step of a task of u, seen from block i. */
  lemma OwnStepMatches(h: Digest, cap: map<Uid, nat>, u: Uid, gen: nat, c: Config, id: nat, i: nat)
    requires Honest(h, cap, u, gen, c) && InFlight(c, id) && c.tasks[id].r.uid == u && !c.tasks[id].pc.Erase?
    ensures var e := Apply(h, c, Advance(id)); Matches(h, e.w, u, i) || Rewriting(e, u, i)
  {
    hide AllWithin, Current, Turns, Step, Matches;
    var e, t := Apply(h, c, Advance(id)), c.tasks[id];
    assert Placed(h, c.w, t.r, t.pc) && (Matches(h, c.w, u, i) || Rewriting(c, u, i));
    PushGoesOn(h, c.w, t.r, t.pc);
    hide Honest, Placed;
    if t.r.idx == i && t.r.blockOpens && (t.pc.Open? || t.pc.Fill?) {
      assert Rewrites(e, u, i, id);
    } else {
      StepMatches(h, c.w, t.r, t.pc, i);
      if Rewriting(c, u, i) {
        var k :| Rewrites(c, u, i, k);
        assert k != id ==> Rewrites(e, u, i, k);
      }
    }
  }

  lemma AdvanceHonest(h: Digest, cap: map<Uid, nat>, u: Uid, gen: nat, c: Config, id: nat)
    requires Separated(cap) && Honest(h, cap, u, gen, c) && InFlight(c, id)
    requires Round(u, gen) !in Apply(h, c, Advance(id)).deleted
    ensures Honest(h, cap, u, gen, Apply(h, c, Advance(id)))
  {
    hide Step, SameView, Placed, Matches, Rewriting, Separated, AllWithin, InPush;
    AdvanceWithin(h, cap, c, id);
    var e, t := Apply(h, c, Advance(id)), c.tasks[id];
    assert AllWithin(cap, e);
    if t.r.uid == u {
      assert Placed(h, c.w, t.r, t.pc);
      NotErasing(h, cap, u, gen, c, id);
      PlacedStep(h, c.w, t.r, t.pc);
      OthersStillPlaced(h, cap, u, gen, c, id);
      forall i ensures Matches(h, e.w, u, i) || Rewriting(e, u, i) {
        OwnStepMatches(h, cap, u, gen, c, id, i);
      }
    } else {
      OtherUidHonest(h, cap, u, gen, c, id);
    }
    forall i | i in e.tasks && InFlight(e, i) ensures InFlight(c, i) && e.tasks[i].r == c.tasks[i].r {
    }
  }

  lemma NotErasing(h: Digest, cap: map<Uid, nat>, u: Uid, gen: nat, c: Config, id: nat)
    requires Honest(h, cap, u, gen, c) && InFlight(c, id) && c.tasks[id].r.uid == u
    requires Round(u, gen) !in Apply(h, c, Advance(id)).deleted
    ensures !c.tasks[id].pc.Erase?
  {
    hide Step;
    assert Placed(h, c.w, c.tasks[id].r, c.tasks[id].pc);
  }

  lemma OthersStillPlaced(h: Digest, cap: map<Uid, nat>, u: Uid, gen: nat, c: Config, id: nat)
    requires Honest(h, cap, u, gen, c) && InFlight(c, id) && c.tasks[id].r.uid == u && !c.tasks[id].pc.Erase?
    ensures var e := Apply(h, c, Advance(id));
            forall k | k in c.tasks && k != id && InFlight(c, k) && c.tasks[k].r.uid == u ::
              Placed(h, e.w, c.tasks[k].r, c.tasks[k].pc)
  {
    hide Step, Placed, Matches, Rewriting, AllWithin, InPush;
    var e, t := Apply(h, c, Advance(id)), c.tasks[id];
    forall k | k in c.tasks && k != id && InFlight(c, k) && c.tasks[k].r.uid == u
      ensures Placed(h, e.w, c.tasks[k].r, c.tasks[k].pc)
    {
      OthersPlaced(h, c.w, t.r, t.pc, c.tasks[k].r, c.tasks[k].pc);
    }
  }

  lemma OtherUidRewriting(h: Digest, c: Config, id: nat, u: Uid, i: nat)
    requires InFlight(c, id) && c.tasks[id].r.uid != u && Rewriting(c, u, i)
    ensures Rewriting(Apply(h, c, Advance(id)), u, i)
  {
    hide Step;
    var k :| Rewrites(c, u, i, k);
    assert Rewrites(Apply(h, c, Advance(id)), u, i, k);
  }

  /** A step of a task of another uid. */
  lemma OtherUidHonest(h: Digest, cap: map<Uid, nat>, u: Uid, gen: nat, c: Config, id: nat)
    requires Separated(cap) && Honest(h, cap, u, gen, c) && InFlight(c, id) && c.tasks[id].r.uid != u
    ensures var e := Apply(h, c, Advance(id));
            && Current(u, gen, e.w)
            && (forall k | k in c.tasks && InFlight(c, k) && c.tasks[k].r.uid == u ::
                  Placed(h, e.w, c.tasks[k].r, c.tasks[k].pc))
            && (forall i :: Matches(h, e.w, u, i) || Rewriting(e, u, i))
  {
    AdvanceWithin(h, cap, c, id);
    hide Step, Separated, SameView, Matches, Placed, Turns;
    var e := Apply(h, c, Advance(id));
    assert SlotWithin(cap[u], c.w, u);
    ViewCurrent(u, cap[u], gen, e.w, c.w);
    forall i ensures Matches(h, e.w, u, i) || Rewriting(e, u, i) {
      assert Matches(h, c.w, u, i) || Rewriting(c, u, i);
      ViewMatches(h, u, cap[u], e.w, c.w, i);
      if Rewriting(c, u, i) {
        OtherUidRewriting(h, c, id, u, i);
      }
    }
    forall k | k in c.tasks && InFlight(c, k) && c.tasks[k].r.uid == u
      ensures Placed(h, e.w, c.tasks[k].r, c.tasks[k].pc)
    {
      ViewPlaced(h, u, cap[u], e.w, c.w, c.tasks[k].r, c.tasks[k].pc);
    }
  }

  /** Nothing of this depends on more than u's view. */
  lemma ViewCurrent(u: Uid, n: nat, gen: nat, w1: World, w2: World)
    requires SameView(u, n, w1, w2)
    ensures Current(u, gen, w2) ==> Current(u, gen, w1)
  {
  }

  lemma ViewMatches(h: Digest, u: Uid, n: nat, w1: World, w2: World, i: nat)
    requires SameView(u, n, w1, w2) && SlotWithin(n, w2, u)
    ensures Matches(h, w2, u, i) ==> Matches(h, w1, u, i)
  {
  }

  lemma ViewPlaced(h: Digest, u: Uid, n: nat, w1: World, w2: World, r: Request, pc: Pc)
    requires SameView(u, n, w1, w2) && SlotWithin(n, w2, u) && r.uid == u
    ensures Placed(h, w2, r, pc) ==> Placed(h, w1, r, pc)
  {
  }

  lemma StartTurns(h: Digest, c: Config, m: Move, u: Uid)
    requires Turns(c, u) && m.Start? && Enabled(c, m) && TakesTurn(c, m, u)
    ensures Turns(Apply(h, c, m), u)
  {
    var e := Apply(h, c, m);
    assert forall i | i in e.tasks && i != m.id :: i in c.tasks && e.tasks[i] == c.tasks[i];
    forall i | i in e.tasks && i != m.id && InFlight(e, i) ensures InFlight(c, i) {
    }
  }

  lemma StartHonest(h: Digest, cap: map<Uid, nat>, u: Uid, gen: nat, c: Config, m: Move)
    requires Honest(h, cap, u, gen, c) && m.Start? && Enabled(c, m) && Capped(cap, m) && TakesTurn(c, m, u)
    ensures Honest(h, cap, u, gen, Apply(h, c, m))
  {
    hide Matches, Turns, SlotsWithin, PcWithin;
    var e := Apply(h, c, m);
    StartTurns(h, c, m, u);
    GetWithin(cap[m.r.uid], m.r);
    assert forall i | i in e.tasks && i != m.id :: i in c.tasks && e.tasks[i] == c.tasks[i];
    forall i | i in e.tasks && InFlight(e, i) ensures i == m.id || InFlight(c, i) {
    }
    forall i ensures Matches(h, e.w, u, i) || Rewriting(e, u, i) {
      if Rewriting(c, u, i) {
        var k :| Rewrites(c, u, i, k);
        assert Rewrites(e, u, i, k);
      }
    }
  }

  lemma {:induction false} RunHonest(h: Digest, cap: map<Uid, nat>, u: Uid, gen: nat, c: Config, ms: seq<Move>)
    requires Separated(cap) && Honest(h, cap, u, gen, c) && Allowed(h, cap, c, ms) && TakingTurns(h, cap, c, ms, u)
    requires Round(u, gen) !in After(h, cap, c, ms).deleted
    ensures Honest(h, cap, u, gen, After(h, cap, c, ms))
    decreases |ms|
  {
    hide Honest, Separated, Apply, TakesTurn, Capped;
    if ms != [] {
      HistoryGrows(h, cap, Apply(h, c, ms[0]), ms[1..]);
      match ms[0] {
        case Start(_, _) => StartHonest(h, cap, u, gen, c, ms[0]);
        case Advance(id) => AdvanceHonest(h, cap, u, gen, c, id);
      }
      RunHonest(h, cap, u, gen, Apply(h, c, ms[0]), ms[1..]);
    }
  }

  /** A session of u can open: no builder, and every task of u in flight is still to look for one. */
  ghost predicate Fresh(cap: map<Uid, nat>, c: Config, u: Uid) {
    && u in cap && AllWithin(cap, c) && SlotOf(c.w, u).Null? && Round(u, Gen(c, u)) !in c.deleted && Turns(c, u)
    && (forall id | id in c.tasks && InFlight(c, id) && c.tasks[id].r.uid == u :: c.tasks[id].pc.Get?)
  }

  /** Whatever values the clients push, as long as no block is pushed twice at a time: in every state from the opening
      of a session to its deletion, a recorded digest is the digest of the block file, unless a task stands between
      opening that file and recording. */
  lemma RecordedMatches(h: Digest, cap: map<Uid, nat>, c0: Config, ms: seq<Move>, u: Uid, i: nat)
    requires Separated(cap) && Fresh(cap, c0, u) && Allowed(h, cap, c0, ms) && TakingTurns(h, cap, c0, ms, u)
    requires Round(u, Gen(c0, u)) !in After(h, cap, c0, ms).deleted
    ensures var c := After(h, cap, c0, ms); Matches(h, c.w, u, i) || Rewriting(c, u, i)
  {
    hide Separated, After, Allowed;
    assert Honest(h, cap, u, Gen(c0, u), c0);
    RunHonest(h, cap, u, Gen(c0, u), c0, ms);
  }
}
