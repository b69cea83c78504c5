/** A block sent again before the answer came: when can that damage the upload? */
module Retries {
  import opened Names
  import opened Storage
  import opened BlockStore
  import opened Tasks
  import opened Views
  import opened Interleaving
  import opened SharedUid
  import opened Runs

  /** A recorded digest stands beside a block file that does not hold the block. */
  predicate Torn(w: World, u: Uid, bs: seq<Bytes>, i: nat)
    requires 1 <= i <= |bs|
  {
    Has(w, u, i) && Find(w.files, BlockName(u, i)) != Some(bs[i - 1])
  }

  /** Opening a block file for writing empties it. */
  lemma OpenEmpties(h: Digest, c: Config, id: nat)
    requires InFlight(c, id) && c.tasks[id].pc.Open? && c.tasks[id].r.blockOpens
    requires Alive(c.w, c.tasks[id].r.uid, c.tasks[id].pc.own)
    ensures var e, r := Apply(h, c, Advance(id)), c.tasks[id].r;
            e.w.slots == c.w.slots && e.deleted == c.deleted && Find(e.w.files, BlockName(r.uid, r.idx)) == Some([])
  {
    hide GetStep, BuilderStep, BuildStep, DeleteStep;
  }

  /** The task is on its way to record a block that is not recorded in `start`, and its block file opens. */
  predicate WillRecord(h: Digest, start: World, t: Task) {
    if t.pc.Get? then t.r.blockOpens else Pushing(h, start, t.r, t.pc)
  }

  /** It can do so. */
  lemma RecordRuns(h: Digest, cap: map<Uid, nat>, c: Config, j: nat) returns (ms: seq<Move>)
    requires InFlight(c, j) && WillRecord(h, c.w, c.tasks[j]) && SlotOf(c.w, c.tasks[j].r.uid).Live?
    requires var hs := SlotOf(c.w, c.tasks[j].r.uid).hashes;
             1 <= c.tasks[j].r.idx <= |hs| && hs[c.tasks[j].r.idx - 1] == ""
    ensures Solo(j, ms) && Allowed(h, cap, c, ms)
    ensures var e, r := After(h, cap, c, ms), c.tasks[j].r;
            && (forall i | i in c.tasks && i != j :: i in e.tasks && e.tasks[i] == c.tasks[i])
            && Recorded(h, c.w, e.w, r) && SameHistory(c, e)
  {
    assert WithBuilder(c.w, c.tasks[j].r) == c.w;
    hide WithBuilder, Apply, Step;
    if c.tasks[j].pc.Get? {
      ms := PushRuns(h, cap, c, j);
    } else {
      ms := PushingRuns(h, cap, c, j);
    }
  }

  /** Task k, about to look up the builder, and task j push the same block, which is not recorded: k compares before
      j records the block, and empties its file afterwards. */
  lemma TearRuns(h: Digest, cap: map<Uid, nat>, c: Config, k: nat, j: nat) returns (ms: seq<Move>)
    requires k != j && InFlight(c, k) && InFlight(c, j)
    requires c.tasks[k].r.uid == c.tasks[j].r.uid && c.tasks[k].r.idx == c.tasks[j].r.idx
    requires c.tasks[k].pc.Get? && c.tasks[k].r.blockOpens
    requires SlotOf(c.w, c.tasks[k].r.uid).Live? || c.tasks[k].r.constructs
    requires var r := c.tasks[k].r;
             var start := WithBuilder(c.w, r);
             && 1 <= r.idx <= |SlotOf(start, r.uid).hashes| && SlotOf(start, r.uid).hashes[r.idx - 1] == ""
             && WillRecord(h, start, c.tasks[j])
    ensures Allowed(h, cap, c, ms) && forall i | 0 <= i < |ms| :: ms[i].Advance?
    ensures var e, r := After(h, cap, c, ms), c.tasks[k].r;
            e.deleted == c.deleted && Has(e.w, r.uid, r.idx) && Find(e.w.files, BlockName(r.uid, r.idx)) == Some([])
  {
    hide Apply, Step, WithBuilder;
    var r, u := c.tasks[k].r, c.tasks[k].r.uid;
    var compare := CompareRuns(h, cap, c, k);
    var c1 := After(h, cap, c, compare);
    assert c1.tasks[j] == c.tasks[j];
    var record := RecordRuns(h, cap, c1, j);
    var c2 := After(h, cap, c1, record);
    assert c2.tasks[k] == c1.tasks[k];
    OpenEmpties(h, c2, k);
    Prepend(h, cap, c2, Advance(k), []);
    Join(h, cap, c1, record, [Advance(k)]);
    Join(h, cap, c, compare, record + [Advance(k)]);
    ms := compare + (record + [Advance(k)]);
  }

  /** Some continuation before the deletion, by clients that go on to agree, tears block i. */
  ghost predicate CanTear(h: Digest, cap: map<Uid, nat>, c: Config, u: Uid, bs: seq<Bytes>, gen: nat, i: nat)
    requires 1 <= i <= |bs|
  {
    exists ms :: Continues(h, cap, c, ms, u, bs, gen) && Torn(After(h, cap, c, ms).w, u, bs, i)
  }

  lemma SoundNotTorn(h: Digest, cap: map<Uid, nat>, u: Uid, bs: seq<Bytes>, gen: nat, c: Config, i: nat)
    requires Sound(h, cap, u, bs, gen, c) && 1 <= i <= |bs|
    ensures !Torn(c.w, u, bs, i)
  {
    if Has(c.w, u, i) {
      assert Trusted(h, u, bs, SlotOf(c.w, u).hashes, c.w.files, i);
    }
  }

  /** A request that contends with no task in flight tears nothing. */
  lemma AgreeingNeverTears(h: Digest, cap: map<Uid, nat>, u: Uid, bs: seq<Bytes>, gen: nat, c: Config, m: Move, i: nat)
    requires Separated(cap) && Sound(h, cap, u, bs, gen, c) && 1 <= i <= |bs|
    requires m.Start? && Enabled(c, m) && Capped(cap, m) && Agrees(c, m, u, bs)
    ensures !CanTear(h, cap, Apply(h, c, m), u, bs, gen, i)
  {
    StartSound(h, cap, u, bs, gen, c, m);
    hide Sound, Separated, Continues, Apply, Torn;
    var e := Apply(h, c, m);
    forall ms | Continues(h, cap, e, ms, u, bs, gen)
      ensures Allowed(h, cap, e, ms) && !Torn(After(h, cap, e, ms).w, u, bs, i)
    {
      ContinuesAllowed(h, cap, e, ms, u, bs, gen);
      RunSound(h, cap, u, bs, gen, e, ms);
      SoundNotTorn(h, cap, u, bs, gen, After(h, cap, e, ms), i);
    }
  }

  /** What task j knows when its block is not recorded. */
  lemma ContenderRecords(h: Digest, cap: map<Uid, nat>, u: Uid, bs: seq<Bytes>, gen: nat, c: Config, r: Request, j: nat)
    requires Sound(h, cap, u, bs, gen, c) && r.uid == u && Fitting(r, bs)
    requires InFlight(c, j) && c.tasks[j].r.uid == u && Contend(c.w, c.tasks[j].r, r)
    ensures var start := WithBuilder(c.w, r);
            && 1 <= r.idx <= |SlotOf(start, u).hashes| && SlotOf(start, u).hashes[r.idx - 1] == ""
            && WillRecord(h, start, c.tasks[j])
  {
    hide Taken;
    var t := c.tasks[j];
    assert Knows(h, u, bs, c.w, t.r, t.pc);
    if SlotOf(c.w, u).Live? {
      TrustworthyLength(h, u, bs, c.w);
      assert !AllSet(SlotOf(c.w, u).hashes);
    }
  }

  lemma ContenderTears(h: Digest, cap: map<Uid, nat>, u: Uid, bs: seq<Bytes>, gen: nat, c: Config, k: nat, r: Request,
                       j: nat)
    requires Sound(h, cap, u, bs, gen, c) && r.uid == u && Fitting(r, bs) && bs[r.idx - 1] != [] && r.constructs
    requires k !in c.tasks && InFlight(c, j) && c.tasks[j].r.uid == u && Contend(c.w, c.tasks[j].r, r)
    ensures CanTear(h, cap, Apply(h, c, Start(k, r)), u, bs, gen, r.idx)
  {
    ContenderRecords(h, cap, u, bs, gen, c, r, j);
    assert Round(u, gen) !in c.deleted by { assert Unrecorded(c, Round(u, gen)); }
    hide Sound, WithBuilder, WillRecord;
    var e := Apply(h, c, Start(k, r));
    var ms := TearRuns(h, cap, e, k, j);
    AdvancesAgree(h, cap, e, ms, u, bs);
    hide Apply;
    assert Continues(h, cap, e, ms, u, bs, gen);
  }

  /** The retry hazard, exactly. A request for block i starts while a session of u is open. Some continuation before
      the deletion leaves a recorded digest beside a wrong block file if and only if another task of u is in flight
      with block i, block i is not recorded, and the block file opens for both. */
  lemma TearsIff(h: Digest, cap: map<Uid, nat>, c0: Config, ms: seq<Move>, u: Uid, bs: seq<Bytes>, k: nat, r: Request)
    requires Reached(h, cap, c0, ms, u, bs) && k !in After(h, cap, c0, ms).tasks
    requires r.uid == u && Fitting(r, bs) && bs[r.idx - 1] != [] && r.constructs
    ensures var c := After(h, cap, c0, ms);
            CanTear(h, cap, Apply(h, c, Start(k, r)), u, bs, Gen(c0, u), r.idx) <==>
            exists j :: Carries(c, u, r.idx, j) && Contend(c.w, c.tasks[j].r, r)
  {
    ReachedSound(h, cap, c0, ms, u, bs);
    var c := After(h, cap, c0, ms);
    hide Reached, After, Allowed, Contend;
    if j :| Carries(c, u, r.idx, j) && Contend(c.w, c.tasks[j].r, r) {
      ContenderTears(h, cap, u, bs, Gen(c0, u), c, k, r, j);
    } else {
      AgreeingNeverTears(h, cap, u, bs, Gen(c0, u), c, Start(k, r), r.idx);
    }
  }
}
