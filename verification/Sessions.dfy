/** What the table of builders and its directory implement: one small account per uid. */
module Sessions {
  import opened Names
  import opened Storage
  import opened BlockStore
  import opened Tasks
  import opened Views
  import opened Interleaving

  /** An open session has the total fixed by its first push, and a value for each block pushed so far. */
  datatype Session = Closed | Opened(total: nat, blocks: map<nat, Bytes>)

  /** `rounds` are the completed uploads; `output` is the last one that reached its file. */
  datatype Account = Account(session: Session, rounds: seq<seq<Bytes>>, output: Option<seq<Bytes>>)

  const NEW_ACCOUNT: Account := Account(Closed, [], None)

  predicate Full(blocks: map<nat, Bytes>, n: nat) {
    forall i: nat | 1 <= i <= n :: i in blocks
  }

  function Values(blocks: map<nat, Bytes>, n: nat): (vs: seq<Bytes>)
    requires Full(blocks, n)
    ensures |vs| == n && forall i | 1 <= i <= n :: vs[i - 1] == blocks[i]
  {
    seq(n, i requires 0 <= i < n => blocks[i + 1])
  }

  /** The block as it stands after a successful push: the pushed value or, when `keep` is set and the stored
      value has the same digest, the value stored before. The plain index-to-last-value map has keep = false. */
  function Stored(h: Digest, keep: bool, blocks: map<nat, Bytes>, r: Request): map<nat, Bytes> {
    if keep && Known(h, blocks, r) then blocks else blocks[r.idx := r.value]
  }

  predicate Known(h: Digest, blocks: map<nat, Bytes>, r: Request) {
    r.idx in blocks && h(blocks[r.idx]) == h(r.value)
  }

  /** One request, as the client should see it: remember the block; when none is missing, emit and start over. */
  function Post(h: Digest, keep: bool, a: Account, r: Request): Account {
    if a.session.Closed? && !r.constructs then a
    else
      var n := if a.session.Opened? then a.session.total else r.total;
      var blocks := if a.session.Opened? then a.session.blocks else map[];
      if !(1 <= r.idx <= n) || (!Known(h, blocks, r) && !r.blockOpens) then a.(session := Opened(n, blocks))
      else
        var stored := Stored(h, keep, blocks, r);
        if Full(stored, n)
        then Account(Closed, a.rounds + [Values(stored, n)],
                     if r.outputOpens then Some(Values(stored, n)) else a.output)
        else a.(session := Opened(n, stored))
  }

  function PostAll(h: Digest, keep: bool, rs: seq<Request>): Account {
    if rs == [] then NEW_ACCOUNT else Post(h, keep, PostAll(h, keep, rs[..|rs| - 1]), rs[|rs| - 1])
  }

  /** The open session: digest vector and block files hold exactly the blocks pushed, some block is missing. */
  ghost predicate Tracks(h: Digest, u: Uid, s: Session, w: World)
    requires s.Opened?
  {
    && SlotOf(w, u).Live?
    && var hs := SlotOf(w, u).hashes;
    && |hs| == s.total >= 1
    && !Full(s.blocks, s.total)
    && (forall i | i in s.blocks :: 1 <= i <= s.total)
    && (forall i | 1 <= i <= s.total ::
          if i in s.blocks then hs[i - 1] == h(s.blocks[i]) && Find(w.files, BlockName(u, i)) == Some(s.blocks[i])
          else hs[i - 1] == "")
  }

  /** The state holds exactly what the account says: the builder, the block files of the open session and no
      other block file, the finished file, one callback per round, and no builder that is ready. */
  ghost predicate Represents(h: Digest, cap: nat, u: Uid, a: Account, w: World) {
    && (a.session.Closed? <==> SlotOf(w, u).Null?)
    && (a.session.Opened? ==> Tracks(h, u, a.session, w) && a.session.total <= cap)
    && (forall i | 1 <= i <= cap :: BlockName(u, i) in w.files <==> a.session.Opened? && i in a.session.blocks)
    && Find(w.files, u) == (if a.output.Some? then Some(Concat(a.output.value)) else None)
    && |CallsOf(u, w.calls)| == if w.listening then |a.rounds| else 0
  }

  lemma RepresentsView(h: Digest, cap: nat, u: Uid, a: Account, w1: World, w2: World)
    requires Represents(h, cap, u, a, w1) && SameView(u, cap, w1, w2)
    ensures Represents(h, cap, u, a, w2)
  {
    forall i | 1 <= i <= cap ensures BlockName(u, i) in w2.files <==> a.session.Opened? && i in a.session.blocks {
      assert Find(w1.files, BlockName(u, i)) == Find(w2.files, BlockName(u, i));
    }
  }

  lemma SlotLength(h: Digest, cap: nat, u: Uid, a: Account, w: World)
    requires Represents(h, cap, u, a, w)
    ensures a.session.Opened? <==> SlotOf(w, u).Live?
    ensures a.session.Opened? ==> |SlotOf(w, u).hashes| == a.session.total <= cap
  {
  }

  /** Opening a session, or finding it open: what `Get` does. */
  lemma OpenRepresents(h: Digest, cap: nat, a: Account, w: World, r: Request)
    requires Represents(h, cap, r.uid, a, w) && r.total <= cap
    requires a.session.Opened? || r.constructs
    ensures var n := if a.session.Opened? then a.session.total else r.total;
            var blocks := if a.session.Opened? then a.session.blocks else map[];
            Represents(h, cap, r.uid, a.(session := Opened(n, blocks)), WithBuilder(w, r))
  {
    var empty: map<nat, Bytes> := map[];
    assert !Full(empty, r.total) by { assert 1 !in empty; }
  }

  /** A push into an open session, before readiness is looked at. */
  lemma PushTracks(h: Digest, cap: nat, u: Uid, a: Account, w: World, r: Request)
    requires Represents(h, cap, u, a, w) && r.uid == u && a.session.Opened? && 1 <= r.idx <= a.session.total
    ensures var hs := SlotOf(w, u).hashes;
            var p := PushBlock(h, hs, w.files, u, r.idx, r.value, r.blockOpens);
            var blocks := Stored(h, true, a.session.blocks, r);
            && (p.ok <==> Known(h, a.session.blocks, r) || r.blockOpens)
            && |p.hs| == |hs|
            && (p.ok ==>
                  && (forall i | i in blocks :: 1 <= i <= a.session.total)
                  && Find(p.files, u) == Find(w.files, u)
                  && (forall i | 1 <= i <= cap :: BlockName(u, i) in p.files <==> i in blocks)
                  && (forall i | 1 <= i <= a.session.total ::
                        if i in blocks
                        then p.hs[i - 1] == h(blocks[i]) && Find(p.files, BlockName(u, i)) == Some(blocks[i])
                        else p.hs[i - 1] == ""))
  {
    forall k: nat ensures BlockName(u, k) != u { BlockNameInjective(u, k, k); }
    forall i | 1 <= i <= cap && i != r.idx ensures BlockName(u, i) != BlockName(u, r.idx) {
      BlockNameInjective(u, i, r.idx);
    }
  }

  /** The push leaves a block missing: the session stays open. */
  lemma StayRepresents(h: Digest, cap: nat, a: Account, w: World, r: Request, p: Push)
    requires Represents(h, cap, r.uid, a, w) && a.session.Opened? && 1 <= r.idx <= a.session.total
    requires p == PushBlock(h, SlotOf(w, r.uid).hashes, w.files, r.uid, r.idx, r.value, r.blockOpens) && p.ok
    ensures var stored := Stored(h, true, a.session.blocks, r);
            && (AllSet(p.hs) <==> Full(stored, a.session.total))
            && (!AllSet(p.hs) ==>
                  Represents(h, cap, r.uid, a.(session := Opened(a.session.total, stored)),
                             w.(files := p.files, slots := w.slots[r.uid := Live(p.hs)])))
  {
    PushTracks(h, cap, r.uid, a, w, r);
    var stored, n := Stored(h, true, a.session.blocks, r), a.session.total;
    if AllSet(p.hs) {
      forall i: nat | 1 <= i <= n ensures i in stored {
        assert p.hs[i - 1] != "";
      }
    }
    if Full(stored, n) {
      forall i | 0 <= i < |p.hs| ensures p.hs[i] != "" {
        assert i + 1 in stored;
      }
    }
  }

  /** `build` and `clear` over files that hold vs and no further block of u. */
  lemma BuildAndClear(files: Files, u: Uid, vs: seq<Bytes>, cap: nat, opens: bool)
    requires |vs| <= cap && FilesHold(files, u, vs)
    requires forall i | |vs| < i <= cap :: BlockName(u, i) !in files
    ensures var after := Cleared(Built(files, u, |vs|, opens), u, |vs|);
            && Complete(files, u, |vs|)
            && Find(after, u) == (if opens then Some(Concat(vs)) else Find(files, u))
            && (forall i | 1 <= i <= cap :: BlockName(u, i) !in after)
  {
    GatherIsConcat(files, u, vs);
    forall k: nat ensures BlockName(u, k) != u { BlockNameInjective(u, k, k); }
    forall i | 1 <= i <= |vs| ensures BlockName(u, i) in BlockNames(u, |vs|) {
    }
    assert u !in BlockNames(u, |vs|);
  }

  /** The push completes the round: every block file holds its block and there is no other. */
  lemma CompletedFiles(h: Digest, cap: nat, a: Account, w: World, r: Request, p: Push)
    requires Represents(h, cap, r.uid, a, w) && a.session.Opened? && 1 <= r.idx <= a.session.total
    requires p == PushBlock(h, SlotOf(w, r.uid).hashes, w.files, r.uid, r.idx, r.value, r.blockOpens) && p.ok
    requires AllSet(p.hs)
    ensures var stored, n := Stored(h, true, a.session.blocks, r), a.session.total;
            && Full(stored, n) && |p.hs| == n <= cap && FilesHold(p.files, r.uid, Values(stored, n))
            && (forall i | n < i <= cap :: BlockName(r.uid, i) !in p.files)
            && Find(p.files, r.uid) == Find(w.files, r.uid)
  {
    hide PushBlock, Represents, Tracks, AllSet, Full;
    SlotLength(h, cap, r.uid, a, w);
    PushTracks(h, cap, r.uid, a, w, r);
    StayRepresents(h, cap, a, w, r, p);
    var stored, n := Stored(h, true, a.session.blocks, r), a.session.total;
    forall i | 1 <= i <= n
      ensures BlockName(r.uid, i) in p.files && p.files[BlockName(r.uid, i)] == Values(stored, n)[i - 1]
    {
      FullHas(stored, n, i);
    }
  }

  lemma FullHas(blocks: map<nat, Bytes>, n: nat, i: nat)
    requires Full(blocks, n) && 1 <= i <= n
    ensures i in blocks
  {
  }

  /** Then the file is the concatenation of the blocks and the block files are gone. */
  lemma CloseRepresents(h: Digest, cap: nat, a: Account, w: World, u: Uid, files: Files, vs: seq<Bytes>, opens: bool)
    requires Represents(h, cap, u, a, w) && |vs| <= cap && FilesHold(files, u, vs)
    requires forall i | |vs| < i <= cap :: BlockName(u, i) !in files
    requires Find(files, u) == Find(w.files, u)
    ensures Complete(files, u, |vs|)
    ensures Represents(h, cap, u, Account(Closed, a.rounds + [vs], if opens then Some(vs) else a.output),
                       w.(files := Cleared(Built(files, u, |vs|, opens), u, |vs|), slots := w.slots - {u},
                          calls := if w.listening then w.calls + [u] else w.calls))
  {
    BuildAndClear(files, u, vs, cap, opens);
    CallsOfAppend(u, w.calls, u);
    hide Cleared, Built, Complete, FilesHold, Tracks;
  }

  /** One request, on the state and on the account. */
  lemma ServeRepresents(h: Digest, cap: nat, a: Account, w: World, r: Request)
    requires Represents(h, cap, r.uid, a, w) && r.total <= cap
    ensures Represents(h, cap, r.uid, Post(h, true, a, r), Serve(h, w, r).0)
  {
    hide Represents, Tracks, PushBlock;
    if a.session.Opened? || r.constructs {
      OpenRepresents(h, cap, a, w, r);
      var n := if a.session.Opened? then a.session.total else r.total;
      var blocks := if a.session.Opened? then a.session.blocks else map[];
      var a1 := a.(session := Opened(n, blocks));
      SlotLength(h, cap, r.uid, a, w);
      ServeOpened(h, cap, a1, WithBuilder(w, r), r, SlotOf(WithBuilder(w, r), r.uid).hashes);
    } else {
      SlotLength(h, cap, r.uid, a, w);
      NullRepresents(h, cap, a, w, r.uid);
    }
  }

  lemma NullRepresents(h: Digest, cap: nat, a: Account, w: World, u: Uid)
    requires Represents(h, cap, u, a, w) && a.session.Closed?
    ensures Represents(h, cap, u, a, w.(slots := w.slots[u := Null]))
  {
  }

  lemma ServeOpened(h: Digest, cap: nat, a: Account, w: World, r: Request, hs: seq<string>)
    requires Represents(h, cap, r.uid, a, w) && a.session.Opened? && SlotOf(w, r.uid) == Live(hs)
    ensures Represents(h, cap, r.uid, Post(h, true, a, r), ServeLive(h, w, r, hs).0)
    ensures ServeLive(h, w, r, hs).1 == Undefined <==> !(1 <= r.idx <= a.session.total)
    ensures ServeLive(h, w, r, hs).1 == Threw <==>
            1 <= r.idx <= a.session.total && !Known(h, a.session.blocks, r) && !r.blockOpens
    ensures ServeLive(h, w, r, hs).1 != Returned ==> ServeLive(h, w, r, hs).0 == w
  {
    hide Represents, Tracks, PushBlock, Complete, Built, Cleared;
    SlotLength(h, cap, r.uid, a, w);
    if 1 <= r.idx <= a.session.total {
      var p := PushBlock(h, hs, w.files, r.uid, r.idx, r.value, r.blockOpens);
      PushTracks(h, cap, r.uid, a, w, r);
      if p.ok {
        StayRepresents(h, cap, a, w, r, p);
        if AllSet(p.hs) {
          CompletedFiles(h, cap, a, w, r, p);
          var vs := Values(Stored(h, true, a.session.blocks, r), a.session.total);
          CloseRepresents(h, cap, a, w, r.uid, p.files, vs, r.outputOpens);
        }
      }
    }
  }

  /** A request is undefined exactly when a builder is at hand and the block number is outside 1..total of the
      session: the total the session was opened with, not the one in the request. */
  lemma UndefinedIff(h: Digest, cap: nat, a: Account, w: World, r: Request)
    requires Represents(h, cap, r.uid, a, w) && r.total <= cap
    ensures Serve(h, w, r).1 == Undefined <==>
            if a.session.Opened? then !(1 <= r.idx <= a.session.total) else r.constructs && !(1 <= r.idx <= r.total)
  {
    SlotLength(h, cap, r.uid, a, w);
    hide Represents, PushBlock, Complete, Built, Cleared;
  }

  /** The block number is one of the session: of the open one or, if there is none, of the one the request opens. */
  predicate InRange(a: Account, r: Request) {
    1 <= r.idx <= if a.session.Opened? then a.session.total else r.total
  }

  /** An operation that the request needs fails: making a builder, or opening the file of a block that is not held
      with the same digest already. */
  predicate Fails(h: Digest, a: Account, r: Request) {
    || (a.session.Closed? && !r.constructs)
    || (InRange(a, r) && !(a.session.Opened? && Known(h, a.session.blocks, r)) && !r.blockOpens)
  }

  /** How a request ends, from the account alone: by an exception exactly when an operation it needs fails, undefined
      exactly when its builder does not have the block, and else it returns, whether or not it completes the upload.
      A request that does not return leaves files, callbacks and an open session as they were. */
  lemma OutcomeIff(h: Digest, cap: nat, a: Account, w: World, r: Request)
    requires Represents(h, cap, r.uid, a, w) && r.total <= cap
    ensures var (w', outcome) := Serve(h, w, r);
            && (outcome == Threw <==> Fails(h, a, r))
            && (outcome == Undefined <==> (a.session.Opened? || r.constructs) && !InRange(a, r))
            && (outcome != Returned ==>
                  w'.files == w.files && w'.calls == w.calls && (a.session.Opened? ==> w' == w))
  {
    SlotLength(h, cap, r.uid, a, w);
    if a.session.Opened? || r.constructs {
      OpenRepresents(h, cap, a, w, r);
      var n := if a.session.Opened? then a.session.total else r.total;
      var blocks := if a.session.Opened? then a.session.blocks else map[];
      var w1 := WithBuilder(w, r);
      assert w1.files == w.files && w1.calls == w.calls && (a.session.Opened? ==> w1 == w);
      ServeOpened(h, cap, a.(session := Opened(n, blocks)), w1, r, SlotOf(w1, r.uid).hashes);
      hide Represents, ServeLive, WithBuilder;
    }
  }

  /** A request that returns has taken effect: its block is recorded with its digest, and the file has that digest,
      unless the upload is complete and the builder gone; every other block is as it was. */
  lemma ReturnedRecords(h: Digest, cap: nat, a: Account, w: World, r: Request)
    requires Represents(h, cap, r.uid, a, w) && r.total <= cap && Serve(h, w, r).1 == Returned
    requires SlotOf(Serve(h, w, r).0, r.uid).Live?
    ensures var w', u := Serve(h, w, r).0, r.uid;
            var hs := SlotOf(w', u).hashes;
            && |hs| == (if a.session.Opened? then a.session.total else r.total) && 1 <= r.idx <= |hs|
            && hs[r.idx - 1] == h(r.value)
            && Find(w'.files, BlockName(u, r.idx)).Some? && h(Find(w'.files, BlockName(u, r.idx)).value) == h(r.value)
            && (forall i | 1 <= i <= |hs| && i != r.idx ::
                  && Find(w'.files, BlockName(u, i)) == Find(w.files, BlockName(u, i))
                  && hs[i - 1] == if SlotOf(w, u).Live? then SlotOf(w, u).hashes[i - 1] else "")
            && w'.calls == w.calls && Find(w'.files, u) == Find(w.files, u)
  {
    SlotLength(h, cap, r.uid, a, w);
    OutcomeIff(h, cap, a, w, r);
    OpenRepresents(h, cap, a, w, r);
    var n := if a.session.Opened? then a.session.total else r.total;
    var blocks := if a.session.Opened? then a.session.blocks else map[];
    RecordedLive(h, cap, a.(session := Opened(n, blocks)), WithBuilder(w, r), r);
    assert WithBuilder(w, r).files == w.files && WithBuilder(w, r).calls == w.calls;
    hide Represents, ServeLive, Known;
  }

  lemma RecordedLive(h: Digest, cap: nat, a: Account, w: World, r: Request)
    requires Represents(h, cap, r.uid, a, w) && a.session.Opened? && 1 <= r.idx <= a.session.total
    requires var (w', outcome) := ServeLive(h, w, r, SlotOf(w, r.uid).hashes);
             outcome == Returned && SlotOf(w', r.uid).Live?
    ensures var w', u := ServeLive(h, w, r, SlotOf(w, r.uid).hashes).0, r.uid;
            var hs := SlotOf(w', u).hashes;
            && |hs| == a.session.total && hs[r.idx - 1] == h(r.value)
            && Find(w'.files, BlockName(u, r.idx)).Some? && h(Find(w'.files, BlockName(u, r.idx)).value) == h(r.value)
            && (forall i | 1 <= i <= |hs| && i != r.idx ::
                  && Find(w'.files, BlockName(u, i)) == Find(w.files, BlockName(u, i))
                  && hs[i - 1] == SlotOf(w, u).hashes[i - 1])
            && w'.calls == w.calls && Find(w'.files, u) == Find(w.files, u)
  {
    PushTracks(h, cap, r.uid, a, w, r);
    forall i | i != r.idx ensures i >= 0 ==> BlockName(r.uid, i) != BlockName(r.uid, r.idx) {
      if i >= 0 {
        BlockNameInjective(r.uid, i, r.idx);
      }
    }
    assert h(r.value) != "";
    hide Cleared, Built, Complete;
  }

  /** An empty table entry is left behind exactly when there was no builder and none could be made. */
  lemma NullLeftIff(h: Digest, cap: nat, a: Account, w: World, r: Request)
    requires Represents(h, cap, r.uid, a, w) && r.total <= cap
    ensures var w' := Serve(h, w, r).0;
            r.uid in w'.slots && w'.slots[r.uid].Null? <==> a.session.Closed? && !r.constructs
  {
    SlotLength(h, cap, r.uid, a, w);
    if a.session.Opened? || r.constructs {
      LiveOrGone(h, WithBuilder(w, r), r, SlotOf(WithBuilder(w, r), r.uid).hashes);
    }
    hide Represents, ServeLive;
  }

  lemma LiveOrGone(h: Digest, w: World, r: Request, hs: seq<string>)
    requires SlotOf(w, r.uid) == Live(hs)
    ensures var w' := ServeLive(h, w, r, hs).0; r.uid in w'.slots ==> w'.slots[r.uid].Live?
  {
    hide PushBlock, AllSet, Complete, Built, Cleared;
  }

  function Empty(listening: bool): World {
    World(map[], map[], map[], [], listening)
  }

  lemma {:induction false} OneUidRefines(h: Digest, cap: nat, u: Uid, w0: World, rs: seq<Request>)
    requires w0 == Empty(w0.listening)
    requires forall k | 0 <= k < |rs| :: rs[k].uid == u && rs[k].total <= cap
    ensures Represents(h, cap, u, PostAll(h, true, rs), RunAll(h, w0, rs))
  {
    if rs != [] {
      OneUidRefines(h, cap, u, w0, rs[..|rs| - 1]);
      ServeRepresents(h, cap, PostAll(h, true, rs[..|rs| - 1]), RunAll(h, w0, rs[..|rs| - 1]), rs[|rs| - 1]);
    }
  }

  lemma {:induction false} OfCapped(cap: map<Uid, nat>, u: Uid, rs: seq<Request>)
    requires AllCapped(cap, rs) && u in cap
    ensures forall k | 0 <= k < |Of(u, rs)| :: Of(u, rs)[k].uid == u && Of(u, rs)[k].total <= cap[u]
  {
    if rs != [] {
      OfCapped(cap, u, rs[..|rs| - 1]);
    }
  }

  /** The whole table: in every state of a run that starts with an empty directory, however its tasks are
      interleaved and whatever the tasks of other uids are in the middle of, every uid without a task in flight
      stands where its own requests put its account. */
  lemma SessionRefinement(h: Digest, cap: map<Uid, nat>, w0: World, ms: seq<Move>)
    requires Separated(cap) && w0 == Empty(w0.listening)
    requires Allowed(h, cap, Initial(w0), ms) && Serialised(h, cap, Initial(w0), ms)
    ensures var c := After(h, cap, Initial(w0), ms);
            && Untouched(cap, w0, c.w)
            && forall u | u in cap && Idle(c, u) :: Represents(h, cap[u], u, PostAll(h, true, Of(u, c.started)), c.w)
  {
    hide Serve, SameView, Represents, Separated;
    var c := After(h, cap, Initial(w0), ms);
    InitialReduces(h, cap, w0);
    RunReduces(h, cap, w0, Initial(w0), ms);
    forall u | u in cap && Idle(c, u) ensures Represents(h, cap[u], u, PostAll(h, true, Of(u, c.started)), c.w) {
      OfCapped(cap, u, c.started);
      OneUidRefines(h, cap[u], u, w0, Of(u, c.started));
      SameViewSymmetric(u, cap[u], c.w, RunAll(h, w0, Of(u, c.started)));
      RepresentsView(h, cap[u], u, PostAll(h, true, Of(u, c.started)), RunAll(h, w0, Of(u, c.started)), c.w);
    }
  }

  /** A task in flight will end undefined exactly when its block number lies outside 1..total of the session it
      meets; in particular, tasks of one uid that do not overlap never use a deleted builder. */
  lemma InFlightUndefinedIff(h: Digest, cap: map<Uid, nat>, w0: World, ms: seq<Move>, id: nat)
    requires Separated(cap) && w0 == Empty(w0.listening)
    requires Allowed(h, cap, Initial(w0), ms) && Serialised(h, cap, Initial(w0), ms)
    requires InFlight(After(h, cap, Initial(w0), ms), id)
    ensures var c := After(h, cap, Initial(w0), ms);
            var r, mine := c.tasks[id].r, Of(c.tasks[id].r.uid, c.started);
            && mine != []
            && var a := PostAll(h, true, mine[..|mine| - 1]);
               Finish(h, c.w, r, c.tasks[id].pc).1 == Undefined <==>
               if a.session.Opened? then !(1 <= r.idx <= a.session.total) else r.constructs && !(1 <= r.idx <= r.total)
  {
    hide Serve, Finish, SameView, Represents, Separated, Step;
    var c := After(h, cap, Initial(w0), ms);
    var r, u := c.tasks[id].r, c.tasks[id].r.uid;
    var mine := Of(u, c.started);
    OutcomeReduces(h, cap, w0, ms, id);
    InitialReduces(h, cap, w0);
    RunReduces(h, cap, w0, Initial(w0), ms);
    assert TaskReduces(h, cap, w0, c, c.tasks[id]);
    assert LastOf(r, c.started);
    OfCapped(cap, u, c.started);
    var init := mine[..|mine| - 1];
    OneUidRefines(h, cap[u], u, w0, init);
    UndefinedIff(h, cap[u], PostAll(h, true, init), RunAll(h, w0, init), r);
  }

  /** And it will end by an exception exactly when an operation it needs fails; else, and in range, it returns. */
  lemma InFlightOutcomeIff(h: Digest, cap: map<Uid, nat>, w0: World, ms: seq<Move>, id: nat)
    requires Separated(cap) && w0 == Empty(w0.listening)
    requires Allowed(h, cap, Initial(w0), ms) && Serialised(h, cap, Initial(w0), ms)
    requires InFlight(After(h, cap, Initial(w0), ms), id)
    ensures var c := After(h, cap, Initial(w0), ms);
            var r, mine := c.tasks[id].r, Of(c.tasks[id].r.uid, c.started);
            && mine != []
            && var a, outcome := PostAll(h, true, mine[..|mine| - 1]), Finish(h, c.w, r, c.tasks[id].pc).1;
               && (outcome == Threw <==> Fails(h, a, r))
               && (outcome == Returned <==> InRange(a, r) && !Fails(h, a, r))
  {
    hide Serve, Finish, SameView, Represents, Separated, Step;
    var c := After(h, cap, Initial(w0), ms);
    var r, u := c.tasks[id].r, c.tasks[id].r.uid;
    var mine := Of(u, c.started);
    OutcomeReduces(h, cap, w0, ms, id);
    InitialReduces(h, cap, w0);
    RunReduces(h, cap, w0, Initial(w0), ms);
    assert TaskReduces(h, cap, w0, c, c.tasks[id]);
    assert LastOf(r, c.started);
    OfCapped(cap, u, c.started);
    var init := mine[..|mine| - 1];
    OneUidRefines(h, cap[u], u, w0, init);
    OutcomeIff(h, cap[u], PostAll(h, true, init), RunAll(h, w0, init), r);
  }

  /** The file name x belongs to account a of u: its finished file, or a block of its open session. */
  ghost predicate Accounted(u: Uid, a: Account, x: Name) {
    || (x == u && a.output.Some?)
    || (a.session.Opened? && exists i: nat :: i in a.session.blocks && x == BlockName(u, i))
  }

  /** Nothing leaks and no output is lost: at a quiet point the directory holds the finished files and the
      blocks of open sessions and no other file; their bytes are those SessionRefinement states. */
  lemma DirectoryExact(h: Digest, cap: map<Uid, nat>, w0: World, ms: seq<Move>)
    requires Separated(cap) && w0 == Empty(w0.listening)
    requires Allowed(h, cap, Initial(w0), ms) && Serialised(h, cap, Initial(w0), ms)
    requires Quiet(After(h, cap, Initial(w0), ms))
    ensures var c := After(h, cap, Initial(w0), ms);
            forall x: Name :: x in c.w.files <==>
              exists u: Uid :: u in cap && Accounted(u, PostAll(h, true, Of(u, c.started)), x)
  {
    SessionRefinement(h, cap, w0, ms);
    var c := After(h, cap, Initial(w0), ms);
    hide PostAll, Represents, Untouched, After, Allowed, Serialised;
    forall x: Name
      ensures x in c.w.files <==> exists u: Uid :: u in cap && Accounted(u, PostAll(h, true, Of(u, c.started)), x)
    {
      NameAccounted(h, cap, w0, c, x);
    }
  }

  lemma NameAccounted(h: Digest, cap: map<Uid, nat>, w0: World, c: Config, x: Name)
    requires w0.files == map[] && Untouched(cap, w0, c.w)
    requires forall u | u in cap :: Represents(h, cap[u], u, PostAll(h, true, Of(u, c.started)), c.w)
    ensures x in c.w.files <==> exists u: Uid :: u in cap && Accounted(u, PostAll(h, true, Of(u, c.started)), x)
  {
    if x in c.w.files {
      assert Find(c.w.files, x) != Find(w0.files, x);
      var u :| u in cap && Owns(u, cap[u], x);
      var a := PostAll(h, true, Of(u, c.started));
      assert Represents(h, cap[u], u, a, c.w);
      if x != u {
        var i: nat :| 1 <= i <= cap[u] && x == BlockName(u, i);
        assert i in a.session.blocks;
      }
      assert Accounted(u, a, x);
    }
    if u: Uid :| u in cap && Accounted(u, PostAll(h, true, Of(u, c.started)), x) {
      var a := PostAll(h, true, Of(u, c.started));
      assert Represents(h, cap[u], u, a, c.w);
      if x != u || a.output.None? {
        var i: nat :| i in a.session.blocks && x == BlockName(u, i);
        assert 1 <= i <= a.session.total;
      }
    }
  }

  ghost predicate SameDigests(h: Digest, vs: seq<Bytes>, ws: seq<Bytes>) {
    |vs| == |ws| && forall k | 0 <= k < |vs| :: h(vs[k]) == h(ws[k])
  }

  ghost predicate AlikeBlocks(h: Digest, a: map<nat, Bytes>, b: map<nat, Bytes>) {
    a.Keys == b.Keys && forall i | i in a :: h(a[i]) == h(b[i])
  }

  /** Equal up to values with the same digest. */
  ghost predicate Alike(h: Digest, a: Account, b: Account) {
    && (a.session.Opened? <==> b.session.Opened?)
    && (a.session.Opened? ==>
          a.session.total == b.session.total && AlikeBlocks(h, a.session.blocks, b.session.blocks))
    && |a.rounds| == |b.rounds|
    && (forall k | 0 <= k < |a.rounds| :: SameDigests(h, a.rounds[k], b.rounds[k]))
    && (a.output.Some? <==> b.output.Some?)
    && (a.output.Some? ==> SameDigests(h, a.output.value, b.output.value))
  }

  lemma StoredAlike(h: Digest, a: map<nat, Bytes>, b: map<nat, Bytes>, r: Request)
    requires AlikeBlocks(h, a, b)
    ensures Known(h, a, r) <==> Known(h, b, r)
    ensures AlikeBlocks(h, Stored(h, true, a, r), Stored(h, false, b, r))
  {
    assert r.idx in a <==> r.idx in b;
  }

  lemma ValuesAlike(h: Digest, a: map<nat, Bytes>, b: map<nat, Bytes>, n: nat)
    requires AlikeBlocks(h, a, b)
    ensures Full(a, n) <==> Full(b, n)
    ensures Full(a, n) ==> SameDigests(h, Values(a, n), Values(b, n))
  {
    forall i: nat ensures i in a <==> i in b {
      assert i in a.Keys <==> i in b.Keys;
    }
    if Full(a, n) {
      forall k | 0 <= k < n ensures h(Values(a, n)[k]) == h(Values(b, n)[k]) {
        assert k + 1 in a;
        assert Values(a, n)[(k + 1) - 1] == a[k + 1] && Values(b, n)[(k + 1) - 1] == b[k + 1];
      }
    }
  }

  lemma PostAlike(h: Digest, a: Account, b: Account, r: Request)
    requires Alike(h, a, b)
    ensures Alike(h, Post(h, true, a, r), Post(h, false, b, r))
  {
    if a.session.Opened? || r.constructs {
      var n := if a.session.Opened? then a.session.total else r.total;
      var ba := if a.session.Opened? then a.session.blocks else map[];
      var bb := if b.session.Opened? then b.session.blocks else map[];
      StoredAlike(h, ba, bb, r);
      ValuesAlike(h, Stored(h, true, ba, r), Stored(h, false, bb, r), n);
      hide AlikeBlocks, Full, SameDigests, Stored, Known, Values;
      if Full(Stored(h, true, ba, r), n) {
        RoundAlike(h, a, b, Values(Stored(h, true, ba, r), n), Values(Stored(h, false, bb, r), n), r.outputOpens);
      }
    }
  }

  /** One round more. */
  lemma RoundAlike(h: Digest, a: Account, b: Account, va: seq<Bytes>, vb: seq<Bytes>, opens: bool)
    requires Alike(h, a, b) && SameDigests(h, va, vb)
    ensures Alike(h, Account(Closed, a.rounds + [va], if opens then Some(va) else a.output),
                  Account(Closed, b.rounds + [vb], if opens then Some(vb) else b.output))
  {
    hide SameDigests, AlikeBlocks;
  }

  /** The values in the blocks are values pushed for those blocks. */
  ghost predicate Pushed(s: Session, rs: seq<Request>) {
    s.Opened? ==> forall i | i in s.blocks :: exists k :: 0 <= k < |rs| && rs[k].idx == i && rs[k].value == s.blocks[i]
  }

  /** No two different values pushed for the same block have the same digest. */
  ghost predicate NoClash(h: Digest, rs: seq<Request>) {
    forall j, k | 0 <= j < |rs| && 0 <= k < |rs| && rs[j].idx == rs[k].idx && h(rs[j].value) == h(rs[k].value) ::
      rs[j].value == rs[k].value
  }

  lemma NoClashAgrees(h: Digest, a: Account, init: seq<Request>, r: Request)
    requires Pushed(a.session, init) && NoClash(h, init + [r])
    ensures Post(h, true, a, r) == Post(h, false, a, r)
  {
    hide Post;
    SkipLosesIff(h, a, r);
    if a.session.Opened? && Known(h, a.session.blocks, r) {
      var k :| 0 <= k < |init| && init[k].idx == r.idx && init[k].value == a.session.blocks[r.idx];
      var rs := init + [r];
      assert rs[k] == init[k] && rs[|init|] == r;
    }
  }

  lemma NoClashPrefix(h: Digest, init: seq<Request>, r: Request)
    requires NoClash(h, init + [r])
    ensures NoClash(h, init)
  {
    assert forall k | 0 <= k < |init| :: (init + [r])[k] == init[k];
  }

  /** Skipping blocks whose digest is known implements the plain map from block to last value: always up to
      values with equal digests, and exactly when no two values pushed for one block collide. */
  lemma {:induction false} SkipRefinesPlain(h: Digest, rs: seq<Request>)
    ensures Alike(h, PostAll(h, true, rs), PostAll(h, false, rs))
    ensures Pushed(PostAll(h, true, rs).session, rs)
    ensures NoClash(h, rs) ==> PostAll(h, true, rs) == PostAll(h, false, rs)
  {
    hide Alike, Post, Pushed, NoClash;
    if rs == [] {
      AlikeReflexive(h, NEW_ACCOUNT);
      NothingPushed();
    } else {
      var init, r := rs[..|rs| - 1], rs[|rs| - 1];
      SkipRefinesPlain(h, init);
      assert init + [r] == rs;
      PostAlike(h, PostAll(h, true, init), PostAll(h, false, init), r);
      PostPushed(h, PostAll(h, true, init), init, r);
      if NoClash(h, rs) {
        NoClashPrefix(h, init, r);
        NoClashAgrees(h, PostAll(h, true, init), init, r);
      }
    }
  }

  lemma NothingPushed()
    ensures Pushed(NEW_ACCOUNT.session, [])
  {
  }

  lemma AlikeReflexive(h: Digest, a: Account)
    ensures Alike(h, a, a)
  {
  }

  lemma PostPushed(h: Digest, a: Account, rs: seq<Request>, r: Request)
    requires Pushed(a.session, rs)
    ensures Pushed(Post(h, true, a, r).session, rs + [r])
  {
    var s := Post(h, true, a, r).session;
    if s.Opened? {
      forall i | i in s.blocks
        ensures exists k :: 0 <= k < |rs + [r]| && (rs + [r])[k].idx == i && (rs + [r])[k].value == s.blocks[i]
      {
        if a.session.Opened? && i in a.session.blocks && s.blocks[i] == a.session.blocks[i] {
          var k :| 0 <= k < |rs| && rs[k].idx == i && rs[k].value == a.session.blocks[i];
          assert (rs + [r])[k] == rs[k];
        } else {
          assert (rs + [r])[|rs|] == r;
        }
      }
    }
  }

  /** One request makes the digest test lose the pushed value exactly when the block is in range and holds
      other bytes with the same digest. */
  lemma SkipLosesIff(h: Digest, a: Account, r: Request)
    ensures Post(h, true, a, r) == Post(h, false, a, r) <==>
            !(a.session.Opened? && 1 <= r.idx <= a.session.total
              && Known(h, a.session.blocks, r) && a.session.blocks[r.idx] != r.value)
  {
    if a.session.Opened? && Known(h, a.session.blocks, r) {
      var kept, last, n := a.session.blocks, a.session.blocks[r.idx := r.value], a.session.total;
      assert Full(kept, n) <==> Full(last, n) by {
        assert kept.Keys == last.Keys;
        if Full(kept, n) { forall i: nat | 1 <= i <= n ensures i in last { assert i in kept; } }
        if Full(last, n) { forall i: nat | 1 <= i <= n ensures i in kept { assert i in last; } }
      }
      if 1 <= r.idx <= n && kept[r.idx] != r.value {
        assert kept != last;
        if Full(kept, n) {
          assert Values(kept, n)[r.idx - 1] != Values(last, n)[r.idx - 1];
          var k := |a.rounds|;
          assert (a.rounds + [Values(kept, n)])[k] != (a.rounds + [Values(last, n)])[k];
        }
      } else if kept[r.idx] == r.value {
        assert kept == last;
      }
    }
  }

  /** Some request up to number k could make a builder. */
  predicate OpenedBy(rs: seq<Request>, k: int) {
    exists j | 0 <= j < |rs| :: j <= k && rs[j].constructs
  }

  /** Request k was in time and its block file opened. */
  predicate Lands(rs: seq<Request>, k: nat)
    requires k < |rs|
  {
    rs[k].blockOpens && OpenedBy(rs, k)
  }

  predicate Has(rs: seq<Request>, i: nat) {
    exists k | 0 <= k < |rs| :: rs[k].idx == i && Lands(rs, k)
  }

  predicate Covers(rs: seq<Request>, n: nat) {
    forall i: nat | 1 <= i <= n :: Has(rs, i)
  }

  /** Requests that upload the file cut into bs, in any order and with any repetitions. Any of them may fail. Only the
      total of the first one that makes a builder matters. */
  ghost predicate Uploads(bs: seq<Bytes>, rs: seq<Request>) {
    && (forall k | 0 <= k < |rs| :: rs[k].constructs && !OpenedBy(rs, k - 1) ==> rs[k].total == |bs|)
    && forall k | 0 <= k < |rs| :: 1 <= rs[k].idx <= |bs| && rs[k].value == bs[rs[k].idx - 1]
  }

  ghost predicate Holding(bs: seq<Bytes>, rs: seq<Request>, blocks: map<nat, Bytes>) {
    && (forall i :: i in blocks <==> Has(rs, i))
    && forall i | i in blocks :: 1 <= i <= |bs| && blocks[i] == bs[i - 1]
  }

  lemma OpenedAppend(init: seq<Request>, r: Request)
    ensures forall k | k < |init| :: OpenedBy(init + [r], k) <==> OpenedBy(init, k)
    ensures OpenedBy(init + [r], |init|) <==> OpenedBy(init, |init| - 1) || r.constructs
  {
    assert forall j | 0 <= j < |init| :: (init + [r])[j] == init[j];
    assert (init + [r])[|init|] == r;
    if r.constructs {
      assert OpenedBy(init + [r], |init|);
    }
    if OpenedBy(init, |init| - 1) {
      var j :| 0 <= j < |init| && init[j].constructs;
      assert (init + [r])[j].constructs;
    }
  }

  lemma HasAppend(init: seq<Request>, r: Request, i: nat)
    ensures Has(init + [r], i) <==>
            Has(init, i) || (r.idx == i && r.blockOpens && (OpenedBy(init, |init| - 1) || r.constructs))
  {
    OpenedAppend(init, r);
    var rs := init + [r];
    if Has(init, i) {
      var k :| 0 <= k < |init| && init[k].idx == i && Lands(init, k);
      assert rs[k] == init[k] && Lands(rs, k);
    }
    if Has(rs, i) {
      var k :| 0 <= k < |rs| && rs[k].idx == i && Lands(rs, k);
      assert k < |init| ==> Lands(init, k) && init[k] == rs[k];
    }
    assert rs[|init|] == r;
    if r.idx == i && r.blockOpens && (OpenedBy(init, |init| - 1) || r.constructs) {
      assert Lands(rs, |init|);
    }
  }

  /** What a session holds after one more request, if there is a builder. */
  function HeldNext(h: Digest, blocks: map<nat, Bytes>, r: Request): map<nat, Bytes> {
    if Known(h, blocks, r) || r.blockOpens then Stored(h, true, blocks, r) else blocks
  }

  lemma HoldingNext(h: Digest, bs: seq<Bytes>, init: seq<Request>, r: Request, blocks: map<nat, Bytes>)
    requires Holding(bs, init, blocks) && 1 <= r.idx <= |bs| && r.value == bs[r.idx - 1]
    requires OpenedBy(init, |init| - 1) || r.constructs
    ensures Holding(bs, init + [r], HeldNext(h, blocks, r))
  {
    forall i: nat ensures Has(init + [r], i) <==> Has(init, i) || (i == r.idx && r.blockOpens) {
      HasAppend(init, r, i);
    }
  }

  /** The account after requests rs, which come after `before` closed its last session and do not complete a file. */
  ghost predicate Partial(bs: seq<Bytes>, rs: seq<Request>, before: Account, a: Account) {
    && a.rounds == before.rounds && a.output == before.output
    && if OpenedBy(rs, |rs| - 1)
       then a.session.Opened? && a.session.total == |bs| && Holding(bs, rs, a.session.blocks)
       else a.session.Closed?
  }

  lemma NothingHas(rs: seq<Request>)
    requires !OpenedBy(rs, |rs| - 1)
    ensures forall i :: !Has(rs, i)
  {
    assert forall k | 0 <= k < |rs| :: OpenedBy(rs, k) ==> OpenedBy(rs, |rs| - 1);
  }

  lemma UploadsAppend(bs: seq<Bytes>, init: seq<Request>, r: Request)
    requires Uploads(bs, init + [r])
    ensures Uploads(bs, init) && 1 <= r.idx <= |bs| && r.value == bs[r.idx - 1]
    ensures r.constructs && !OpenedBy(init, |init| - 1) ==> r.total == |bs|
  {
    OpenedAppend(init, r);
    assert forall j | 0 <= j < |init| :: (init + [r])[j] == init[j];
    assert (init + [r])[|init|] == r;
  }

  /** One request of an upload, before its block may complete the file: what its session holds. */
  lemma PartialHolds(bs: seq<Bytes>, init: seq<Request>, r: Request, before: Account, a: Account)
      returns (blocks: map<nat, Bytes>)
    requires Partial(bs, init, before, a) && Uploads(bs, init + [r])
    requires OpenedBy(init, |init| - 1) || r.constructs
    ensures Holding(bs, init, blocks)
    ensures if a.session.Opened? then a.session == Opened(|bs|, blocks)
            else r.constructs && r.total == |bs| && blocks == map[]
  {
    UploadsAppend(bs, init, r);
    if a.session.Opened? {
      blocks := a.session.blocks;
    } else {
      NothingHas(init);
      blocks := map[];
    }
  }

  /** The same request, on the account. */
  lemma PostHolds(h: Digest, a: Account, r: Request, blocks: map<nat, Bytes>, n: nat)
    requires a.session == Opened(n, blocks) || (a.session.Closed? && r.constructs && n == r.total && blocks == map[])
    requires 1 <= r.idx <= n && !Full(blocks, n)
    ensures var held := HeldNext(h, blocks, r);
            Post(h, true, a, r) ==
            if Full(held, n)
            then Account(Closed, a.rounds + [Values(held, n)],
                         if r.outputOpens then Some(Values(held, n)) else a.output)
            else a.(session := Opened(n, held))
  {
  }

  lemma HoldingFullIff(bs: seq<Bytes>, rs: seq<Request>, blocks: map<nat, Bytes>)
    requires Holding(bs, rs, blocks)
    ensures Full(blocks, |bs|) <==> Covers(rs, |bs|)
    ensures Full(blocks, |bs|) ==> Values(blocks, |bs|) == bs
  {
    hide Has;
    if Full(blocks, |bs|) {
      forall i: nat | 1 <= i <= |bs| ensures Has(rs, i) { assert i in blocks; }
      forall k | 0 <= k < |bs| ensures Values(blocks, |bs|)[k] == bs[k] {
        assert k + 1 in blocks;
        assert Values(blocks, |bs|)[(k + 1) - 1] == blocks[k + 1];
      }
    }
    if Covers(rs, |bs|) {
      forall i: nat | 1 <= i <= |bs| ensures i in blocks { assert Has(rs, i); }
    }
  }

  lemma UncoveredPrefix(init: seq<Request>, r: Request, n: nat)
    requires !Covers(init + [r], n)
    ensures !Covers(init, n)
  {
    hide Has;
    forall i: nat ensures Has(init, i) ==> Has(init + [r], i) {
      HasAppend(init, r, i);
    }
  }

  /** One request of an upload: it goes on, or is complete. */
  lemma UploadStep(h: Digest, bs: seq<Bytes>, init: seq<Request>, r: Request, before: Account, a: Account)
    requires Partial(bs, init, before, a) && Uploads(bs, init + [r]) && !Covers(init, |bs|)
    ensures var rs := init + [r];
            if Covers(rs, |bs|)
            then Post(h, true, a, r) ==
                 Account(Closed, before.rounds + [bs], if r.outputOpens then Some(bs) else before.output)
            else Partial(bs, rs, before, Post(h, true, a, r))
  {
    hide Covers, Has, Full, Holding, OpenedBy, Uploads;
    UploadsAppend(bs, init, r);
    OpenedAppend(init, r);
    if OpenedBy(init, |init| - 1) || r.constructs {
      var blocks := PartialHolds(bs, init, r, before, a);
      HoldingFullIff(bs, init, blocks);
      HoldingNext(h, bs, init, r, blocks);
      HoldingFullIff(bs, init + [r], HeldNext(h, blocks, r));
      PostHolds(h, a, r, blocks, |bs|);
      hide Post, HeldNext;
    } else {
      NoneCovers(init + [r], |bs|);
    }
  }

  lemma NoneCovers(rs: seq<Request>, n: nat)
    requires !OpenedBy(rs, |rs| - 1) && n > 0
    ensures !Covers(rs, n)
  {
    NothingHas(rs);
    assert !Has(rs, 1);
  }

  /** Until all blocks have come, the session holds those that came, whatever failed in between; completed uploads and
      the finished file are as before. */
  lemma {:induction false} PartialUpload(h: Digest, bs: seq<Bytes>, earlier: seq<Request>, rs: seq<Request>)
    requires PostAll(h, true, earlier).session.Closed? && Uploads(bs, rs) && !Covers(rs, |bs|)
    ensures Partial(bs, rs, PostAll(h, true, earlier), PostAll(h, true, earlier + rs))
    decreases |rs|
  {
    hide Covers, Uploads, Partial, Post;
    if rs == [] {
      assert earlier + rs == earlier;
      PartialNothing(bs, PostAll(h, true, earlier));
    } else {
      var init, r := rs[..|rs| - 1], rs[|rs| - 1];
      assert init + [r] == rs && (earlier + rs)[..|earlier + rs| - 1] == earlier + init;
      UncoveredPrefix(init, r, |bs|);
      UploadsAppend(bs, init, r);
      PartialUpload(h, bs, earlier, init);
      UploadStep(h, bs, init, r, PostAll(h, true, earlier), PostAll(h, true, earlier + init));
      PostAllLast(h, earlier + rs);
    }
  }

  lemma PartialNothing(bs: seq<Bytes>, a: Account)
    requires a.session.Closed?
    ensures Partial(bs, [], a, a)
  {
  }

  /** Round trip through the table: after any earlier requests that left no session open, the push that brings the
      last missing block closes the session with the blocks of the uploaded file, in order, for any digest function,
      any order and repetition of pushes, and whatever failed in between. */
  lemma UploadRoundTrip(h: Digest, bs: seq<Bytes>, earlier: seq<Request>, rs: seq<Request>)
    requires PostAll(h, true, earlier).session.Closed? && Uploads(bs, rs) && rs != []
    requires Covers(rs, |bs|) && !Covers(rs[..|rs| - 1], |bs|)
    ensures var before := PostAll(h, true, earlier);
            PostAll(h, true, earlier + rs) ==
            Account(Closed, before.rounds + [bs], if rs[|rs| - 1].outputOpens then Some(bs) else before.output)
  {
    hide Covers, Uploads, Partial, Post, PostAll;
    var init, r := rs[..|rs| - 1], rs[|rs| - 1];
    assert init + [r] == rs && (earlier + rs)[..|earlier + rs| - 1] == earlier + init;
    assert (earlier + rs)[|earlier + rs| - 1] == r;
    UploadsAppend(bs, init, r);
    PartialUpload(h, bs, earlier, init);
    UploadStep(h, bs, init, r, PostAll(h, true, earlier), PostAll(h, true, earlier + init));
    PostAllLast(h, earlier + rs);
  }

  lemma PostAllLast(h: Digest, rs: seq<Request>)
    requires rs != []
    ensures PostAll(h, true, rs) == Post(h, true, PostAll(h, true, rs[..|rs| - 1]), rs[|rs| - 1])
  {
  }
}
