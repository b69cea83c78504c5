/** The deletion of a builder beside other tasks of its uid: when does it go wrong, and what holds when it does not? */
module Deletion {
  import opened Names
  import opened Storage
  import opened BlockStore
  import opened Tasks
  import opened Views
  import opened Interleaving
  import opened SharedUid
  import opened Builds
  import opened Runs

  /** The task is in flight and holds builder gen of u, which it looked up before. */
  ghost predicate Holding(c: Config, u: Uid, gen: nat, k: nat) {
    InFlight(c, k) && !c.tasks[k].pc.Get? && RoundOf(c.tasks[k]) == Round(u, gen)
  }

  /** The session has gone wrong: a task used its builder after the deletion, or it was announced twice. */
  predicate Spoiled(c: Config, u: Uid, gen: nat) {
    Round(u, gen) in c.broken || multiset(c.called)[Round(u, gen)] >= 2
  }

  ghost predicate CanSpoil(h: Digest, cap: map<Uid, nat>, c: Config, u: Uid, gen: nat) {
    exists ms :: Allowed(h, cap, c, ms) && Spoiled(After(h, cap, c, ms), u, gen)
  }

  /** One step of a task that is deleting, clearing or calling back. */
  lemma DeletionMove(h: Digest, c: Config, k: nat)
    requires InFlight(c, k) && (c.tasks[k].pc.Erase? || c.tasks[k].pc.Clear? || c.tasks[k].pc.Callback?)
    ensures var e, pc, u := Apply(h, c, Advance(k)), c.tasks[k].pc, c.tasks[k].r.uid;
            && Find(e.w.files, u) == Find(c.w.files, u) && e.w.births == c.w.births && e.w.listening == c.w.listening
            && e.w.slots == (if pc.Erase? then c.w.slots - {u} else c.w.slots) && e.broken == c.broken
            && if pc.Callback? then
                 && e.tasks == c.tasks[k := Task(c.tasks[k].r, End(Returned))]
                 && e.w.calls == (if c.w.listening then c.w.calls + [u] else c.w.calls)
                 && e.called == (if c.w.listening then c.called + [RoundOf(c.tasks[k])] else c.called)
               else
                 && e.w.calls == c.w.calls && e.called == c.called
                 && (e.tasks[k].pc.Clear? || e.tasks[k].pc.Callback?) && e.tasks[k].pc.own == pc.own
                 && e.tasks == c.tasks[k := e.tasks[k]] && e.tasks[k].r == c.tasks[k].r
                 && Closer(e.tasks[k].pc, pc)
  {
    DeletionStep(h, c.w, c.tasks[k].r, c.tasks[k].pc);
    hide Step;
  }

  lemma DeletionStep(h: Digest, w: World, r: Request, pc: Pc)
    requires (pc.Erase? || pc.Clear? || pc.Callback?) && Fits(pc)
    ensures var (w', pc') := Step(h, w, r, pc);
            && Find(w'.files, r.uid) == Find(w.files, r.uid) && w'.births == w.births && w'.listening == w.listening
            && w'.slots == (if pc.Erase? then w.slots - {r.uid} else w.slots)
            && w'.calls == (if pc.Callback? && w.listening then w.calls + [r.uid] else w.calls)
            && if pc.Callback? then pc' == End(Returned) else (pc'.Clear? || pc'.Callback?) && pc'.own == pc.own
  {
    hide GetStep, BuilderStep, WriteStep, BuildStep;
    if pc.Clear? {
      BlockNameInjective(r.uid, pc.i + 1, 0);
    }
  }

  /** From the deletion on, a task can run to its callback, whatever the state. */
  lemma {:induction false} DeletionRuns(h: Digest, cap: map<Uid, nat>, c: Config, k: nat) returns (ms: seq<Move>)
    requires InFlight(c, k) && (c.tasks[k].pc.Erase? || c.tasks[k].pc.Clear? || c.tasks[k].pc.Callback?)
    requires c.w.listening
    ensures Solo(k, ms) && Allowed(h, cap, c, ms)
    ensures var e, t := After(h, cap, c, ms), c.tasks[k];
            && e.tasks == c.tasks[k := Task(t.r, End(Returned))] && e.broken == c.broken
            && e.called == c.called + [RoundOf(t)] && e.w.calls == c.w.calls + [t.r.uid] && e.w.listening
            && e.w.slots == (if t.pc.Erase? then c.w.slots - {t.r.uid} else c.w.slots) && e.w.births == c.w.births
            && Find(e.w.files, t.r.uid) == Find(c.w.files, t.r.uid)
    decreases Phase(c.tasks[k].pc), Left(c.tasks[k].pc), Place(c.tasks[k].pc)
  {
    hide Apply, Step, Phase, Left, Place;
    var m, t := Advance(k), c.tasks[k];
    var e := Apply(h, c, m);
    DeletionMove(h, c, k);
    var rest := [];
    if !t.pc.Callback? {
      rest := DeletionRuns(h, cap, e, k);
      assert c.tasks[k := e.tasks[k]][k := Task(t.r, End(Returned))] == c.tasks[k := Task(t.r, End(Returned))];
    }
    Prepend(h, cap, c, m, rest);
    ms := [m] + rest;
  }

  /** A task whose builder is gone, wherever it stands, comes to use it or goes on to call back. */
  lemma {:induction false} DanglingRuns(h: Digest, cap: map<Uid, nat>, c: Config, k: nat) returns (ms: seq<Move>)
    requires InFlight(c, k) && !c.tasks[k].pc.Get? && SlotOf(c.w, c.tasks[k].r.uid).Null? && c.w.listening
    requires c.tasks[k].pc.Close? ==> c.tasks[k].pc.whole
    ensures Allowed(h, cap, c, ms)
    ensures var e, round := After(h, cap, c, ms), RoundOf(c.tasks[k]);
            round in e.broken || e.called == c.called + [round]
    decreases Phase(c.tasks[k].pc), Left(c.tasks[k].pc), Place(c.tasks[k].pc)
  {
    var pc, m := c.tasks[k].pc, Advance(k);
    if pc.Erase? || pc.Clear? || pc.Callback? {
      ms := DeletionRuns(h, cap, c, k);
    } else {
      var e := Apply(h, c, m);
      DanglingMove(h, c, k);
      assert Closer(e.tasks[k].pc, pc);
      hide Apply;
      var rest := [];
      if !UsesBuilder(pc) {
        rest := DanglingRuns(h, cap, e, k);
      }
      Prepend(h, cap, c, m, rest);
      ms := [m] + rest;
    }
  }

  lemma DanglingMove(h: Digest, c: Config, k: nat)
    requires InFlight(c, k) && !c.tasks[k].pc.Get? && SlotOf(c.w, c.tasks[k].r.uid).Null?
    requires c.tasks[k].pc.Close? ==> c.tasks[k].pc.whole
    requires !c.tasks[k].pc.Erase? && !c.tasks[k].pc.Clear? && !c.tasks[k].pc.Callback?
    ensures var e := Apply(h, c, Advance(k));
            if UsesBuilder(c.tasks[k].pc) then RoundOf(c.tasks[k]) in e.broken
            else
              && e.called == c.called && e.w.slots == c.w.slots && e.w.listening == c.w.listening
              && k in e.tasks && !e.tasks[k].pc.Get? && !e.tasks[k].pc.End?
              && RoundOf(e.tasks[k]) == RoundOf(c.tasks[k])
              && e.tasks[k].r == c.tasks[k].r && !e.tasks[k].pc.Close?
  {
    hide WriteAt, Released;
  }

  /** A second holder of the deleted builder: after the first task's callback it dangles or calls back as well. */
  lemma SecondHolderSpoils(h: Digest, cap: map<Uid, nat>, c: Config, u: Uid, gen: nat, id: nat, k: nat)
    requires Holding(c, u, gen, id) && Holding(c, u, gen, k) && id != k && c.w.listening && SlotOf(c.w, u).Null?
    requires c.tasks[id].pc.Clear? && (c.tasks[k].pc.Close? ==> c.tasks[k].pc.whole)
    ensures CanSpoil(h, cap, c, u, gen)
  {
    hide Apply, Step, Solo;
    var first := DeletionRuns(h, cap, c, id);
    var e := After(h, cap, c, first);
    var second := DanglingRuns(h, cap, e, k);
    Join(h, cap, c, first, second);
    assert Spoiled(After(h, cap, c, first + second), u, gen);
  }

  /** After a deletion that left no other holder: the builder number will not come back, and only task id still
      speaks for the session. */
  ghost predicate Sealed(c: Config, u: Uid, gen: nat, id: nat) {
    && gen >= 1 && Born(c.w, u) >= gen && (SlotOf(c.w, u).Live? ==> Born(c.w, u) > gen) && c.w.listening
    && id in c.tasks && c.tasks[id].r.uid == u
    && (c.tasks[id].pc.End? || ((c.tasks[id].pc.Clear? || c.tasks[id].pc.Callback?) && c.tasks[id].pc.own == gen))
    && (c.tasks[id].pc.End? ==> c.tasks[id].pc.outcome.Returned?)
    && (forall k | k in c.tasks && Holding(c, u, gen, k) :: k == id)
    && Round(u, gen) !in c.broken
    && multiset(c.called)[Round(u, gen)] == if c.tasks[id].pc.End? then 1 else 0
  }

  /** What a step can add: the numbers of builders only grow, and history names the builder the task holds. */
  lemma MoveRecords(h: Digest, c: Config, k: nat, u: Uid)
    requires InFlight(c, k)
    ensures var e, t := Apply(h, c, Advance(k)), c.tasks[k];
            && e.tasks.Keys == c.tasks.Keys && e.tasks == c.tasks[k := e.tasks[k]] && e.tasks[k].r == t.r
            && e.w.listening == c.w.listening
            && (e.broken == c.broken || (!t.pc.Get? && e.broken == c.broken + {RoundOf(t)}))
            && e.called == (if t.pc.Callback? && c.w.listening then c.called + [RoundOf(t)] else c.called)
            && (t.r.uid != u || !t.pc.Get? ==>
                  Born(e.w, u) == Born(c.w, u) && (SlotOf(e.w, u).Live? ==> SlotOf(c.w, u).Live?))
            && (t.r.uid == u && t.pc.Get? ==>
                  && Born(e.w, u) == Born(c.w, u) + (if SlotOf(c.w, u).Null? && t.r.constructs then 1 else 0)
                  && (SlotOf(e.w, u).Live? ==> SlotOf(c.w, u).Live? || Born(e.w, u) == Born(c.w, u) + 1)
                  && (!e.tasks[k].pc.End? ==> e.tasks[k].pc.own == Born(e.w, u) && SlotOf(e.w, u).Live?))
            && (!t.pc.Get? ==> RoundOf(e.tasks[k]) == RoundOf(t) || e.tasks[k].pc.End?)
            && !e.tasks[k].pc.Get?
  {
    hide WriteStep, BuildStep;
    StepKeepsOwn(h, c.w, c.tasks[k].r, c.tasks[k].pc);
  }

  lemma MoveSealed(h: Digest, c: Config, m: Move, u: Uid, gen: nat, id: nat)
    requires Sealed(c, u, gen, id) && Enabled(c, m)
    ensures Sealed(Apply(h, c, m), u, gen, id)
  {
    var e := Apply(h, c, m);
    match m {
      case Start(k, r) =>
        assert forall i | i in e.tasks && i != k :: i in c.tasks && e.tasks[i] == c.tasks[i];
        forall i | i in e.tasks && Holding(e, u, gen, i) ensures i == id {
          assert i in c.tasks && Holding(c, u, gen, i);
        }
      case Advance(k) =>
        MoveRecords(h, c, k, u);
        if k == id {
          DeletionMove(h, c, id);
        }
        hide Apply, Step;
        forall i | i in e.tasks && Holding(e, u, gen, i) ensures i == id {
          if i != k {
            assert Holding(c, u, gen, i);
          }
        }
    }
  }

  lemma {:induction false} RunSealed(h: Digest, cap: map<Uid, nat>, c: Config, ms: seq<Move>, u: Uid, gen: nat, id: nat)
    requires Sealed(c, u, gen, id) && Allowed(h, cap, c, ms)
    ensures Sealed(After(h, cap, c, ms), u, gen, id)
    decreases |ms|
  {
    hide Sealed, Apply, Enabled;
    if ms != [] {
      MoveSealed(h, c, ms[0], u, gen, id);
      RunSealed(h, cap, Apply(h, c, ms[0]), ms[1..], u, gen, id);
    }
  }

  /** The deletion itself, in a state reached as above. */
  lemma DeletedState(h: Digest, cap: map<Uid, nat>, u: Uid, bs: seq<Bytes>, gen: nat, c: Config, id: nat)
    requires Sound(h, cap, u, bs, gen, c) && InFlight(c, id) && c.tasks[id].r.uid == u && c.tasks[id].pc.Erase?
    ensures var e := Apply(h, c, Advance(id));
            && Holding(c, u, gen, id) && Holding(e, u, gen, id)
            && e.tasks == c.tasks[id := Task(c.tasks[id].r, Clear(gen, 0, |bs|))] && e.w.listening == c.w.listening
            && u !in e.w.slots && Born(e.w, u) == gen && gen >= 1 && e.w.files == c.w.files
            && e.broken == c.broken && e.called == c.called && Unrecorded(c, Round(u, gen))
            && (forall k | k != id :: Holding(e, u, gen, k) <==> Holding(c, u, gen, k))
            && (forall k | Holding(c, u, gen, k) && c.tasks[k].pc.Close? :: c.tasks[k].pc.whole)
  {
    hide Taken;
    var e := Apply(h, c, Advance(id));
    DeletionMove(h, c, id);
    assert Knows(h, u, bs, c.w, c.tasks[id].r, c.tasks[id].pc);
    TrustworthyLength(h, u, bs, c.w);
  }

  /** Overlapping tasks of one uid, exactly: once a task deletes the builder, the session can still go wrong, a
      task using the deleted builder or a second callback, if and only if another task of the uid holds it. */
  lemma OverlapSpoilsIff(h: Digest, cap: map<Uid, nat>, c0: Config, ms: seq<Move>, u: Uid, bs: seq<Bytes>, id: nat)
    requires Reached(h, cap, c0, ms, u, bs) && After(h, cap, c0, ms).w.listening
    requires InFlight(After(h, cap, c0, ms), id)
    requires After(h, cap, c0, ms).tasks[id].r.uid == u && After(h, cap, c0, ms).tasks[id].pc.Erase?
    ensures var c, gen := After(h, cap, c0, ms), Gen(c0, u);
            CanSpoil(h, cap, Apply(h, c, Advance(id)), u, gen) <==> exists k :: k != id && Holding(c, u, gen, k)
  {
    var c, gen := After(h, cap, c0, ms), Gen(c0, u);
    ReachedSound(h, cap, c0, ms, u, bs);
    DeletedState(h, cap, u, bs, gen, c, id);
    var e := Apply(h, c, Advance(id));
    hide Apply, Sound, Reached, After, Allowed;
    if k :| k != id && Holding(c, u, gen, k) {
      SecondHolderSpoils(h, cap, e, u, gen, id, k);
    } else {
      assert Sealed(e, u, gen, id);
      SealedNeverSpoils(h, cap, e, u, gen, id);
    }
  }

  lemma SealedNeverSpoils(h: Digest, cap: map<Uid, nat>, c: Config, u: Uid, gen: nat, id: nat)
    requires Sealed(c, u, gen, id)
    ensures !CanSpoil(h, cap, c, u, gen)
  {
    hide Apply;
    forall ms | Allowed(h, cap, c, ms) ensures !Spoiled(After(h, cap, c, ms), u, gen) {
      RunSealed(h, cap, c, ms, u, gen, id);
    }
  }

  /** The move is one of another task of u. A new task of u may start: it waits for its first step. */
  predicate Disturbs(c: Config, m: Move, u: Uid, id: nat) {
    m.Advance? && m.id in c.tasks && c.tasks[m.id].r.uid == u && m.id != id
  }

  predicate Alone(h: Digest, cap: map<Uid, nat>, c: Config, ms: seq<Move>, u: Uid, id: nat)
    requires Allowed(h, cap, c, ms)
    decreases |ms|
  {
    ms == [] || (!Disturbs(c, ms[0], u, id) && Alone(h, cap, Apply(h, c, ms[0]), ms[1..], u, id))
  }

  ghost predicate BlocksGone(files: Files, u: Uid, n: nat) {
    forall i | 1 <= i <= n :: BlockName(u, i) !in files
  }

  /** The session is being wound up by task id: file right, builder gone, block files going. */
  ghost predicate Winding(cap: map<Uid, nat>, c: Config, u: Uid, bs: seq<Bytes>, gen: nat, id: nat) {
    && u in cap && |bs| <= cap[u] && AllWithin(cap, c)
    && u !in c.w.slots && Born(c.w, u) == gen && Unfinished(c, u, gen + 1)
    && Find(c.w.files, u) == Some(Concat(bs))
    && id in c.tasks && c.tasks[id].r.uid == u
    && (c.tasks[id].pc.End? || ((c.tasks[id].pc.Clear? || c.tasks[id].pc.Callback?) && c.tasks[id].pc.own == gen))
    && (c.tasks[id].pc.Clear? ==> c.tasks[id].pc.n == |bs|)
    && BlocksGone(c.w.files, u, if c.tasks[id].pc.Clear? then c.tasks[id].pc.i else |bs|)
    && (forall k | k in c.tasks && InFlight(c, k) && c.tasks[k].r.uid == u && k != id :: c.tasks[k].pc.Get?)
  }

  lemma ClearMove(h: Digest, c: Config, id: nat)
    requires InFlight(c, id) && (c.tasks[id].pc.Clear? || c.tasks[id].pc.Callback?)
    ensures var e, pc := Apply(h, c, Advance(id)), c.tasks[id].pc;
            if pc.Clear? && pc.i < pc.n
            then e.w.files == c.w.files - {BlockName(c.tasks[id].r.uid, pc.i + 1)}
                 && e.tasks[id].pc == Clear(pc.own, pc.i + 1, pc.n)
            else e.w.files == c.w.files && !e.tasks[id].pc.Clear?
  {
  }

  lemma AdvanceWinding(h: Digest, cap: map<Uid, nat>, c: Config, k: nat, u: Uid, bs: seq<Bytes>, gen: nat, id: nat)
    requires Separated(cap) && Winding(cap, c, u, bs, gen, id) && InFlight(c, k) && !Disturbs(c, Advance(k), u, id)
    ensures Winding(cap, Apply(h, c, Advance(k)), u, bs, gen, id)
  {
    hide Step, SameView, Separated, Concat;
    var e := Apply(h, c, Advance(k));
    AdvanceWithin(h, cap, c, k);
    if k == id {
      WindOn(h, c, u, bs, gen, id);
    } else {
      ViewFacts(u, cap[u], |bs|, e.w, c.w);
    }
    hide AllWithin;
    forall i | i in e.tasks && InFlight(e, i) && e.tasks[i].r.uid == u && i != id ensures e.tasks[i].pc.Get? {
      assert InFlight(c, i);
    }
  }

  /** The task's own step: one more block file gone, or the callback. */
  lemma WindOn(h: Digest, c: Config, u: Uid, bs: seq<Bytes>, gen: nat, id: nat)
    requires InFlight(c, id) && c.tasks[id].r.uid == u
    requires (c.tasks[id].pc.Clear? && c.tasks[id].pc.n == |bs|) || c.tasks[id].pc.Callback?
    requires c.tasks[id].pc.own == gen && Unfinished(c, u, gen + 1)
    requires BlocksGone(c.w.files, u, if c.tasks[id].pc.Clear? then c.tasks[id].pc.i else |bs|)
    ensures var e := Apply(h, c, Advance(id));
            && Find(e.w.files, u) == Find(c.w.files, u) && e.w.slots == c.w.slots && Born(e.w, u) == Born(c.w, u)
            && Unfinished(e, u, gen + 1) && id in e.tasks && e.tasks[id].r == c.tasks[id].r
            && (e.tasks[id].pc.End? ||
                ((e.tasks[id].pc.Clear? || e.tasks[id].pc.Callback?) && e.tasks[id].pc.own == gen))
            && (e.tasks[id].pc.Clear? ==> e.tasks[id].pc.n == |bs|)
            && BlocksGone(e.w.files, u, if e.tasks[id].pc.Clear? then e.tasks[id].pc.i else |bs|)
  {
    DeletionMove(h, c, id);
    ClearMove(h, c, id);
    assert Apply(h, c, Advance(id)).deleted == c.deleted;
    hide Step;
  }

  lemma ViewFacts(u: Uid, n: nat, m: nat, w1: World, w2: World)
    requires SameView(u, n, w1, w2) && m <= n
    ensures Find(w1.files, u) == Find(w2.files, u) && Born(w1, u) == Born(w2, u)
    ensures u in w1.slots <==> u in w2.slots
    ensures forall i | 0 <= i <= m :: BlocksGone(w2.files, u, i) ==> BlocksGone(w1.files, u, i)
  {
    forall i | 1 <= i <= m ensures BlockName(u, i) in w1.files <==> BlockName(u, i) in w2.files {
      assert Find(w1.files, BlockName(u, i)) == Find(w2.files, BlockName(u, i));
    }
  }

  lemma StartWinding(h: Digest, cap: map<Uid, nat>, c: Config, m: Move, u: Uid, bs: seq<Bytes>, gen: nat, id: nat)
    requires Winding(cap, c, u, bs, gen, id) && m.Start? && Enabled(c, m) && Capped(cap, m)
    ensures Winding(cap, Apply(h, c, m), u, bs, gen, id)
  {
    var e := Apply(h, c, m);
    assert forall i | i in e.tasks && i != m.id :: i in c.tasks && e.tasks[i] == c.tasks[i];
    forall i | i in e.tasks && InFlight(e, i) ensures i == m.id || InFlight(c, i) {
    }
  }

  lemma {:induction false} RunWinding(h: Digest, cap: map<Uid, nat>, c: Config, ms: seq<Move>,
                                      u: Uid, bs: seq<Bytes>, gen: nat, id: nat)
    requires Separated(cap) && Winding(cap, c, u, bs, gen, id)
    requires Allowed(h, cap, c, ms) && Alone(h, cap, c, ms, u, id)
    ensures Winding(cap, After(h, cap, c, ms), u, bs, gen, id)
    decreases |ms|
  {
    hide Winding, Apply, Disturbs, Separated;
    if ms != [] {
      match ms[0] {
        case Start(_, _) => StartWinding(h, cap, c, ms[0], u, bs, gen, id);
        case Advance(k) => AdvanceWinding(h, cap, c, k, u, bs, gen, id);
      }
      RunWinding(h, cap, Apply(h, c, ms[0]), ms[1..], u, bs, gen, id);
    }
  }

  /** A task is about to delete the builder, its output opened, and no other task holds the builder. */
  ghost predicate LastHolder(c: Config, u: Uid, gen: nat, id: nat) {
    && InFlight(c, id) && c.tasks[id].r.uid == u && c.tasks[id].pc.Erase? && c.tasks[id].r.outputOpens
    && (forall k | k != id :: !Holding(c, u, gen, k)) && c.w.listening
  }

  lemma StreamerHolds(h: Digest, cap: map<Uid, nat>, u: Uid, bs: seq<Bytes>, gen: nat, c: Config, k: nat)
    requires Sound(h, cap, u, bs, gen, c) && Streaming(c, u, k)
    ensures Holding(c, u, gen, k)
  {
    assert InFlight(c, k) && Knows(h, u, bs, c.w, c.tasks[k].r, c.tasks[k].pc);
  }

  lemma LastHolderDeletes(h: Digest, cap: map<Uid, nat>, c0: Config, ms: seq<Move>, u: Uid, bs: seq<Bytes>, id: nat)
    requires Reached(h, cap, c0, ms, u, bs) && LastHolder(After(h, cap, c0, ms), u, Gen(c0, u), id)
    ensures Separated(cap)
    ensures var c, gen := After(h, cap, c0, ms), Gen(c0, u);
            var e := Apply(h, c, Advance(id));
            Sealed(e, u, gen, id) && Winding(cap, e, u, bs, gen, id)
  {
    hide Reached, Separated, Taken;
    ReachedSound(h, cap, c0, ms, u, bs);
    var c, gen := After(h, cap, c0, ms), Gen(c0, u);
    hide After, Allowed, Concat, Truncators;
    forall k | Streaming(c, u, k) ensures Holding(c, u, gen, k) {
      StreamerHolds(h, cap, u, bs, gen, c, k);
    }
    QuietBuildExact(h, cap, c0, ms, u, bs, id);
    DeletedState(h, cap, u, bs, gen, c, id);
    LastHolderWinding(h, cap, u, bs, gen, c, id);
  }

  lemma LastHolderWinding(h: Digest, cap: map<Uid, nat>, u: Uid, bs: seq<Bytes>, gen: nat, c: Config, id: nat)
    requires Separated(cap) && Sound(h, cap, u, bs, gen, c) && LastHolder(c, u, gen, id)
    requires Find(c.w.files, u) == Some(Concat(bs))
    ensures Winding(cap, Apply(h, c, Advance(id)), u, bs, gen, id)
  {
    hide Step, Separated, Concat, Taken, Trustworthy;
    var e := Apply(h, c, Advance(id));
    DeletedState(h, cap, u, bs, gen, c, id);
    AdvanceWithin(h, cap, c, id);
    forall k | k in e.tasks && InFlight(e, k) && e.tasks[k].r.uid == u && k != id ensures e.tasks[k].pc.Get? {
      assert InFlight(c, k) && Knows(h, u, bs, c.w, c.tasks[k].r, c.tasks[k].pc);
      assert !Holding(c, u, gen, k);
    }
  }

  /** The other tasks of u wait with blocks of the file. */
  ghost predicate OthersWait(c: Config, u: Uid, bs: seq<Bytes>, id: nat) {
    forall k | k in c.tasks && InFlight(c, k) && c.tasks[k].r.uid == u && k != id :: Waiting(c.tasks[k], bs)
  }

  lemma MoveOthersWait(h: Digest, c: Config, m: Move, u: Uid, bs: seq<Bytes>, id: nat)
    requires OthersWait(c, u, bs, id) && Enabled(c, m) && !Disturbs(c, m, u, id) && Agrees(c, m, u, bs)
    ensures OthersWait(Apply(h, c, m), u, bs, id)
  {
    hide Step;
    var e := Apply(h, c, m);
    assert forall i | i in e.tasks && i != m.id :: i in c.tasks && e.tasks[i] == c.tasks[i];
    forall i | i in e.tasks && InFlight(e, i)
      ensures (m.Start? && i == m.id) || (InFlight(c, i) && e.tasks[i].r == c.tasks[i].r)
    {
    }
  }

  lemma {:induction false} RunOthersWait(h: Digest, cap: map<Uid, nat>, c: Config, ms: seq<Move>,
                                         u: Uid, bs: seq<Bytes>, id: nat)
    requires OthersWait(c, u, bs, id)
    requires Allowed(h, cap, c, ms) && Alone(h, cap, c, ms, u, id) && Agreeing(h, cap, c, ms, u, bs)
    ensures OthersWait(After(h, cap, c, ms), u, bs, id)
    decreases |ms|
  {
    hide OthersWait, Apply, Disturbs, Agrees, Enabled;
    if ms != [] {
      MoveOthersWait(h, c, ms[0], u, bs, id);
      RunOthersWait(h, cap, Apply(h, c, ms[0]), ms[1..], u, bs, id);
    }
  }

  lemma LastHolderOthersWait(h: Digest, cap: map<Uid, nat>, u: Uid, bs: seq<Bytes>, gen: nat, c: Config, id: nat)
    requires Sound(h, cap, u, bs, gen, c) && LastHolder(c, u, gen, id)
    ensures OthersWait(Apply(h, c, Advance(id)), u, bs, id)
  {
    hide Step, Taken;
    var e := Apply(h, c, Advance(id));
    DeletedState(h, cap, u, bs, gen, c, id);
    forall k | k in e.tasks && InFlight(e, k) && e.tasks[k].r.uid == u && k != id ensures Waiting(e.tasks[k], bs) {
      assert InFlight(c, k) && Knows(h, u, bs, c.w, c.tasks[k].r, c.tasks[k].pc);
      assert !Holding(c, u, gen, k);
    }
  }

  /** In the state that ms leads to, task id deletes the builder, as its last holder; e is the state after that. */
  ghost predicate LastDeletes(h: Digest, cap: map<Uid, nat>, c0: Config, ms: seq<Move>, u: Uid, bs: seq<Bytes>, id: nat,
                              e: Config) {
    && Reached(h, cap, c0, ms, u, bs) && LastHolder(After(h, cap, c0, ms), u, Gen(c0, u), id)
    && e == Apply(h, After(h, cap, c0, ms), Advance(id))
  }

  /** A run from e to f in which no other task of u moves. */
  ghost predicate LeadsTo(h: Digest, cap: map<Uid, nat>, e: Config, more: seq<Move>, u: Uid, id: nat, f: Config) {
    Allowed(h, cap, e, more) && Alone(h, cap, e, more, u, id) && f == After(h, cap, e, more)
  }

  /** When no other task holds the builder, the session ends as it should: while no other task of the uid moves,
      the finished file is the uploaded file, nothing is undefined, and when the callback is made, and when the task
      returns, the builder and all block files are gone and there was one callback. */
  lemma CleanRound(h: Digest, cap: map<Uid, nat>, c0: Config, ms: seq<Move>, u: Uid, bs: seq<Bytes>, id: nat,
                   e: Config, more: seq<Move>, f: Config)
    requires LastDeletes(h, cap, c0, ms, u, bs, id, e) && LeadsTo(h, cap, e, more, u, id, f)
    ensures var round := Round(u, Gen(c0, u));
            && Find(f.w.files, u) == Some(Concat(bs)) && round !in f.broken
            && id in f.tasks
            && (round in f.called || f.tasks[id].pc.End? ==>
                  && f.tasks[id].pc == End(Returned) && u !in f.w.slots && BlocksGone(f.w.files, u, |bs|)
                  && multiset(f.called)[round] == 1)
  {
    hide *;
    LastDeletesWinds(h, cap, c0, ms, u, bs, id, e);
    LeadsToWound(h, cap, e, more, u, bs, Gen(c0, u), id, f);
    WoundUp(cap, f, u, bs, Gen(c0, u), id);
  }

  lemma LastDeletesWinds(h: Digest, cap: map<Uid, nat>, c0: Config, ms: seq<Move>, u: Uid, bs: seq<Bytes>, id: nat,
                         e: Config)
    requires LastDeletes(h, cap, c0, ms, u, bs, id, e)
    ensures Separated(cap) && Sealed(e, u, Gen(c0, u), id) && Winding(cap, e, u, bs, Gen(c0, u), id)
    ensures OthersWait(e, u, bs, id)
  {
    hide Reached, LastHolder, Separated, Sealed, Winding, OthersWait, Sound, Apply, After, Allowed;
    LastHolderDeletes(h, cap, c0, ms, u, bs, id);
    ReachedSound(h, cap, c0, ms, u, bs);
    LastHolderOthersWait(h, cap, u, bs, Gen(c0, u), After(h, cap, c0, ms), id);
  }

  lemma LeadsToWound(h: Digest, cap: map<Uid, nat>, e: Config, more: seq<Move>, u: Uid, bs: seq<Bytes>, gen: nat,
                     id: nat, f: Config)
    requires Separated(cap) && Sealed(e, u, gen, id) && Winding(cap, e, u, bs, gen, id)
    requires LeadsTo(h, cap, e, more, u, id, f)
    ensures Sealed(f, u, gen, id) && Winding(cap, f, u, bs, gen, id)
  {
    hide Separated, Sealed, Winding, After, Allowed, Alone;
    RunSealed(h, cap, e, more, u, gen, id);
    RunWinding(h, cap, e, more, u, bs, gen, id);
  }

  lemma WoundUp(cap: map<Uid, nat>, f: Config, u: Uid, bs: seq<Bytes>, gen: nat, id: nat)
    requires Sealed(f, u, gen, id) && Winding(cap, f, u, bs, gen, id)
    ensures Find(f.w.files, u) == Some(Concat(bs)) && Round(u, gen) !in f.broken && id in f.tasks
    ensures Round(u, gen) in f.called || f.tasks[id].pc.End? ==>
              && f.tasks[id].pc == End(Returned) && u !in f.w.slots && BlocksGone(f.w.files, u, |bs|)
              && multiset(f.called)[Round(u, gen)] == 1
  {
  }

  /** And then the next session of u can open, with its own builder number, if and only if no two tasks wait with
      the same block: every result about a session holds of it again. */
  lemma RoundReopens(h: Digest, cap: map<Uid, nat>, c0: Config, ms: seq<Move>, u: Uid, bs: seq<Bytes>, id: nat,
                     e: Config, more: seq<Move>, f: Config)
    requires LastDeletes(h, cap, c0, ms, u, bs, id, e) && LeadsTo(h, cap, e, more, u, id, f)
    requires Agreeing(h, cap, e, more, u, bs) && id in f.tasks && f.tasks[id].pc.End?
    ensures Gen(f, u) == Gen(c0, u) + 1
    ensures Opening(cap, f, u, bs) <==> DistinctBlocks(f, u)
  {
    hide LastDeletes, Separated, Sealed, Winding, OthersWait, After, Allowed, Alone, Agreeing;
    hide Opening, Gen, DistinctBlocks;
    LastDeletesWinds(h, cap, c0, ms, u, bs, id, e);
    LeadsToWound(h, cap, e, more, u, bs, Gen(c0, u), id, f);
    RunOthersWait(h, cap, e, more, u, bs, id);
    WoundUpOpens(cap, f, u, bs, Gen(c0, u), id);
  }

  lemma WoundUpOpens(cap: map<Uid, nat>, f: Config, u: Uid, bs: seq<Bytes>, gen: nat, id: nat)
    requires Winding(cap, f, u, bs, gen, id) && OthersWait(f, u, bs, id) && f.tasks[id].pc.End?
    ensures Gen(f, u) == gen + 1
    ensures Opening(cap, f, u, bs) <==> DistinctBlocks(f, u)
  {
    hide BlocksGone, Concat;
  }

  /** The next step of task id removes the file of a block that the builder in the table has recorded. */
  predicate Robs(c: Config, id: nat) {
    && InFlight(c, id) && c.tasks[id].pc.Clear? && c.tasks[id].pc.i < c.tasks[id].pc.n
    && var slot := SlotOf(c.w, c.tasks[id].r.uid);
       slot.Live? && c.tasks[id].pc.i < |slot.hashes| && slot.hashes[c.tasks[id].pc.i] != ""
  }

  ghost predicate CanRob(h: Digest, cap: map<Uid, nat>, c: Config, id: nat) {
    exists ms :: Allowed(h, cap, c, ms) && Robs(After(h, cap, c, ms), id)
  }

  predicate PastClearing(c: Config, id: nat) {
    && id in c.tasks && (c.tasks[id].pc.Clear? || c.tasks[id].pc.Callback? || c.tasks[id].pc.End?)
    && (c.tasks[id].pc.Clear? ==> c.tasks[id].pc.i >= c.tasks[id].pc.n)
  }

  lemma {:induction false} RunPastClearing(h: Digest, cap: map<Uid, nat>, c: Config, ms: seq<Move>, id: nat)
    requires PastClearing(c, id) && Allowed(h, cap, c, ms)
    ensures PastClearing(After(h, cap, c, ms), id)
    decreases |ms|
  {
    hide GetStep, BuilderStep, WriteStep, BuildStep;
    if ms != [] {
      RunPastClearing(h, cap, Apply(h, c, ms[0]), ms[1..], id);
    }
  }

  /** A new session that pushes the block whose file is the next to go. */
  lemma NextSessionRobbed(h: Digest, cap: map<Uid, nat>, c: Config, u: Uid, id: nat, k: nat)
    requires InFlight(c, id) && c.tasks[id].r.uid == u && c.tasks[id].pc.Clear?
    requires SlotOf(c.w, u).Null? && k !in c.tasks
    requires u in cap && c.tasks[id].pc.n <= cap[u] && c.tasks[id].pc.n <= MAX_BLOCKS
    requires c.tasks[id].pc.i < c.tasks[id].pc.n
    ensures CanRob(h, cap, c, id)
  {
    var pc := c.tasks[id].pc;
    var r := Request(u, pc.n, pc.i + 1, [], true, true, true, []);
    var m := Start(k, r);
    var e := Apply(h, c, m);
    var push := PushRuns(h, cap, e, k);
    Prepend(h, cap, c, m, push);
    var f := After(h, cap, c, [m] + push);
    assert f.tasks[id] == c.tasks[id];
    assert SlotOf(f.w, u) == Live(Blank(pc.n)[pc.i := h([])]);
    assert Robs(f, id);
  }

  /** Why other tasks of the uid must not move meanwhile: the builder leaves the table before its block files are
      removed, and a session opened in between shares their names. From a state in which task id is removing them,
      some run makes it remove a block that the next builder has recorded, if and only if it has not finished. */
  lemma ClearRobsIff(h: Digest, cap: map<Uid, nat>, c: Config, u: Uid, id: nat, k: nat)
    requires InFlight(c, id) && c.tasks[id].r.uid == u && c.tasks[id].pc.Clear?
    requires SlotOf(c.w, u).Null? && k !in c.tasks
    requires u in cap && c.tasks[id].pc.n <= cap[u] && c.tasks[id].pc.n <= MAX_BLOCKS
    ensures CanRob(h, cap, c, id) <==> c.tasks[id].pc.i < c.tasks[id].pc.n
  {
    if c.tasks[id].pc.i < c.tasks[id].pc.n {
      NextSessionRobbed(h, cap, c, u, id, k);
    } else {
      hide Apply;
      forall ms | Allowed(h, cap, c, ms) ensures !Robs(After(h, cap, c, ms), id) {
        RunPastClearing(h, cap, c, ms, id);
      }
    }
  }
}
