/** Runs put together from shorter ones, and runs of a single task. */
module Runs {
  import opened Names
  import opened Storage
  import opened Tasks
  import opened Interleaving
  import opened SharedUid

  lemma Prepend(h: Digest, cap: map<Uid, nat>, c: Config, m: Move, rest: seq<Move>)
    requires Enabled(c, m) && Capped(cap, m) && Allowed(h, cap, Apply(h, c, m), rest)
    ensures Allowed(h, cap, c, [m] + rest)
    ensures After(h, cap, c, [m] + rest) == After(h, cap, Apply(h, c, m), rest)
  {
    assert ([m] + rest)[1..] == rest;
  }

  lemma {:induction false} Join(h: Digest, cap: map<Uid, nat>, c: Config, ms: seq<Move>, rest: seq<Move>)
    requires Allowed(h, cap, c, ms) && Allowed(h, cap, After(h, cap, c, ms), rest)
    ensures Allowed(h, cap, c, ms + rest)
    ensures After(h, cap, c, ms + rest) == After(h, cap, After(h, cap, c, ms), rest)
    decreases |ms|
  {
    hide Apply;
    if ms == [] {
      assert ms + rest == rest;
    } else {
      Join(h, cap, Apply(h, c, ms[0]), ms[1..], rest);
      assert (ms + rest)[1..] == ms[1..] + rest;
    }
  }

  lemma {:induction false} JoinAgreeing(h: Digest, cap: map<Uid, nat>, c: Config, ms: seq<Move>, rest: seq<Move>,
                                        u: Uid, bs: seq<Bytes>)
    requires Allowed(h, cap, c, ms) && Allowed(h, cap, After(h, cap, c, ms), rest) && Allowed(h, cap, c, ms + rest)
    requires Agreeing(h, cap, c, ms, u, bs) && Agreeing(h, cap, After(h, cap, c, ms), rest, u, bs)
    ensures Agreeing(h, cap, c, ms + rest, u, bs)
    decreases |ms|
  {
    hide Apply, Agrees;
    if ms == [] {
      assert ms + rest == rest;
    } else {
      assert (ms + rest)[1..] == ms[1..] + rest;
      JoinAgreeing(h, cap, Apply(h, c, ms[0]), ms[1..], rest, u, bs);
    }
  }

  /** Only task id moves. */
  predicate Solo(id: nat, ms: seq<Move>) {
    forall i | 0 <= i < |ms| :: ms[i] == Advance(id)
  }

  /** Without new requests the clients agree. */
  lemma {:induction false} AdvancesAgree(h: Digest, cap: map<Uid, nat>, c: Config, ms: seq<Move>,
                                         u: Uid, bs: seq<Bytes>)
    requires Allowed(h, cap, c, ms) && forall i | 0 <= i < |ms| :: ms[i].Advance?
    ensures Agreeing(h, cap, c, ms, u, bs)
    decreases |ms|
  {
    hide Apply;
    if ms != [] {
      AdvancesAgree(h, cap, Apply(h, c, ms[0]), ms[1..], u, bs);
    }
  }

  /** The task is writing a block that the builder in the table has not recorded yet. */
  predicate Pushing(h: Digest, w: World, r: Request, pc: Pc) {
    && (pc.Check? || ((pc.Open? || pc.Fill? || pc.Mark?) && pc.sum == h(r.value)))
    && Alive(w, r.uid, pc.own) && r.blockOpens
    && var hs := SlotOf(w, r.uid).hashes;
       1 <= r.idx <= |hs| && hs[r.idx - 1] == ""
  }

  /** From `start` to w the block was recorded, and of the rest only files changed. */
  predicate Recorded(h: Digest, start: World, w: World, r: Request)
    requires SlotOf(start, r.uid).Live? && 1 <= r.idx <= |SlotOf(start, r.uid).hashes|
  {
    && w.slots == start.slots[r.uid := Live(SlotOf(start, r.uid).hashes[r.idx - 1 := h(r.value)])]
    && w.births == start.births && w.calls == start.calls && w.listening == start.listening
  }

  /** One step of it. */
  lemma PushStep(h: Digest, w: World, r: Request, pc: Pc)
    requires Pushing(h, w, r, pc)
    ensures var (w', pc') := Step(h, w, r, pc);
            if pc.Mark? then pc' == Ready(pc.own) && Recorded(h, w, w', r)
            else w' == w.(files := w'.files) && Pushing(h, w', r, pc') && pc'.own == pc.own
  {
    hide WriteAt;
  }

  /** A step that neither deletes nor calls back nor fails, on the whole configuration. */
  lemma PlainMove(h: Digest, c: Config, id: nat)
    requires InFlight(c, id) && !c.tasks[id].pc.Erase? && !c.tasks[id].pc.Callback?
    requires Step(h, c.w, c.tasks[id].r, c.tasks[id].pc).1 != End(Undefined)
    ensures var e, s := Apply(h, c, Advance(id)), Step(h, c.w, c.tasks[id].r, c.tasks[id].pc);
            && e.w == s.0 && e.tasks == c.tasks[id := Task(c.tasks[id].r, s.1)] && SameHistory(c, e)
  {
    hide Step;
  }

  /** It can run up to its test of readiness. */
  lemma {:induction false} PushingRuns(h: Digest, cap: map<Uid, nat>, c: Config, id: nat) returns (ms: seq<Move>)
    requires InFlight(c, id) && Pushing(h, c.w, c.tasks[id].r, c.tasks[id].pc)
    ensures Solo(id, ms) && Allowed(h, cap, c, ms)
    ensures var t, e := c.tasks[id], After(h, cap, c, ms);
            && e.tasks == c.tasks[id := Task(t.r, Ready(t.pc.own))] && Recorded(h, c.w, e.w, t.r) && SameHistory(c, e)
    decreases Phase(c.tasks[id].pc)
  {
    hide Step;
    var t, m := c.tasks[id], Advance(id);
    PushStep(h, c.w, t.r, t.pc);
    PlainMove(h, c, id);
    var e := Apply(h, c, m);
    hide Apply, Phase;
    var rest := [];
    if !t.pc.Mark? {
      NextPhase(h, c.w, t.r, t.pc);
      rest := PushingRuns(h, cap, e, id);
      assert c.tasks[id := e.tasks[id]][id := Task(t.r, Ready(t.pc.own))] == c.tasks[id := Task(t.r, Ready(t.pc.own))];
    }
    Prepend(h, cap, c, m, rest);
    ms := [m] + rest;
  }

  lemma NextPhase(h: Digest, w: World, r: Request, pc: Pc)
    requires Pushing(h, w, r, pc) && !pc.Mark?
    ensures Phase(Step(h, w, r, pc).1) < Phase(pc)
  {
  }

  /** A block not recorded yet is pushed: from its start the task can run up to its test of readiness. */
  lemma PushRuns(h: Digest, cap: map<Uid, nat>, c: Config, id: nat) returns (ms: seq<Move>)
    requires InFlight(c, id) && c.tasks[id].pc.Get? && c.tasks[id].r.blockOpens
    requires SlotOf(c.w, c.tasks[id].r.uid).Live? || c.tasks[id].r.constructs
    requires var r := c.tasks[id].r;
             var hs := SlotOf(WithBuilder(c.w, r), r.uid).hashes;
             1 <= r.idx <= |hs| && hs[r.idx - 1] == ""
    ensures Solo(id, ms) && Allowed(h, cap, c, ms)
    ensures var r, e := c.tasks[id].r, After(h, cap, c, ms);
            var start := WithBuilder(c.w, r);
            && e.tasks == c.tasks[id := Task(r, Ready(Born(start, r.uid)))]
            && Recorded(h, start, e.w, r) && SameHistory(c, e)
  {
    hide WithBuilder;
    var r, m := c.tasks[id].r, Advance(id);
    var own := Born(WithBuilder(c.w, r), r.uid);
    assert Step(h, c.w, r, Get) == (WithBuilder(c.w, r), Check(own));
    PlainMove(h, c, id);
    hide Step;
    var e := Apply(h, c, m);
    hide Apply;
    var rest := PushingRuns(h, cap, e, id);
    assert c.tasks[id := e.tasks[id]][id := Task(r, Ready(own))] == c.tasks[id := Task(r, Ready(own))];
    Prepend(h, cap, c, m, rest);
    ms := [m] + rest;
  }

  /** Looking up and comparing lead to the block file when the block is not recorded, or with another digest. */
  lemma CompareRuns(h: Digest, cap: map<Uid, nat>, c: Config, id: nat) returns (ms: seq<Move>)
    requires InFlight(c, id) && c.tasks[id].pc.Get?
    requires SlotOf(c.w, c.tasks[id].r.uid).Live? || c.tasks[id].r.constructs
    requires var r := c.tasks[id].r;
             var hs := SlotOf(WithBuilder(c.w, r), r.uid).hashes;
             1 <= r.idx <= |hs| && hs[r.idx - 1] != h(r.value)
    ensures Solo(id, ms) && Allowed(h, cap, c, ms)
    ensures var r, e := c.tasks[id].r, After(h, cap, c, ms);
            && e.w == WithBuilder(c.w, r) && SameHistory(c, e)
            && e.tasks == c.tasks[id := Task(r, Open(Born(e.w, r.uid), h(r.value)))]
  {
    var m, r, w := Advance(id), c.tasks[id].r, WithBuilder(c.w, c.tasks[id].r);
    var own := Born(w, r.uid);
    assert Step(h, c.w, r, Get) == (w, Check(own)) && Step(h, w, r, Check(own)) == (w, Open(own, h(r.value))) by {
      hide WriteStep, BuildStep, DeleteStep;
    }
    hide Step, WithBuilder;
    PlainMove(h, c, id);
    var c1 := Apply(h, c, m);
    PlainMove(h, c1, id);
    var c2 := Apply(h, c1, m);
    hide Apply;
    Prepend(h, cap, c1, m, []);
    Prepend(h, cap, c, m, [m]);
    ms := [m] + [m];
    assert c.tasks[id := Task(r, Check(own))][id := c2.tasks[id]] == c.tasks[id := c2.tasks[id]];
  }

  /** One of its own steps leaves what a task will come to as it is. */
  lemma FinishMove(h: Digest, c: Config, id: nat)
    requires InFlight(c, id)
    ensures var t, e := c.tasks[id], Apply(h, c, Advance(id));
            && id in e.tasks && e.tasks == c.tasks[id := Task(t.r, e.tasks[id].pc)]
            && Closer(e.tasks[id].pc, t.pc)
            && Finish(h, e.w, t.r, e.tasks[id].pc) == Finish(h, c.w, t.r, t.pc)
  {
    hide Step, Finish, Closer, Fits;
    var t, e := c.tasks[id], Apply(h, c, Advance(id));
    FinishAfterStep(h, c.w, t.r, t.pc, e.w, e.tasks[id].pc);
  }

  /** A task can run to its end by itself. */
  lemma {:induction false} FinishRuns(h: Digest, cap: map<Uid, nat>, c: Config, id: nat) returns (ms: seq<Move>)
    requires InFlight(c, id)
    ensures Solo(id, ms) && Allowed(h, cap, c, ms)
    ensures var t, e := c.tasks[id], After(h, cap, c, ms);
            var (w', outcome) := Finish(h, c.w, t.r, t.pc);
            e.w == w' && e.tasks == c.tasks[id := Task(t.r, End(outcome))]
    decreases Phase(c.tasks[id].pc), Left(c.tasks[id].pc), Place(c.tasks[id].pc)
  {
    hide Apply, Step, Finish, Phase, Left, Place, Fits;
    var t, m := c.tasks[id], Advance(id);
    var e := Apply(h, c, m);
    FinishMove(h, c, id);
    var rest := [];
    if e.tasks[id].pc.End? {
      FinishAtEnd(h, e.w, t.r, e.tasks[id].pc.outcome);
    } else {
      rest := FinishRuns(h, cap, e, id);
      var done := After(h, cap, e, rest).tasks[id];
      assert c.tasks[id := e.tasks[id]][id := done] == c.tasks[id := done];
    }
    Prepend(h, cap, c, m, rest);
    ms := [m] + rest;
  }

  /** Deletions, callbacks and failures so far are the same. */
  predicate SameHistory(c: Config, e: Config) {
    e.deleted == c.deleted && e.broken == c.broken && e.called == c.called
  }
}
