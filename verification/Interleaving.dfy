/** Any number of upload tasks over any number of uids, interleaved step by step. */
module Interleaving {
  import opened Names
  import opened Storage
  import opened BlockStore
  import opened Tasks
  import opened Views

  type FitPc = pc: Pc | Fits(pc) witness Get

  datatype Task = Task(r: Request, pc: FitPc)

  /** One upload session: the uid and the number of its builder. */
  datatype Round = Round(uid: Uid, gen: nat)

  /** `started` lists the requests in the order their tasks began. The rest is history, by the builder a task
      holds: whose tasks deleted, became undefined, and made a callback. `HistoryIff` ties it to the run. */
  datatype Config = Config(w: World, tasks: map<nat, Task>, started: seq<Request>,
                           deleted: set<Round>, broken: set<Round>, called: seq<Round>)

  datatype Move = Start(id: nat, r: Request) | Advance(id: nat)

  function Initial(w: World): Config {
    Config(w, map[], [], {}, {}, [])
  }

  predicate InFlight(c: Config, id: nat) {
    id in c.tasks && !c.tasks[id].pc.End?
  }

  /** The session whose builder the task holds; builders are numbered from 1. */
  function RoundOf(t: Task): Round {
    Round(t.r.uid, if t.pc.Get? || t.pc.End? then 0 else t.pc.own)
  }

  predicate Enabled(c: Config, m: Move) {
    match m
    case Start(id, _) => id !in c.tasks
    case Advance(id) => InFlight(c, id)
  }

  function Apply(h: Digest, c: Config, m: Move): Config
    requires Enabled(c, m)
  {
    match m
    case Start(id, r) => c.(tasks := c.tasks[id := Task(r, Get)], started := c.started + [r])
    case Advance(id) =>
      var t := c.tasks[id];
      var (w', pc') := Step(h, c.w, t.r, t.pc);
      var round := RoundOf(t);
      c.(w := w', tasks := c.tasks[id := Task(t.r, pc')],
         deleted := if t.pc.Erase? then c.deleted + {round} else c.deleted,
         broken := if pc' == End(Undefined) then c.broken + {round} else c.broken,
         called := if t.pc.Callback? && c.w.listening then c.called + [round] else c.called)
  }

  /** Every request of the run respects the block counts in cap. */
  predicate Capped(cap: map<Uid, nat>, m: Move) {
    m.Start? ==> m.r.uid in cap && m.r.total <= cap[m.r.uid]
  }

  predicate Allowed(h: Digest, cap: map<Uid, nat>, c: Config, ms: seq<Move>)
    decreases |ms|
  {
    ms == [] || (Enabled(c, ms[0]) && Capped(cap, ms[0]) && Allowed(h, cap, Apply(h, c, ms[0]), ms[1..]))
  }

  /** The state a run reaches; as ms is any run, it stands for every reachable state. */
  function After(h: Digest, cap: map<Uid, nat>, c: Config, ms: seq<Move>): Config
    requires Allowed(h, cap, c, ms)
    decreases |ms|
  {
    if ms == [] then c else After(h, cap, Apply(h, c, ms[0]), ms[1..])
  }

  /** The move is one by a task of u that holds builder gen. */
  predicate ByHolder(c: Config, m: Move, round: Round) {
    && m.Advance? && InFlight(c, m.id) && !c.tasks[m.id].pc.Get?
    && c.tasks[m.id].r.uid == round.uid && c.tasks[m.id].pc.own == round.gen
  }

  /** Some task that holds the builder takes a builder of its uid out of the table during the run. */
  predicate Deletes(h: Digest, cap: map<Uid, nat>, c: Config, ms: seq<Move>, round: Round)
    requires Allowed(h, cap, c, ms)
    decreases |ms|
  {
    ms != [] && ((ByHolder(c, ms[0], round) && c.tasks[ms[0].id].pc.Erase?)
                 || Deletes(h, cap, Apply(h, c, ms[0]), ms[1..], round))
  }

  /** Some task that holds the builder becomes undefined during the run. */
  predicate Breaks(h: Digest, cap: map<Uid, nat>, c: Config, ms: seq<Move>, round: Round)
    requires Allowed(h, cap, c, ms)
    decreases |ms|
  {
    ms != [] && ((ByHolder(c, ms[0], round) && Apply(h, c, ms[0]).tasks[ms[0].id].pc == End(Undefined))
                 || Breaks(h, cap, Apply(h, c, ms[0]), ms[1..], round))
  }

  /** How often tasks that hold the builder call back during the run. */
  function Callbacks(h: Digest, cap: map<Uid, nat>, c: Config, ms: seq<Move>, round: Round): nat
    requires Allowed(h, cap, c, ms)
    decreases |ms|
  {
    if ms == [] then 0
    else (if ByHolder(c, ms[0], round) && Apply(h, c, ms[0]).w.calls == c.w.calls + [round.uid] then 1 else 0)
         + Callbacks(h, cap, Apply(h, c, ms[0]), ms[1..], round)
  }

  lemma MoveHistory(h: Digest, c: Config, m: Move, round: Round)
    requires Enabled(c, m) && round.gen >= 1
    ensures var e := Apply(h, c, m);
            && (round in e.deleted <==> round in c.deleted || (ByHolder(c, m, round) && c.tasks[m.id].pc.Erase?))
            && (round in e.broken <==>
                  round in c.broken || (ByHolder(c, m, round) && e.tasks[m.id].pc == End(Undefined)))
            && multiset(e.called)[round] ==
               multiset(c.called)[round]
               + if ByHolder(c, m, round) && e.w.calls == c.w.calls + [round.uid] then 1 else 0
  {
    hide Step;
    if m.Advance? {
      StepCalls(h, c.w, c.tasks[m.id].r, c.tasks[m.id].pc);
      assert |c.w.calls + [round.uid]| == |c.w.calls| + 1;
    }
  }

  lemma StepCalls(h: Digest, w: World, r: Request, pc: Pc)
    requires !pc.End? && Fits(pc)
    ensures Step(h, w, r, pc).0.calls == if pc.Callback? && w.listening then w.calls + [r.uid] else w.calls
  {
    hide WriteStep, BuildStep, BuilderStep;
  }

  /** The history kept beside the state says what happened in the run, and no more. */
  lemma {:induction false} HistoryIff(h: Digest, cap: map<Uid, nat>, c: Config, ms: seq<Move>, round: Round)
    requires Allowed(h, cap, c, ms) && round.gen >= 1
    ensures round in After(h, cap, c, ms).deleted <==> round in c.deleted || Deletes(h, cap, c, ms, round)
    ensures round in After(h, cap, c, ms).broken <==> round in c.broken || Breaks(h, cap, c, ms, round)
    ensures multiset(After(h, cap, c, ms).called)[round] ==
            multiset(c.called)[round] + Callbacks(h, cap, c, ms, round)
    decreases |ms|
  {
    hide Apply, ByHolder, Enabled, Capped;
    if ms != [] {
      MoveHistory(h, c, ms[0], round);
      HistoryIff(h, cap, Apply(h, c, ms[0]), ms[1..], round);
    }
  }

  /** No task starts while another of the same uid is in flight. */
  predicate Exclusive(c: Config, m: Move) {
    m.Start? ==> forall id | id in c.tasks && InFlight(c, id) :: c.tasks[id].r.uid != m.r.uid
  }

  predicate Serialised(h: Digest, cap: map<Uid, nat>, c: Config, ms: seq<Move>)
    requires Allowed(h, cap, c, ms)
    decreases |ms|
  {
    ms == [] || (Exclusive(c, ms[0]) && Serialised(h, cap, Apply(h, c, ms[0]), ms[1..]))
  }

  /** What runs are: from any state any request within its cap can start under a new number, and any task in flight can
      take its next step; and what serialised runs are: a start waits for the tasks of its own uid only. */
  lemma MoveAllowedIff(h: Digest, cap: map<Uid, nat>, c: Config, m: Move)
    ensures Allowed(h, cap, c, [m]) <==>
            if m.Start? then m.id !in c.tasks && m.r.uid in cap && m.r.total <= cap[m.r.uid]
            else m.id in c.tasks && !c.tasks[m.id].pc.End?
    ensures Allowed(h, cap, c, [m]) ==>
              (Serialised(h, cap, c, [m]) <==>
               (m.Start? ==> forall id | id in c.tasks && !c.tasks[id].pc.End? :: c.tasks[id].r.uid != m.r.uid))
  {
    assert [m][1..] == [];
  }

  predicate Quiet(c: Config) {
    forall id | id in c.tasks :: c.tasks[id].pc.End?
  }

  predicate Idle(c: Config, u: Uid) {
    forall id | id in c.tasks && InFlight(c, id) :: c.tasks[id].r.uid != u
  }

  /** The requests run one after the other, each to its end. */
  function RunAll(h: Digest, w: World, rs: seq<Request>): World {
    if rs == [] then w else Serve(h, RunAll(h, w, rs[..|rs| - 1]), rs[|rs| - 1]).0
  }

  /** The requests of one uid, in order. */
  function Of(u: Uid, rs: seq<Request>): seq<Request> {
    if rs == [] then []
    else Of(u, rs[..|rs| - 1]) + if rs[|rs| - 1].uid == u then [rs[|rs| - 1]] else []
  }

  ghost predicate AllCapped(cap: map<Uid, nat>, rs: seq<Request>) {
    forall k | 0 <= k < |rs| :: rs[k].uid in cap && rs[k].total <= cap[rs[k].uid]
  }

  ghost predicate SlotsWithin(cap: map<Uid, nat>, w: World) {
    forall u | u in cap :: SlotWithin(cap[u], w, u)
  }

  lemma RunAllAppend(h: Digest, w: World, rs: seq<Request>, r: Request)
    ensures RunAll(h, w, rs + [r]) == Serve(h, RunAll(h, w, rs), r).0
  {
    assert (rs + [r])[..|rs|] == rs;
  }

  lemma OfAppend(u: Uid, rs: seq<Request>, r: Request)
    ensures Of(u, rs + [r]) == if r.uid == u then Of(u, rs) + [r] else Of(u, rs)
  {
    assert (rs + [r])[..|rs|] == rs;
  }

  /** Serving r leaves the views of the other uids alone and carries equal views of its own uid to equal views. */
  lemma ServeViews(h: Digest, cap: map<Uid, nat>, w: World, r: Request)
    requires Separated(cap) && r.uid in cap && r.total <= cap[r.uid] && SlotsWithin(cap, w)
    ensures SlotsWithin(cap, Serve(h, w, r).0) && OnlyOwn(r.uid, cap[r.uid], w, Serve(h, w, r).0)
    ensures forall u | u in cap && u != r.uid :: SameView(u, cap[u], Serve(h, w, r).0, w)
  {
    hide Serve, Finish, SameView, OnlyOwn;
    FinishIsServe(h, w, r);
    FinishOnlyOwn(h, w, r, Get, cap[r.uid]);
    forall u | u in cap && u != r.uid ensures SameView(u, cap[u], Serve(h, w, r).0, w) {
      OnlyOwnKeepsView(u, cap[u], r.uid, cap[r.uid], w, Serve(h, w, r).0);
    }
    SameViewReflexive(r.uid, cap[r.uid], w);
    FinishCongruent(h, w, w, r, Get, cap[r.uid]);
    SlotsStayWithin(cap, w, Serve(h, w, r).0, r.uid);
  }

  lemma SameViewReflexive(u: Uid, n: nat, w: World)
    ensures SameView(u, n, w, w)
  {
  }

  lemma SlotsStayWithin(cap: map<Uid, nat>, w: World, w': World, v: Uid)
    requires v in cap && SlotsWithin(cap, w) && SlotWithin(cap[v], w', v)
    requires forall u | u in cap && u != v :: SameView(u, cap[u], w', w)
    ensures SlotsWithin(cap, w')
  {
  }

  lemma ServeCongruent(h: Digest, n: nat, w1: World, w2: World, r: Request)
    requires r.total <= n && SlotWithin(n, w1, r.uid) && SameView(r.uid, n, w1, w2)
    ensures SameView(r.uid, n, Serve(h, w1, r).0, Serve(h, w2, r).0)
    ensures Serve(h, w1, r).1 == Serve(h, w2, r).1
  {
    hide Serve, Finish, SameView;
    FinishIsServe(h, w1, r);
    FinishIsServe(h, w2, r);
    FinishCongruent(h, w1, w2, r, Get, n);
  }

  /** In a run without interleaving each uid sees only its own requests. */
  lemma {:induction false} SerialViews(h: Digest, cap: map<Uid, nat>, w: World, rs: seq<Request>)
    requires Separated(cap) && AllCapped(cap, rs) && SlotsWithin(cap, w)
    ensures SlotsWithin(cap, RunAll(h, w, rs))
    ensures forall u | u in cap :: SameView(u, cap[u], RunAll(h, w, rs), RunAll(h, w, Of(u, rs)))
  {
    hide Serve, SameView;
    if rs == [] {
      forall u | u in cap ensures SameView(u, cap[u], w, w) { SameViewReflexive(u, cap[u], w); }
    } else {
      var init, r := rs[..|rs| - 1], rs[|rs| - 1];
      var w1 := RunAll(h, w, init);
      SerialViews(h, cap, w, init);
      assert init + [r] == rs;
      RunAllAppend(h, w, init, r);
      ServeViews(h, cap, w1, r);
      forall u | u in cap ensures SameView(u, cap[u], RunAll(h, w, rs), RunAll(h, w, Of(u, rs))) {
        var alone := RunAll(h, w, Of(u, init));
        OfAppend(u, init, r);
        if u == r.uid {
          RunAllAppend(h, w, Of(u, init), r);
          ServeCongruent(h, cap[u], w1, alone, r);
        } else {
          SameViewTransitive(u, cap[u], RunAll(h, w, rs), w1, alone);
        }
      }
    }
  }

  /** Every state of a serialised run: letting the task of u finish alone, or the state itself when u has no
      task, shows u what its own requests show when they run one after the other from the start. */
  ghost predicate Reduces(h: Digest, cap: map<Uid, nat>, w0: World, c: Config) {
    && SlotsWithin(cap, c.w)
    && AllCapped(cap, c.started)
    && (forall id | id in c.tasks && InFlight(c, id) :: TaskReduces(h, cap, w0, c, c.tasks[id]))
    && OnePerUid(c)
    && (forall u | u in cap && Idle(c, u) :: SameView(u, cap[u], c.w, RunAll(h, w0, Of(u, c.started))))
    && Untouched(cap, w0, c.w)
  }

  ghost predicate OnePerUid(c: Config) {
    forall i, j | i in c.tasks && j in c.tasks && i != j && InFlight(c, i) && InFlight(c, j) ::
      c.tasks[i].r.uid != c.tasks[j].r.uid
  }

  ghost predicate TaskReduces(h: Digest, cap: map<Uid, nat>, w0: World, c: Config, t: Task) {
    var u := t.r.uid;
    && u in cap
    && PcWithin(cap[u], t.r, t.pc)
    && SameView(u, cap[u], Finish(h, c.w, t.r, t.pc).0, RunAll(h, w0, Of(u, c.started)))
    && Finish(h, c.w, t.r, t.pc).1 == SerialOutcome(h, w0, Of(u, c.started), t.r)
  }

  /** How the last request of rs, which is r, ends when the requests run one after the other. */
  ghost function SerialOutcome(h: Digest, w0: World, rs: seq<Request>, r: Request): Outcome {
    if rs == [] then Undefined else Serve(h, RunAll(h, w0, rs[..|rs| - 1]), r).1
  }

  /** Names and table entries that belong to no uid of cap are as they were. */
  ghost predicate Untouched(cap: map<Uid, nat>, w0: World, w: World) {
    && w.listening == w0.listening
    && (forall x: Name | (forall u | u in cap :: !Owns(u, cap[u], x)) :: Find(w.files, x) == Find(w0.files, x))
    && (forall u: Uid | u !in cap :: SlotSame(u, w0, w) && CallsOf(u, w.calls) == CallsOf(u, w0.calls))
  }

  lemma OnlyOwnUntouched(cap: map<Uid, nat>, w0: World, w: World, w': World, v: Uid)
    requires v in cap && Untouched(cap, w0, w) && OnlyOwn(v, cap[v], w, w')
    ensures Untouched(cap, w0, w')
  {
    forall u: Uid | u !in cap ensures SlotSame(u, w0, w') && CallsOf(u, w'.calls) == CallsOf(u, w0.calls) {
      assert SlotSame(u, w0, w) && SlotSame(u, w, w');
    }
  }

  lemma StartInFlight(h: Digest, c: Config, m: Move)
    requires m.Start? && Enabled(c, m) && Exclusive(c, m)
    ensures forall id | id in Apply(h, c, m).tasks && InFlight(Apply(h, c, m), id) ::
              id == m.id || (InFlight(c, id) && c.tasks[id].r.uid != m.r.uid && Apply(h, c, m).tasks[id] == c.tasks[id])
    ensures forall u | Idle(Apply(h, c, m), u) :: Idle(c, u) && u != m.r.uid
    ensures Idle(c, m.r.uid)
  {
    var c' := Apply(h, c, m);
    assert InFlight(c', m.id);
    forall u | Idle(c', u) ensures Idle(c, u) && u != m.r.uid {
      forall id | id in c.tasks && InFlight(c, id) ensures c.tasks[id].r.uid != u {
        assert InFlight(c', id);
      }
    }
  }

  lemma StartOnePerUid(h: Digest, c: Config, m: Move)
    requires m.Start? && Enabled(c, m) && Exclusive(c, m) && OnePerUid(c)
    ensures OnePerUid(Apply(h, c, m))
  {
    StartInFlight(h, c, m);
  }

  /** The new task of an idle uid: finishing it alone is serving its request. */
  lemma StartedTaskReduces(h: Digest, cap: map<Uid, nat>, w0: World, c: Config, m: Move)
    requires m.Start? && Enabled(c, m) && Capped(cap, m) && SlotWithin(cap[m.r.uid], c.w, m.r.uid)
    requires SameView(m.r.uid, cap[m.r.uid], c.w, RunAll(h, w0, Of(m.r.uid, c.started)))
    ensures TaskReduces(h, cap, w0, Apply(h, c, m), Task(m.r, Get))
  {
    hide Serve, Finish, SameView, SlotWithin;
    var u := m.r.uid;
    OfAppend(u, c.started, m.r);
    RunAllAppend(h, w0, Of(u, c.started), m.r);
    FinishIsServe(h, c.w, m.r);
    ServeCongruent(h, cap[u], c.w, RunAll(h, w0, Of(u, c.started)), m.r);
    assert (Of(u, c.started) + [m.r])[..|Of(u, c.started)|] == Of(u, c.started);
  }

  lemma OtherTaskReduces(h: Digest, cap: map<Uid, nat>, w0: World, c: Config, m: Move, t: Task)
    requires m.Start? && Enabled(c, m) && TaskReduces(h, cap, w0, c, t) && t.r.uid != m.r.uid
    ensures TaskReduces(h, cap, w0, Apply(h, c, m), t)
  {
    OfAppend(t.r.uid, c.started, m.r);
  }

  lemma OtherIdleView(h: Digest, cap: map<Uid, nat>, w0: World, c: Config, m: Move, v: Uid)
    requires m.Start? && Enabled(c, m) && v in cap && v != m.r.uid
    requires SameView(v, cap[v], c.w, RunAll(h, w0, Of(v, c.started)))
    ensures SameView(v, cap[v], Apply(h, c, m).w, RunAll(h, w0, Of(v, Apply(h, c, m).started)))
  {
    OfAppend(v, c.started, m.r);
  }

  lemma StartTasks(h: Digest, cap: map<Uid, nat>, w0: World, c: Config, m: Move)
    requires Reduces(h, cap, w0, c)
    requires m.Start? && Enabled(c, m) && Capped(cap, m) && Exclusive(c, m)
    ensures var c' := Apply(h, c, m);
            forall id | id in c'.tasks && InFlight(c', id) :: TaskReduces(h, cap, w0, c', c'.tasks[id])
  {
    var c' := Apply(h, c, m);
    StartInFlight(h, c, m);
    forall id | id in c'.tasks && InFlight(c', id) ensures TaskReduces(h, cap, w0, c', c'.tasks[id]) {
      if id == m.id {
        StartedTaskReduces(h, cap, w0, c, m);
      } else {
        OtherTaskReduces(h, cap, w0, c, m, c.tasks[id]);
      }
    }
  }

  lemma StartIdle(h: Digest, cap: map<Uid, nat>, w0: World, c: Config, m: Move)
    requires Reduces(h, cap, w0, c)
    requires m.Start? && Enabled(c, m) && Capped(cap, m) && Exclusive(c, m)
    ensures var c' := Apply(h, c, m);
            forall v | v in cap && Idle(c', v) :: SameView(v, cap[v], c'.w, RunAll(h, w0, Of(v, c'.started)))
  {
    var c' := Apply(h, c, m);
    StartInFlight(h, c, m);
    forall v | v in cap && Idle(c', v) ensures SameView(v, cap[v], c'.w, RunAll(h, w0, Of(v, c'.started))) {
      OtherIdleView(h, cap, w0, c, m, v);
    }
  }

  /** Starting a task of an idle uid. */
  lemma StartReduces(h: Digest, cap: map<Uid, nat>, w0: World, c: Config, m: Move)
    requires Reduces(h, cap, w0, c)
    requires m.Start? && Enabled(c, m) && Capped(cap, m) && Exclusive(c, m)
    ensures Reduces(h, cap, w0, Apply(h, c, m))
  {
    hide SameView, Untouched, SlotsWithin, RunAll, Of, Idle, InFlight, OnePerUid, TaskReduces;
    StartOnePerUid(h, c, m);
    StartTasks(h, cap, w0, c, m);
    StartIdle(h, cap, w0, c, m);
  }

  /** What one step of a task does to the views of its own uid and of the others. */
  lemma AdvanceViews(h: Digest, cap: map<Uid, nat>, w0: World, c: Config, id: nat)
    requires Separated(cap) && Reduces(h, cap, w0, c) && InFlight(c, id)
    ensures var c', t := Apply(h, c, Advance(id)), c.tasks[id];
            && SlotsWithin(cap, c'.w) && Untouched(cap, w0, c'.w)
            && PcWithin(cap[t.r.uid], t.r, c'.tasks[id].pc)
            && Finish(h, c'.w, t.r, c'.tasks[id].pc) == Finish(h, c.w, t.r, t.pc)
            && forall u | u in cap && u != t.r.uid :: SameView(u, cap[u], c'.w, c.w)
  {
    hide Step, Finish, SameView, Untouched, OnlyOwn;
    var c', t := Apply(h, c, Advance(id)), c.tasks[id];
    var v := t.r.uid;
    assert TaskReduces(h, cap, w0, c, t);
    StepOnlyOwn(h, c.w, t.r, t.pc, cap[v]);
    StepWithin(h, c.w, t.r, t.pc, cap[v]);
    FinishAfterStep(h, c.w, t.r, t.pc, c'.w, c'.tasks[id].pc);
    OnlyOwnUntouched(cap, w0, c.w, c'.w, v);
    forall u | u in cap && u != v ensures SameView(u, cap[u], c'.w, c.w) {
      OnlyOwnKeepsView(u, cap[u], v, cap[v], c.w, c'.w);
    }
    SlotsStayWithin(cap, c.w, c'.w, v);
  }

  lemma AdvanceReduces(h: Digest, cap: map<Uid, nat>, w0: World, c: Config, id: nat)
    requires Separated(cap) && Reduces(h, cap, w0, c) && InFlight(c, id)
    ensures Reduces(h, cap, w0, Apply(h, c, Advance(id)))
  {
    hide Step, Finish, SameView, Untouched, SlotWithin;
    var c', t := Apply(h, c, Advance(id)), c.tasks[id];
    var v := t.r.uid;
    AdvanceViews(h, cap, w0, c, id);
    forall i | i in c'.tasks && InFlight(c', i) ensures InFlight(c, i) && TaskReduces(h, cap, w0, c', c'.tasks[i]) {
      if i != id {
        assert InFlight(c, i);
        var r, u := c.tasks[i].r, c.tasks[i].r.uid;
        assert TaskReduces(h, cap, w0, c, c.tasks[i]);
        SameViewSymmetric(u, cap[u], c'.w, c.w);
        FinishCongruent(h, c.w, c'.w, r, c.tasks[i].pc, cap[u]);
        var done, done' := Finish(h, c.w, r, c.tasks[i].pc).0, Finish(h, c'.w, r, c.tasks[i].pc).0;
        SameViewSymmetric(u, cap[u], done, done');
        SameViewTransitive(u, cap[u], done', done, RunAll(h, w0, Of(u, c.started)));
      }
    }
    forall u | u in cap && Idle(c', u) ensures SameView(u, cap[u], c'.w, RunAll(h, w0, Of(u, c'.started))) {
      if u == v {
        assert c'.tasks[id].pc.End?;
        FinishAtEnd(h, c'.w, t.r, c'.tasks[id].pc.outcome);
        assert TaskReduces(h, cap, w0, c, t);
      } else {
        assert Idle(c, u) by {
          forall i | i in c.tasks && InFlight(c, i) ensures c.tasks[i].r.uid != u {
            assert i != id ==> InFlight(c', i);
          }
        }
        SameViewTransitive(u, cap[u], c'.w, c.w, RunAll(h, w0, Of(u, c.started)));
      }
    }
  }

  lemma SameViewSymmetric(u: Uid, n: nat, w1: World, w2: World)
    requires SameView(u, n, w1, w2)
    ensures SameView(u, n, w2, w1)
  {
  }

  lemma {:induction false} RunReduces(h: Digest, cap: map<Uid, nat>, w0: World, c: Config, ms: seq<Move>)
    requires Separated(cap) && Reduces(h, cap, w0, c)
    requires Allowed(h, cap, c, ms) && Serialised(h, cap, c, ms)
    ensures Reduces(h, cap, w0, After(h, cap, c, ms))
    decreases |ms|
  {
    hide Reduces, Apply;
    if ms != [] {
      match ms[0] {
        case Start(_, _) => StartReduces(h, cap, w0, c, ms[0]);
        case Advance(id) => AdvanceReduces(h, cap, w0, c, id);
      }
      RunReduces(h, cap, w0, Apply(h, c, ms[0]), ms[1..]);
    }
  }

  lemma InitialReduces(h: Digest, cap: map<Uid, nat>, w0: World)
    requires SlotsWithin(cap, w0)
    ensures Reduces(h, cap, w0, Initial(w0))
  {
  }

  lemma {:induction false} RunAllUntouched(h: Digest, cap: map<Uid, nat>, w0: World, rs: seq<Request>)
    requires Separated(cap) && AllCapped(cap, rs) && SlotsWithin(cap, w0)
    ensures Untouched(cap, w0, RunAll(h, w0, rs))
  {
    hide Serve, SlotsWithin, Separated;
    if rs != [] {
      var init, r := rs[..|rs| - 1], rs[|rs| - 1];
      RunAllUntouched(h, cap, w0, init);
      SerialViews(h, cap, w0, init);
      ServeViews(h, cap, RunAll(h, w0, init), r);
      OnlyOwnUntouched(cap, w0, RunAll(h, w0, init), RunAll(h, w0, rs), r.uid);
    }
  }

  lemma FilesFromViews(cap: map<Uid, nat>, w0: World, w1: World, w2: World)
    requires Untouched(cap, w0, w1) && Untouched(cap, w0, w2)
    requires forall u | u in cap :: SameView(u, cap[u], w1, w2)
    ensures w1.files == w2.files && w1.slots == w2.slots
    ensures forall u :: CallsOf(u, w1.calls) == CallsOf(u, w2.calls)
  {
    forall x: Name ensures Find(w1.files, x) == Find(w2.files, x) {
      if u :| u in cap && Owns(u, cap[u], x) {
        assert SameView(u, cap[u], w1, w2);
      }
    }
    assert forall x: Name :: (x in w1.files) == Find(w1.files, x).Some? && (x in w2.files) == Find(w2.files, x).Some?;
    forall u: Uid ensures SlotSame(u, w1, w2) && CallsOf(u, w1.calls) == CallsOf(u, w2.calls) {
      if u in cap {
        assert SameView(u, cap[u], w1, w2);
      } else {
        assert SlotSame(u, w0, w1) && SlotSame(u, w0, w2);
      }
    }
    assert forall u: Uid :: u in w1.slots ==> SlotSame(u, w1, w2);
    assert forall u: Uid :: u in w2.slots ==> SlotSame(u, w1, w2);
  }

  /** Every interleaving of tasks, at most one of a uid at a time, ends with the directory and the table that
      the requests leave when served one after the other in the order they started; every uid has the same
      callbacks; and each uid's share is what its own requests produce alone. */
  lemma Reduction(h: Digest, cap: map<Uid, nat>, w0: World, ms: seq<Move>)
    requires Separated(cap) && SlotsWithin(cap, w0)
    requires Allowed(h, cap, Initial(w0), ms) && Serialised(h, cap, Initial(w0), ms)
    requires Quiet(After(h, cap, Initial(w0), ms))
    ensures var c := After(h, cap, Initial(w0), ms);
            var serial := RunAll(h, w0, c.started);
            && c.w.files == serial.files && c.w.slots == serial.slots
            && (forall u: Uid :: CallsOf(u, c.w.calls) == CallsOf(u, serial.calls))
            && (forall u | u in cap :: SameView(u, cap[u], c.w, RunAll(h, w0, Of(u, c.started))))
  {
    hide Serve, SameView, Untouched, SlotsWithin, Separated;
    var c := After(h, cap, Initial(w0), ms);
    InitialReduces(h, cap, w0);
    RunReduces(h, cap, w0, Initial(w0), ms);
    var serial := RunAll(h, w0, c.started);
    SerialViews(h, cap, w0, c.started);
    RunAllUntouched(h, cap, w0, c.started);
    forall u | u in cap ensures SameView(u, cap[u], c.w, serial) {
      assert Idle(c, u);
      SameViewSymmetric(u, cap[u], serial, RunAll(h, w0, Of(u, c.started)));
      SameViewTransitive(u, cap[u], c.w, RunAll(h, w0, Of(u, c.started)), serial);
    }
    FilesFromViews(cap, w0, c.w, serial);
  }

  /** A task in flight is the last of its uid to have started. */
  ghost predicate Latest(c: Config) {
    forall id | id in c.tasks && InFlight(c, id) :: LastOf(c.tasks[id].r, c.started)
  }

  ghost predicate LastOf(r: Request, rs: seq<Request>) {
    Of(r.uid, rs) != [] && Of(r.uid, rs)[|Of(r.uid, rs)| - 1] == r
  }

  lemma StepLatest(h: Digest, c: Config, m: Move)
    requires Latest(c) && Enabled(c, m) && Exclusive(c, m)
    ensures Latest(Apply(h, c, m))
  {
    hide Step, Of;
    var c' := Apply(h, c, m);
    forall id | id in c'.tasks && InFlight(c', id) ensures LastOf(c'.tasks[id].r, c'.started) {
      if m.Start? {
        OfAppend(c'.tasks[id].r.uid, c.started, m.r);
        assert id != m.id ==> InFlight(c, id);
      } else {
        assert InFlight(c, id);
      }
    }
  }

  lemma {:induction false} RunLatest(h: Digest, cap: map<Uid, nat>, c: Config, ms: seq<Move>)
    requires Latest(c) && Allowed(h, cap, c, ms) && Serialised(h, cap, c, ms)
    ensures Latest(After(h, cap, c, ms))
    decreases |ms|
  {
    hide Latest, Apply;
    if ms != [] {
      StepLatest(h, c, ms[0]);
      RunLatest(h, cap, Apply(h, c, ms[0]), ms[1..]);
    }
  }

  /** While a task of u is in flight it is the last request of u to have started, and whatever the other uids
      do it will end the way it ends in the serial run. `Sessions.InFlightUndefinedIff` says when it ends undefined. */
  lemma OutcomeReduces(h: Digest, cap: map<Uid, nat>, w0: World, ms: seq<Move>, id: nat)
    requires Separated(cap) && SlotsWithin(cap, w0)
    requires Allowed(h, cap, Initial(w0), ms) && Serialised(h, cap, Initial(w0), ms)
    requires InFlight(After(h, cap, Initial(w0), ms), id)
    ensures var c := After(h, cap, Initial(w0), ms);
            var t := c.tasks[id];
            && LastOf(t.r, c.started)
            && Finish(h, c.w, t.r, t.pc).1 == SerialOutcome(h, w0, Of(t.r.uid, c.started), t.r)
  {
    RunLatest(h, cap, Initial(w0), ms);
    InitialReduces(h, cap, w0);
    RunReduces(h, cap, w0, Initial(w0), ms);
    assert TaskReduces(h, cap, w0, After(h, cap, Initial(w0), ms), After(h, cap, Initial(w0), ms).tasks[id]);
  }

  /** Separation is needed: when v is the name of block d of u, a one-block upload of v puts its own bytes in
      the place of that block, whatever digest u has recorded for it. */
  lemma SharedNameOverwritten(h: Digest, w: World, u: Uid, d: nat, value: Bytes)
    requires SlotOf(w, BlockName(u, d)).Null?
    ensures var r := Request(BlockName(u, d), 1, 1, value, true, true, true, []);
            && Serve(h, w, r).1 == Returned
            && Find(Serve(h, w, r).0.files, BlockName(u, d)) == Some(value)
            && (d >= 1 && Find(w.files, BlockName(u, d)) != Some(value) ==> !SameView(u, d, Serve(h, w, r).0, w))
  {
    var v := BlockName(u, d);
    var r := Request(v, 1, 1, value, true, true, true, []);
    var hs := Blank(1);
    var w1 := WithBuilder(w, r);
    var p := PushBlock(h, hs, w.files, v, 1, value, true);
    BlockNameInjective(v, 1, 1);
    GatherIsConcat(p.files, v, [value]);
    assert Concat([value]) == value + [] == value;
    assert p.ok && AllSet(p.hs) && Complete(p.files, v, 1);
    assert v !in BlockNames(v, 1);
    assert Find(Cleared(Built(p.files, v, 1, true), v, 1), v) == Some(value);
    assert Serve(h, w, r) == ServeLive(h, w1, r, hs);
  }

  /** Serving r changes nothing that another uid of cap can see. */
  ghost predicate Apart(h: Digest, cap: map<Uid, nat>, w: World, r: Request) {
    forall u | u in cap && u != r.uid :: SameView(u, cap[u], Serve(h, w, r).0, w)
  }

  /** Isolation is separation: whole requests leave the other uids alone, in every state, exactly when no uid
      is a block name of another. */
  lemma IsolationIff(h: Digest, cap: map<Uid, nat>)
    requires forall u | u in cap :: cap[u] >= 1
    ensures (forall u, v | u in cap && v in cap :: !IsBlockOf(v, u, cap[u])) <==>
            (forall w: World, r: Request | SlotsWithin(cap, w) && r.uid in cap && r.total <= cap[r.uid] ::
               Apart(h, cap, w, r))
  {
    hide Serve, SameView, Separated;
    SeparatedIff(cap);
    if Separated(cap) {
      forall w: World, r: Request | SlotsWithin(cap, w) && r.uid in cap && r.total <= cap[r.uid]
        ensures Apart(h, cap, w, r)
      {
        ServeViews(h, cap, w, r);
      }
    } else {
      var u, v :| u in cap && v in cap && IsBlockOf(v, u, cap[u]);
      var d: nat :| 1 <= d <= cap[u] && v == BlockName(u, d);
      var w, r := World(map[], map[], map[], [], true), Request(v, 1, 1, [0], true, true, true, []);
      BlockNameInjective(u, d, d);
      SharedNameOverwritten(h, w, u, d, [0]);
      NarrowerView(u, d, cap[u], Serve(h, w, r).0, w);
      assert !Apart(h, cap, w, r);
    }
  }

  lemma NarrowerView(u: Uid, d: nat, n: nat, w1: World, w2: World)
    requires d <= n
    ensures SameView(u, n, w1, w2) ==> SameView(u, d, w1, w2)
  {
  }
}
