/** The ordinary way to go wrong: the two chunks of a two-chunk file pushed in parallel. */
module LastChunks {
  import opened Names
  import opened Storage
  import opened BlockStore
  import opened Tasks
  import opened Views
  import opened Interleaving
  import opened SharedUid
  import opened Runs
  import opened Retries
  import opened Changes
  import opened Deletion

  /** A step of a task of u that has found every digest recorded, short of the deletion. */
  lemma BuildMove(h: Digest, cap: map<Uid, nat>, u: Uid, bs: seq<Bytes>, gen: nat, c: Config, id: nat)
    requires Separated(cap) && Sound(h, cap, u, bs, gen, c) && InFlight(c, id) && c.tasks[id].r.uid == u
    requires SlotOf(c.w, u).Live? && AllSet(SlotOf(c.w, u).hashes) && Building(c.tasks[id].pc)
    ensures var e := Apply(h, c, Advance(id));
            && Sound(h, cap, u, bs, gen, e) && e.tasks == c.tasks[id := e.tasks[id]] && e.tasks[id].r == c.tasks[id].r
            && Closer(e.tasks[id].pc, c.tasks[id].pc) && (Building(e.tasks[id].pc) || e.tasks[id].pc == Erase(gen))
            && e.w.slots == c.w.slots && e.w.births == c.w.births && e.w.calls == c.w.calls
            && e.w.listening == c.w.listening && SameHistory(c, e)
  {
    hide Taken, Trustworthy, WriteAt, Released;
    assert Knows(h, u, bs, c.w, c.tasks[id].r, c.tasks[id].pc);
    BuildStepStays(h, u, bs, c.w, c.tasks[id].r, c.tasks[id].pc);
    hide Knows, Step;
    AdvanceSound(h, cap, u, bs, gen, c, id);
  }

  predicate Building(pc: Pc) {
    pc.Ready? || pc.BuildOpen? || pc.Measure? || pc.Read? || pc.Write? || pc.Close?
  }

  lemma BuildStepStays(h: Digest, u: Uid, bs: seq<Bytes>, w: World, r: Request, pc: Pc)
    requires Trustworthy(h, u, bs, w) && Knows(h, u, bs, w, r, pc) && r.uid == u && Building(pc) && Fits(pc)
    requires SlotOf(w, u).Live? && AllSet(SlotOf(w, u).hashes)
    ensures var (w', pc') := Step(h, w, r, pc);
            && w'.slots == w.slots && w'.births == w.births && w'.calls == w.calls && w'.listening == w.listening
            && (Building(pc') || pc' == Erase(Born(w, u)))
  {
    hide Taken, WriteAt, Released;
    if pc.Measure? || pc.Read? {
      ReadKnows(h, u, bs, w, r, pc);
    }
  }

  /** Before any deletion such a task can run up to its own. */
  lemma {:induction false} BuildRuns(h: Digest, cap: map<Uid, nat>, u: Uid, bs: seq<Bytes>, gen: nat,
                                     c: Config, id: nat)
      returns (ms: seq<Move>)
    requires Separated(cap) && Sound(h, cap, u, bs, gen, c) && InFlight(c, id) && c.tasks[id].r.uid == u
    requires SlotOf(c.w, u).Live? && AllSet(SlotOf(c.w, u).hashes) && Building(c.tasks[id].pc)
    ensures Solo(id, ms) && Allowed(h, cap, c, ms)
    ensures var e := After(h, cap, c, ms);
            && Sound(h, cap, u, bs, gen, e) && e.tasks == c.tasks[id := Task(c.tasks[id].r, Erase(gen))]
            && e.w.slots == c.w.slots && e.w.births == c.w.births && e.w.calls == c.w.calls
            && e.w.listening == c.w.listening && SameHistory(c, e)
    decreases Phase(c.tasks[id].pc), Left(c.tasks[id].pc), Place(c.tasks[id].pc)
  {
    hide Sound, Apply, Step, Separated;
    var m := Advance(id);
    var e := Apply(h, c, m);
    BuildMove(h, cap, u, bs, gen, c, id);
    var rest := [];
    if !e.tasks[id].pc.Erase? {
      rest := BuildRuns(h, cap, u, bs, gen, e, id);
      var done := Task(c.tasks[id].r, Erase(gen));
      assert c.tasks[id := e.tasks[id]][id := done] == c.tasks[id := done];
    }
    Prepend(h, cap, c, m, rest);
    ms := [m] + rest;
  }

  const CAP: map<Uid, nat> := map["7" := 2]

  function Nothing(): Config {
    Initial(World(map[], map[], map[], [], true))
  }

  /** The request with block i + 1 of the file; nothing fails. */
  function Chunk(bs: seq<Bytes>, i: nat): Request
    requires i < |bs| == 2
  {
    Request("7", 2, i + 1, bs[i], true, true, true, [])
  }

  lemma {:induction false} Reaches(h: Digest, bs: seq<Bytes>, ms: seq<Move>, more: seq<Move>, id: nat)
    requires Allowed(h, CAP, Nothing(), ms) && Agreeing(h, CAP, Nothing(), ms, "7", bs)
    requires Allowed(h, CAP, After(h, CAP, Nothing(), ms), more) && Solo(id, more)
    ensures Allowed(h, CAP, Nothing(), ms + more) && Agreeing(h, CAP, Nothing(), ms + more, "7", bs)
    ensures After(h, CAP, Nothing(), ms + more) == After(h, CAP, After(h, CAP, Nothing(), ms), more)
  {
    AdvancesAgree(h, CAP, After(h, CAP, Nothing(), ms), more, "7", bs);
    hide *;
    Join(h, CAP, Nothing(), ms, more);
    JoinAgreeing(h, CAP, Nothing(), ms, more, "7", bs);
  }

  /** Both tasks have started. */
  lemma BothStart(h: Digest, bs: seq<Bytes>) returns (ms: seq<Move>)
    requires |bs| == 2
    ensures Allowed(h, CAP, Nothing(), ms) && Agreeing(h, CAP, Nothing(), ms, "7", bs)
    ensures var c := After(h, CAP, Nothing(), ms);
            c.w == Nothing().w && c.tasks == map[0 := Task(Chunk(bs, 0), Get), 1 := Task(Chunk(bs, 1), Get)]
            && SameHistory(Nothing(), c)
  {
    var m0, m1 := Start(0, Chunk(bs, 0)), Start(1, Chunk(bs, 1));
    var c1 := Apply(h, Nothing(), m0);
    ms := [m0, m1];
    assert ms[1..] == [m1] && [m1][1..] == [];
    assert c1.tasks == map[0 := Task(Chunk(bs, 0), Get)];
    assert Agrees(c1, m1, "7", bs) && Agrees(Nothing(), m0, "7", bs);
    var c2 := Apply(h, c1, m1);
    assert Allowed(h, CAP, c2, []) && Allowed(h, CAP, c1, [m1]);
    assert After(h, CAP, c1, [m1]) == c2;
  }

  /** Where the two tasks stand, and which digests are recorded in the one builder made. */
  ghost predicate Stand(h: Digest, bs: seq<Bytes>, c: Config, hs: seq<string>, pc0: Pc, pc1: Pc)
    requires |bs| == 2 && Fits(pc0) && Fits(pc1)
  {
    && c.tasks == map[0 := Task(Chunk(bs, 0), pc0), 1 := Task(Chunk(bs, 1), pc1)]
    && SlotOf(c.w, "7") == Live(hs) && Born(c.w, "7") == 1 && c.w.calls == [] && c.w.listening
    && SameHistory(Nothing(), c)
  }

  predicate IsAt(c: Config, id: nat, pc: Pc) {
    id in c.tasks && c.tasks[id].pc == pc
  }

  lemma FirstRecorded(h: Digest, bs: seq<Bytes>) returns (ms: seq<Move>)
    requires |bs| == 2
    ensures Allowed(h, CAP, Nothing(), ms) && Agreeing(h, CAP, Nothing(), ms, "7", bs)
    ensures Stand(h, bs, After(h, CAP, Nothing(), ms), [h(bs[0]), ""], Ready(1), Get)
  {
    var start := BothStart(h, bs);
    hide Allowed, After, Agreeing, Stand;
    var run := FirstPush(h, bs, After(h, CAP, Nothing(), start));
    Reaches(h, bs, start, run, 0);
    ms := start + run;
  }

  lemma FirstPush(h: Digest, bs: seq<Bytes>, c: Config) returns (run: seq<Move>)
    requires |bs| == 2 && c.w == Nothing().w && SameHistory(Nothing(), c)
    requires c.tasks == map[0 := Task(Chunk(bs, 0), Get), 1 := Task(Chunk(bs, 1), Get)]
    ensures Solo(0, run) && Allowed(h, CAP, c, run)
    ensures Stand(h, bs, After(h, CAP, c, run), [h(bs[0]), ""], Ready(1), Get)
  {
    hide Allowed, After, Apply, Step, WithBuilder;
    FirstBuilder(bs);
    run := PushRuns(h, CAP, c, 0);
    assert ["", ""][0 := h(bs[0])] == [h(bs[0]), ""];
  }

  lemma FirstBuilder(bs: seq<Bytes>)
    requires |bs| == 2
    ensures var w := WithBuilder(Nothing().w, Chunk(bs, 0));
            SlotOf(w, "7") == Live(["", ""]) && Born(w, "7") == 1 && w.calls == [] && w.listening
  {
    assert Blank(2) == ["", ""];
  }

  lemma SecondRecorded(h: Digest, bs: seq<Bytes>) returns (ms: seq<Move>)
    requires |bs| == 2
    ensures Allowed(h, CAP, Nothing(), ms) && Agreeing(h, CAP, Nothing(), ms, "7", bs)
    ensures Stand(h, bs, After(h, CAP, Nothing(), ms), [h(bs[0]), h(bs[1])], Ready(1), Ready(1))
  {
    var start := FirstRecorded(h, bs);
    hide Allowed, After, Agreeing, Stand;
    var run := SecondPush(h, bs, After(h, CAP, Nothing(), start));
    Reaches(h, bs, start, run, 1);
    ms := start + run;
  }

  lemma SecondPush(h: Digest, bs: seq<Bytes>, c: Config) returns (run: seq<Move>)
    requires |bs| == 2 && Stand(h, bs, c, [h(bs[0]), ""], Ready(1), Get)
    ensures Solo(1, run) && Allowed(h, CAP, c, run)
    ensures Stand(h, bs, After(h, CAP, c, run), [h(bs[0]), h(bs[1])], Ready(1), Ready(1))
  {
    assert WithBuilder(c.w, Chunk(bs, 1)) == c.w;
    hide Allowed, After, Apply, Step, WithBuilder;
    run := PushRuns(h, CAP, c, 1);
    assert [h(bs[0]), ""][1 := h(bs[1])] == [h(bs[0]), h(bs[1])];
  }

  /** Both have recorded their blocks, and neither has looked yet whether the session is ready. */
  lemma BothRecorded(h: Digest, bs: seq<Bytes>) returns (ms: seq<Move>)
    requires |bs| == 2
    ensures Reached(h, CAP, Nothing(), ms, "7", bs)
    ensures Stand(h, bs, After(h, CAP, Nothing(), ms), [h(bs[0]), h(bs[1])], Ready(1), Ready(1))
  {
    ms := SecondRecorded(h, bs);
    StillReached(h, bs, ms);
  }

  /** One of them builds, up to the deletion; the other still stands before its look. */
  lemma OneBuilt(h: Digest, bs: seq<Bytes>) returns (ms: seq<Move>)
    requires |bs| == 2
    ensures Reached(h, CAP, Nothing(), ms, "7", bs)
    ensures Stand(h, bs, After(h, CAP, Nothing(), ms), [h(bs[0]), h(bs[1])], Erase(1), Ready(1))
  {
    var start := BothRecorded(h, bs);
    ReachedSound(h, CAP, Nothing(), start, "7", bs);
    ms := BuildOne(h, bs, start, 0);
  }

  /** Both of them build, up to the deletion. */
  lemma BothBuilt(h: Digest, bs: seq<Bytes>) returns (ms: seq<Move>)
    requires |bs| == 2
    ensures Reached(h, CAP, Nothing(), ms, "7", bs)
    ensures Stand(h, bs, After(h, CAP, Nothing(), ms), [h(bs[0]), h(bs[1])], Erase(1), Erase(1))
  {
    var start := OneBuilt(h, bs);
    ReachedSound(h, CAP, Nothing(), start, "7", bs);
    ms := BuildOne(h, bs, start, 1);
  }

  lemma BuildOne(h: Digest, bs: seq<Bytes>, start: seq<Move>, id: nat) returns (ms: seq<Move>)
    requires |bs| == 2 && id < 2 && Reached(h, CAP, Nothing(), start, "7", bs)
    requires Allowed(h, CAP, Nothing(), start) && Agreeing(h, CAP, Nothing(), start, "7", bs)
    requires Stand(h, bs, After(h, CAP, Nothing(), start), [h(bs[0]), h(bs[1])],
                   if id == 0 then Ready(1) else Erase(1), Ready(1))
    ensures Reached(h, CAP, Nothing(), ms, "7", bs)
    ensures Stand(h, bs, After(h, CAP, Nothing(), ms), [h(bs[0]), h(bs[1])],
                  Erase(1), if id == 0 then Ready(1) else Erase(1))
  {
    hide Sound, Separated, After, Allowed, Agreeing, Opening, Apply;
    ReachedSound(h, CAP, Nothing(), start, "7", bs);
    var c := After(h, CAP, Nothing(), start);
    hide Reached;
    var run := BuildRuns(h, CAP, "7", bs, 1, c, id);
    Reaches(h, bs, start, run, id);
    ms := start + run;
    StillReached(h, bs, ms);
  }

  lemma StillReached(h: Digest, bs: seq<Bytes>, ms: seq<Move>)
    requires |bs| == 2 && Allowed(h, CAP, Nothing(), ms) && Agreeing(h, CAP, Nothing(), ms, "7", bs)
    requires SameHistory(Nothing(), After(h, CAP, Nothing(), ms))
    ensures Reached(h, CAP, Nothing(), ms, "7", bs)
  {
    hide After, Allowed, Agreeing;
    InitialOpening(CAP, Nothing().w, "7", bs);
  }

  /** The first task deletes and calls back; the second then uses the builder. */
  lemma DeleteThenUse(h: Digest, c: Config) returns (rest: seq<Move>)
    requires IsAt(c, 0, Erase(1)) && c.tasks[0].r.uid == "7" && c.w.listening
    requires 1 in c.tasks && c.tasks[1].r.uid == "7" && UsesBuilder(c.tasks[1].pc)
    ensures Allowed(h, CAP, c, rest)
    ensures var f := After(h, CAP, c, rest);
            && IsAt(f, 0, End(Returned)) && IsAt(f, 1, End(Undefined))
            && f.w.calls == c.w.calls + ["7"] && Find(f.w.files, "7") == Find(c.w.files, "7")
  {
    hide Apply, Step;
    var run := DeletionRuns(h, CAP, c, 0);
    var e := After(h, CAP, c, run);
    UndefinedMove(h, e, 1);
    Prepend(h, CAP, e, Advance(1), []);
    Join(h, CAP, c, run, [Advance(1)]);
    rest := run + [Advance(1)];
  }

  lemma UndefinedMove(h: Digest, c: Config, id: nat)
    requires InFlight(c, id) && UsesBuilder(c.tasks[id].pc) && SlotOf(c.w, c.tasks[id].r.uid).Null?
    ensures var f := Apply(h, c, Advance(id));
            f.w == c.w && f.tasks == c.tasks[id := Task(c.tasks[id].r, End(Undefined))]
  {
    hide GetStep, BuilderStep, WriteStep, BuildStep, DeleteStep;
  }

  /** The other task stands between its record and its look while the builder is deleted, its files are removed and
      the callback is made: it uses a deleted builder. */
  lemma LookUndefined(h: Digest, bs: seq<Bytes>) returns (ms: seq<Move>, more: seq<Move>)
    requires |bs| == 2
    ensures Reached(h, CAP, Nothing(), ms, "7", bs)
    ensures var c := After(h, CAP, Nothing(), ms);
            && IsAt(c, 0, Erase(1)) && IsAt(c, 1, Ready(1))
            && Allowed(h, CAP, c, more)
            && IsAt(After(h, CAP, c, more), 0, End(Returned)) && IsAt(After(h, CAP, c, more), 1, End(Undefined))
  {
    ms := OneBuilt(h, bs);
    hide Reached;
    more := DeleteThenUse(h, After(h, CAP, Nothing(), ms));
  }

  /** Both builds done before either deletion: two callbacks for the one session. */
  lemma TwoCallbacks(h: Digest, bs: seq<Bytes>) returns (ms: seq<Move>, more: seq<Move>)
    requires |bs| == 2
    ensures Reached(h, CAP, Nothing(), ms, "7", bs)
    ensures var c := After(h, CAP, Nothing(), ms);
            && IsAt(c, 0, Erase(1)) && IsAt(c, 1, Erase(1))
            && Allowed(h, CAP, c, more) && After(h, CAP, c, more).w.calls == ["7", "7"]
  {
    ms := BothBuilt(h, bs);
    hide Reached;
    more := DeleteTwice(h, After(h, CAP, Nothing(), ms));
  }

  lemma DeleteTwice(h: Digest, c: Config) returns (more: seq<Move>)
    requires IsAt(c, 0, Erase(1)) && IsAt(c, 1, Erase(1)) && c.w.listening
    ensures Allowed(h, CAP, c, more)
    ensures After(h, CAP, c, more).w.calls == c.w.calls + [c.tasks[0].r.uid] + [c.tasks[1].r.uid]
  {
    hide Apply, Step;
    var first := DeletionRuns(h, CAP, c, 0);
    var e := After(h, CAP, c, first);
    var second := DeletionRuns(h, CAP, e, 1);
    Join(h, CAP, c, first, second);
    more := first + second;
  }

  /** The second build opening the finished file after the first has closed it: the callback announces a file that
      stays empty, and the second task uses a deleted builder. */
  lemma EmptiedOutput(h: Digest, bs: seq<Bytes>) returns (ms: seq<Move>, more: seq<Move>)
    requires |bs| == 2
    ensures Reached(h, CAP, Nothing(), ms, "7", bs)
    ensures var c := After(h, CAP, Nothing(), ms);
            && IsAt(c, 0, Erase(1)) && IsAt(c, 1, Ready(1))
            && Allowed(h, CAP, c, more)
            && var f := After(h, CAP, c, more);
               && IsAt(f, 0, End(Returned)) && IsAt(f, 1, End(Undefined))
               && f.w.calls == ["7"] && Find(f.w.files, "7") == Some([])
  {
    ms := OneBuilt(h, bs);
    hide Reached, After, Allowed;
    more := OpenDeleteUse(h, bs, After(h, CAP, Nothing(), ms));
  }

  lemma OpenDeleteUse(h: Digest, bs: seq<Bytes>, c: Config) returns (more: seq<Move>)
    requires |bs| == 2 && Stand(h, bs, c, [h(bs[0]), h(bs[1])], Erase(1), Ready(1))
    ensures Allowed(h, CAP, c, more)
    ensures var f := After(h, CAP, c, more);
            && IsAt(f, 0, End(Returned)) && IsAt(f, 1, End(Undefined))
            && f.w.calls == ["7"] && Find(f.w.files, "7") == Some([])
  {
    hide Apply, Step, Enabled, After, Allowed;
    var m := Advance(1);
    var c1, c2 := OpenLate(h, bs, c);
    var rest := DeleteThenUse(h, c2);
    Prepend(h, CAP, c1, m, rest);
    Prepend(h, CAP, c, m, [m] + rest);
    more := [m] + ([m] + rest);
  }

  /** Two steps of the second task: it finds the session ready and opens the finished file. */
  lemma OpenLate(h: Digest, bs: seq<Bytes>, c: Config) returns (c1: Config, c2: Config)
    requires |bs| == 2 && Stand(h, bs, c, [h(bs[0]), h(bs[1])], Erase(1), Ready(1))
    ensures Enabled(c, Advance(1)) && c1 == Apply(h, c, Advance(1))
    ensures Enabled(c1, Advance(1)) && c2 == Apply(h, c1, Advance(1))
    ensures c2.tasks.Keys == {0, 1} && c2.tasks[0] == Task(Chunk(bs, 0), Erase(1))
    ensures c2.tasks[1].r == Chunk(bs, 1) && c2.tasks[1].pc.Measure? && c2.tasks[1].pc.own == 1
    ensures Find(c2.w.files, "7") == Some([]) && c2.w.calls == [] && c2.w.listening
  {
    var hs := [h(bs[0]), h(bs[1])];
    assert AllSet(hs);
    c1 := Apply(h, c, Advance(1));
    assert c1.w == c.w && c1.tasks[1].pc == BuildOpen(1);
    c2 := Apply(h, c1, Advance(1));
  }

  lemma RetryStarts(h: Digest, bs: seq<Bytes>) returns (ms: seq<Move>)
    requires |bs| == 2
    ensures Allowed(h, CAP, Nothing(), ms)
    ensures var c := After(h, CAP, Nothing(), ms);
            c.w == Nothing().w && c.tasks == map[0 := Task(Chunk(bs, 0), Get), 1 := Task(Chunk(bs, 0), Get)]
  {
    var m0, m1 := Start(0, Chunk(bs, 0)), Start(1, Chunk(bs, 0));
    var c1 := Apply(h, Nothing(), m0);
    assert c1.tasks == map[0 := Task(Chunk(bs, 0), Get)];
    Prepend(h, CAP, c1, m1, []);
    Prepend(h, CAP, Nothing(), m0, [m1]);
    ms := [m0] + [m1];
  }

  /** The smallest case: a chunk and its retry, sent before the answer came, leave a recorded digest beside an empty
      block file. */
  lemma RetryTearsBlock(h: Digest, bs: seq<Bytes>) returns (ms: seq<Move>)
    requires |bs| == 2
    ensures Allowed(h, CAP, Nothing(), ms)
    ensures var w := After(h, CAP, Nothing(), ms).w;
            Has(w, "7", 1) && Find(w.files, BlockName("7", 1)) == Some([])
  {
    hide After, Allowed, Apply;
    ms := RetryStarts(h, bs);
    FirstBuilder(bs);
    var rest := TearRuns(h, CAP, After(h, CAP, Nothing(), ms), 1, 0);
    Join(h, CAP, Nothing(), ms, rest);
    ms := ms + rest;
  }

  /** The first chunk sent again with other bytes, after both are recorded and before the session is built. */
  function Changed(v: Bytes): Request {
    Request("7", 2, 1, v, true, true, true, [])
  }

  lemma ChangeCompares(h: Digest, bs: seq<Bytes>, c: Config, v: Bytes) returns (ms: seq<Move>)
    requires |bs| == 2 && Stand(h, bs, c, [h(bs[0]), h(bs[1])], Ready(1), Ready(1)) && h(v) != h(bs[0])
    ensures Allowed(h, CAP, c, ms)
    ensures var e := After(h, CAP, c, ms);
            e.w == c.w && e.tasks == c.tasks[2 := Task(Changed(v), Open(1, h(v)))]
  {
    var m := Start(2, Changed(v));
    var c1 := Apply(h, c, m);
    assert WithBuilder(c1.w, Changed(v)) == c1.w;
    hide Apply, Step, WithBuilder;
    var compare := CompareRuns(h, CAP, c1, 2);
    Prepend(h, CAP, c, m, compare);
    ms := [m] + compare;
  }

  lemma ChangeEmpties(h: Digest, bs: seq<Bytes>, c: Config, v: Bytes)
    requires |bs| == 2 && 2 in c.tasks && c.tasks[2] == Task(Changed(v), Open(1, h(v))) && Alive(c.w, "7", 1)
    requires Find(c.w.files, BlockName("7", 2)) == Some(bs[1])
    ensures var e := Apply(h, c, Advance(2));
            && e.tasks == c.tasks[2 := Task(Changed(v), Fill(1, h(v)))] && e.w == c.w.(files := e.w.files)
            && Find(e.w.files, BlockName("7", 1)) == Some([]) && Find(e.w.files, BlockName("7", 2)) == Some(bs[1])
  {
    hide GetStep, BuilderStep, BuildStep, DeleteStep, WriteAt;
    BlockNameInjective("7", 1, 2);
  }

  /** It empties the file of the recorded block. */
  lemma ChangeOpens(h: Digest, bs: seq<Bytes>, c: Config, v: Bytes) returns (ms: seq<Move>)
    requires |bs| == 2 && Stand(h, bs, c, [h(bs[0]), h(bs[1])], Ready(1), Ready(1)) && h(v) != h(bs[0])
    requires Find(c.w.files, BlockName("7", 2)) == Some(bs[1])
    ensures TakesTurn(c, Start(2, Changed(v)), "7")
    ensures Allowed(h, CAP, c, ms)
    ensures var e := After(h, CAP, c, ms);
            && 1 in e.tasks && e.tasks[1] == Task(Chunk(bs, 1), Ready(1))
            && SlotOf(e.w, "7") == Live([h(bs[0]), h(bs[1])]) && Alive(e.w, "7", 1) && e.w.calls == [] && e.w.listening
            && Find(e.w.files, BlockName("7", 1)) == Some([]) && Find(e.w.files, BlockName("7", 2)) == Some(bs[1])
  {
    hide Apply, Step, TakesTurn;
    ChangeWaits(h, bs, c, v);
    var start := ChangeCompares(h, bs, c, v);
    var e := After(h, CAP, c, start);
    ChangeEmpties(h, bs, e, v);
    Prepend(h, CAP, e, Advance(2), []);
    Join(h, CAP, c, start, [Advance(2)]);
    ms := start + [Advance(2)];
    hide After, Allowed;
  }

  lemma ChangeWaits(h: Digest, bs: seq<Bytes>, c: Config, v: Bytes)
    requires |bs| == 2 && Stand(h, bs, c, [h(bs[0]), h(bs[1])], Ready(1), Ready(1))
    ensures TakesTurn(c, Start(2, Changed(v)), "7")
  {
  }

  /** A session built over files of which the first is just empty: the output is the second block alone. */
  lemma BuiltWithout(h: Digest, bs: seq<Bytes>, w: World)
    requires |bs| == 2 && Alive(w, "7", 1) && SlotOf(w, "7") == Live([h(bs[0]), h(bs[1])])
    requires Find(w.files, BlockName("7", 1)) == Some([]) && Find(w.files, BlockName("7", 2)) == Some(bs[1])
    requires w.listening && w.calls == []
    ensures var (w', outcome) := Finish(h, w, Chunk(bs, 1), Ready(1));
            outcome == Returned && w'.calls == ["7"] && Find(w'.files, "7") == Some(bs[1])
  {
    var r, hs, without := Chunk(bs, 1), [h(bs[0]), h(bs[1])], [[], bs[1]];
    assert AllSet(hs);
    FinishAfterStep(h, w, r, Ready(1), w, BuildOpen(1));
    FinishReady(h, w, r, 1, hs);
    hide Finish, Step;
    assert FilesHold(w.files, "7", without) by {
      forall i | 1 <= i <= 2 ensures BlockName("7", i) in w.files && w.files[BlockName("7", i)] == without[i - 1] {
        assert i == 1 || i == 2;
      }
    }
    GatherIsConcat(w.files, "7", without);
    assert Concat(without) == [] + (bs[1] + []) == bs[1];
    forall k: nat ensures BlockName("7", k) != "7" { BlockNameInjective("7", k, k); }
    assert "7" !in BlockNames("7", 2);
  }

  /** What a recorded digest does not say: the session is built, and announced, while a recorded block is being
      rewritten with a changed value, although no block is ever pushed twice at a time. The file lacks the block. */
  lemma BuiltDuringChange(h: Digest, bs: seq<Bytes>, v: Bytes) returns (ms: seq<Move>, more: seq<Move>)
    requires |bs| == 2 && h(v) != h(bs[0])
    ensures Reached(h, CAP, Nothing(), ms, "7", bs)
    ensures var c := After(h, CAP, Nothing(), ms);
            && TakesTurn(c, Start(2, Changed(v)), "7") && Allowed(h, CAP, c, more)
            && After(h, CAP, c, more).w.calls == ["7"] && Find(After(h, CAP, c, more).w.files, "7") == Some(bs[1])
  {
    ms := BothRecorded(h, bs);
    RecordedIsComplete(h, CAP, Nothing(), ms, "7", bs, 2);
    hide Reached, After, Allowed, Finish, Step;
    var c := After(h, CAP, Nothing(), ms);
    var change := ChangeOpens(h, bs, c, v);
    var e := After(h, CAP, c, change);
    BuiltWithout(h, bs, e.w);
    var finish := FinishRuns(h, CAP, e, 1);
    Join(h, CAP, c, change, finish);
    more := change + finish;
  }
}
