/** The finished file of a uid while its uploads go on, one at a time: when is it a completed upload? */
module Outputs {
  import opened Names
  import opened Storage
  import opened BlockStore
  import opened Tasks
  import opened Views
  import opened Interleaving
  import opened Sessions
  import opened SharedUid
  import opened Builds
  import opened Deletion

  /** No task of u has the finished file open. */
  ghost predicate Shut(c: Config, u: Uid) {
    forall id | id in c.tasks :: !Streaming(c, u, id)
  }

  /** The task has not touched the finished file yet: it is still to open it, or could not. */
  predicate Before(t: Task) {
    || t.pc.Get? || t.pc.Check? || t.pc.Open? || t.pc.Fill? || t.pc.Mark? || t.pc.Ready? || t.pc.BuildOpen?
    || (!t.r.outputOpens && (t.pc.Measure? || t.pc.Read? || t.pc.Write? || t.pc.Close?))
  }

  ghost predicate StillBefore(c: Config, u: Uid) {
    exists id :: InFlight(c, id) && c.tasks[id].r.uid == u && Before(c.tasks[id])
  }

  /** The requests of u whose effect on the finished file is complete: all that started, but for one in flight that
      has not touched the file. */
  ghost function Served(c: Config, u: Uid): seq<Request> {
    var mine := Of(u, c.started);
    if StillBefore(c, u) && mine != [] then mine[..|mine| - 1] else mine
  }

  /** The finished file and the callbacks are those of the requests before the task's own. */
  ghost predicate AsBefore(h: Digest, w0: World, c: Config, t: Task) {
    var mine := Of(t.r.uid, c.started);
    && mine != []
    && var earlier := RunAll(h, w0, mine[..|mine| - 1]);
       && Find(c.w.files, t.r.uid) == Find(earlier.files, t.r.uid)
       && CallsOf(t.r.uid, c.w.calls) == CallsOf(t.r.uid, earlier.calls)
  }

  ghost predicate AllAsBefore(h: Digest, w0: World, c: Config) {
    forall id | id in c.tasks && InFlight(c, id) && Before(c.tasks[id]) :: AsBefore(h, w0, c, c.tasks[id])
  }

  lemma StartAsBefore(h: Digest, cap: map<Uid, nat>, w0: World, c: Config, m: Move)
    requires Reduces(h, cap, w0, c) && AllAsBefore(h, w0, c)
    requires m.Start? && Enabled(c, m) && Capped(cap, m) && Exclusive(c, m)
    ensures AllAsBefore(h, w0, Apply(h, c, m))
  {
    hide TaskReduces, Untouched, SlotsWithin, RunAll, Of;
    var c' := Apply(h, c, m);
    StartInFlight(h, c, m);
    forall id | id in c'.tasks && InFlight(c', id) && Before(c'.tasks[id]) ensures AsBefore(h, w0, c', c'.tasks[id]) {
      OfAppend(c'.tasks[id].r.uid, c.started, m.r);
      if id == m.id {
        var mine := Of(m.r.uid, c.started);
        assert (mine + [m.r])[..|mine|] == mine;
      } else {
        assert AsBefore(h, w0, c, c.tasks[id]);
      }
    }
  }

  lemma StaysBefore(h: Digest, w: World, r: Request, pc: FitPc)
    requires !pc.End?
    ensures var (w', pc') := Step(h, w, r, pc); Before(Task(r, pc')) ==> Before(Task(r, pc)) && w'.calls == w.calls
  {
    hide Put, Released, WriteAt, ReadBuffer, Zeros, AllSet, BlockName;
  }

  /** A step that leaves the task where it has not touched the file left file and callbacks alone. */
  lemma BeforeStep(h: Digest, w: World, r: Request, pc: FitPc)
    requires !pc.End?
    ensures var (w', pc') := Step(h, w, r, pc);
            Before(Task(r, pc')) ==>
              Before(Task(r, pc)) && Find(w'.files, r.uid) == Find(w.files, r.uid) && w'.calls == w.calls
  {
    StaysBefore(h, w, r, pc);
    if pc.BuildOpen? && !Dangling(w, r.uid, pc) {
      OpensOut(h, w, r, pc);
    }
    hide Step;
    if !Writing(r, pc) {
      StepWhileShut(h, w, r, pc);
    }
  }

  lemma OpensOut(h: Digest, w: World, r: Request, pc: FitPc)
    requires pc.BuildOpen? && !Dangling(w, r.uid, pc)
    ensures Step(h, w, r, pc).1.Measure?
  {
  }

  lemma AdvanceAsBefore(h: Digest, cap: map<Uid, nat>, w0: World, c: Config, id: nat)
    requires Separated(cap) && Reduces(h, cap, w0, c) && AllAsBefore(h, w0, c) && InFlight(c, id)
    ensures AllAsBefore(h, w0, Apply(h, c, Advance(id)))
  {
    hide Step, Untouched, SlotsWithin, Before, Separated, Finish, SameView, AsBefore;
    var c', t := Apply(h, c, Advance(id)), c.tasks[id];
    AdvanceViews(h, cap, w0, c, id);
    BeforeStep(h, c.w, t.r, t.pc);
    forall i | i in c'.tasks && InFlight(c', i) && Before(c'.tasks[i]) ensures AsBefore(h, w0, c', c'.tasks[i]) {
      assert InFlight(c, i);
      if i == id {
        SameAsBefore(h, w0, c, c', t, c'.tasks[id]);
      } else {
        assert TaskReduces(h, cap, w0, c, c.tasks[i]);
        var u := c.tasks[i].r.uid;
        ViewFile(u, cap[u], c'.w, c.w);
        SameAsBefore(h, w0, c, c', c.tasks[i], c'.tasks[i]);
      }
    }
  }

  lemma SameAsBefore(h: Digest, w0: World, c: Config, c': Config, t: Task, t': Task)
    requires AsBefore(h, w0, c, t) && c'.started == c.started && t'.r == t.r
    requires Find(c'.w.files, t.r.uid) == Find(c.w.files, t.r.uid)
    requires CallsOf(t.r.uid, c'.w.calls) == CallsOf(t.r.uid, c.w.calls)
    ensures AsBefore(h, w0, c', t')
  {
  }

  lemma ViewFile(u: Uid, n: nat, w1: World, w2: World)
    requires SameView(u, n, w1, w2)
    ensures Find(w1.files, u) == Find(w2.files, u) && CallsOf(u, w1.calls) == CallsOf(u, w2.calls)
  {
  }

  lemma {:induction false} RunAsBefore(h: Digest, cap: map<Uid, nat>, w0: World, c: Config, ms: seq<Move>)
    requires Separated(cap) && Reduces(h, cap, w0, c) && AllAsBefore(h, w0, c)
    requires Allowed(h, cap, c, ms) && Serialised(h, cap, c, ms)
    ensures Reduces(h, cap, w0, After(h, cap, c, ms)) && AllAsBefore(h, w0, After(h, cap, c, ms))
    decreases |ms|
  {
    hide Reduces, AllAsBefore, Apply, Separated;
    if ms != [] {
      match ms[0] {
        case Start(_, _) =>
          StartReduces(h, cap, w0, c, ms[0]);
          StartAsBefore(h, cap, w0, c, ms[0]);
        case Advance(id) =>
          AdvanceReduces(h, cap, w0, c, id);
          AdvanceAsBefore(h, cap, w0, c, id);
      }
      RunAsBefore(h, cap, w0, Apply(h, c, ms[0]), ms[1..]);
    }
  }

  /** From the deletion on a task leaves the finished file alone, and its callback is still to come. */
  lemma {:induction false} FinishFromErase(h: Digest, w: World, r: Request, pc: Pc)
    requires (pc.Erase? || pc.Clear? || pc.Callback?) && Fits(pc)
    ensures var (w', outcome) := Finish(h, w, r, pc);
            && outcome == Returned && Find(w'.files, r.uid) == Find(w.files, r.uid)
            && w'.calls == if w.listening then w.calls + [r.uid] else w.calls
    decreases Phase(pc), Left(pc), Place(pc)
  {
    DeletionStep(h, w, r, pc);
    hide Step;
    var (w', pc') := Step(h, w, r, pc);
    FinishAfterStep(h, w, r, pc, w', pc');
    if pc.Callback? {
      FinishAtEnd(h, w', r, Returned);
    } else {
      FinishFromErase(h, w', r, pc');
    }
  }

  /** A task that has written all blocks needs its builder no more: in any state, whether or not the builder is still
      there, it puts what its stream holds into the file, and comes to its callback. */
  lemma FinishFromClose(h: Digest, w: World, r: Request, own: nat, out: Stream)
    ensures var (w', outcome) := Finish(h, w, r, Close(own, out, true));
            && outcome == Returned
            && w'.calls == (if w.listening then w.calls + [r.uid] else w.calls)
            && Find(w'.files, r.uid) == if r.outputOpens && r.uid in w.files
                                        then Some(WriteAt(w.files[r.uid], out.pos, out.held)) else Find(w.files, r.uid)
  {
    hide WriteAt;
    var w1 := Put(w, r, out.pos, out.held);
    FinishAfterStep(h, w, r, Close(own, out, true), w1, Erase(own));
    FinishFromErase(h, w1, r, Erase(own));
  }

  /** The finished file and the number of callbacks are what the account says. */
  ghost predicate FileOf(a: Account, u: Uid, w: World) {
    && Find(w.files, u) == (if a.output.Some? then Some(Concat(a.output.value)) else None)
    && (u in w.calls && w.listening ==> a.rounds != [])
  }

  lemma RepresentsFile(h: Digest, n: nat, u: Uid, a: Account, w1: World, w2: World)
    requires Represents(h, n, u, a, w1) && w1.listening == w2.listening
    requires Find(w1.files, u) == Find(w2.files, u)
    requires u in w2.calls && w2.listening ==> |CallsOf(u, w1.calls)| > 0
    ensures FileOf(a, u, w2)
  {
  }

  lemma {:induction false} CallsOfMember(u: Uid, calls: seq<Uid>)
    requires u in calls
    ensures |CallsOf(u, calls)| > 0
  {
    if calls[|calls| - 1] != u {
      assert u in calls[..|calls| - 1];
      CallsOfMember(u, calls[..|calls| - 1]);
    }
  }

  /** In every state of a run in which the uploads of each uid come one after the other, the finished file of u is
      the one of the requests served so far, unless a task of u just has it open. */
  lemma OutputBetweenOpens(h: Digest, cap: map<Uid, nat>, w0: World, ms: seq<Move>, u: Uid)
    requires Separated(cap) && w0 == Empty(w0.listening) && u in cap
    requires Allowed(h, cap, Initial(w0), ms) && Serialised(h, cap, Initial(w0), ms)
    requires Shut(After(h, cap, Initial(w0), ms), u)
    ensures var c := After(h, cap, Initial(w0), ms); FileOf(PostAll(h, true, Served(c, u)), u, c.w)
  {
    hide Represents, Separated, Finish, Step, Of, PostAll, RunAll, After, Allowed, Serialised, FileOf, Reduces;
    InitialReduces(h, cap, w0);
    RunAsBefore(h, cap, w0, Initial(w0), ms);
    var c := After(h, cap, Initial(w0), ms);
    ReducesCapped(h, cap, w0, c);
    OfCapped(cap, u, c.started);
    ServedFile(h, cap, w0, c, u);
  }

  lemma ReducesCapped(h: Digest, cap: map<Uid, nat>, w0: World, c: Config)
    requires Reduces(h, cap, w0, c)
    ensures AllCapped(cap, c.started) && AllWithin(cap, c)
  {
    hide Finish, Step, RunAll, Of, SameView, Untouched;
    forall id | id in c.tasks && InFlight(c, id)
      ensures c.tasks[id].r.uid in cap && PcWithin(cap[c.tasks[id].r.uid], c.tasks[id].r, c.tasks[id].pc)
    {
      assert TaskReduces(h, cap, w0, c, c.tasks[id]);
    }
  }

  /** The file and the callbacks of u in c are those of the requests served. */
  ghost predicate AsServed(h: Digest, w0: World, c: Config, u: Uid) {
    var w1 := RunAll(h, w0, Served(c, u));
    && Find(c.w.files, u) == Find(w1.files, u)
    && (u in c.w.calls && c.w.listening ==> |CallsOf(u, w1.calls)| > 0)
  }

  lemma BeforeServed(h: Digest, cap: map<Uid, nat>, w0: World, c: Config, u: Uid)
    requires AllAsBefore(h, w0, c) && StillBefore(c, u)
    ensures AsServed(h, w0, c, u)
  {
    hide RunAll, Of, Before;
    var id :| InFlight(c, id) && c.tasks[id].r.uid == u && Before(c.tasks[id]);
    assert AsBefore(h, w0, c, c.tasks[id]);
    if u in c.w.calls {
      CallsOfMember(u, c.w.calls);
    }
  }

  lemma PastServed(h: Digest, cap: map<Uid, nat>, w0: World, c: Config, u: Uid, id: nat)
    requires InFlight(c, id) && c.tasks[id].r.uid == u && TaskReduces(h, cap, w0, c, c.tasks[id])
    requires !StillBefore(c, u) && Shut(c, u)
    ensures AsServed(h, w0, c, u)
  {
    hide RunAll, Of, Finish, Step;
    var t := c.tasks[id];
    assert !Before(t) && !Streaming(c, u, id);
    FinishFromErase(h, c.w, t.r, t.pc);
    hide Before, Streaming;
    CallsOfAppend(u, c.w.calls, u);
  }

  lemma IdleServed(h: Digest, cap: map<Uid, nat>, w0: World, c: Config, u: Uid)
    requires u in cap && Idle(c, u) && SameView(u, cap[u], c.w, RunAll(h, w0, Of(u, c.started)))
    ensures AsServed(h, w0, c, u)
  {
    hide RunAll, Of, Before;
    assert !StillBefore(c, u);
    if u in c.w.calls {
      CallsOfMember(u, c.w.calls);
    }
  }

  lemma ServedFile(h: Digest, cap: map<Uid, nat>, w0: World, c: Config, u: Uid)
    requires w0 == Empty(w0.listening) && u in cap && Reduces(h, cap, w0, c) && AllAsBefore(h, w0, c)
    requires Shut(c, u)
    requires forall k | 0 <= k < |Of(u, c.started)| ::
               Of(u, c.started)[k].uid == u && Of(u, c.started)[k].total <= cap[u]
    ensures FileOf(PostAll(h, true, Served(c, u)), u, c.w)
  {
    hide Represents, SlotsWithin, Finish, Of, PostAll, RunAll, FileOf, StillBefore, Shut, AllAsBefore, SameView;
    if StillBefore(c, u) {
      BeforeServed(h, cap, w0, c, u);
    } else if id :| InFlight(c, id) && c.tasks[id].r.uid == u {
      PastServed(h, cap, w0, c, u, id);
    } else {
      IdleServed(h, cap, w0, c, u);
    }
    hide Reduces;
    OneUidRefines(h, cap[u], u, w0, Served(c, u));
    RunAllListens(h, w0, Served(c, u));
    ReducesListens(h, cap, w0, c);
    RepresentsFile(h, cap[u], u, PostAll(h, true, Served(c, u)), RunAll(h, w0, Served(c, u)), c.w);
  }

  lemma {:induction false} RunAllListens(h: Digest, w: World, rs: seq<Request>)
    ensures RunAll(h, w, rs).listening == w.listening
  {
    hide Serve;
    if rs != [] {
      RunAllListens(h, w, rs[..|rs| - 1]);
      ServeListens(h, RunAll(h, w, rs[..|rs| - 1]), rs[|rs| - 1]);
    }
  }

  lemma ServeListens(h: Digest, w: World, r: Request)
    ensures Serve(h, w, r).0.listening == w.listening
  {
    assert WithBuilder(w, r).listening == w.listening;
    hide PushBlock, Built, Cleared, Complete, AllSet, WithBuilder;
  }

  /** A step of a task of u that does not have the finished file open. */
  lemma ShutStep(h: Digest, c: Config, u: Uid, id: nat)
    requires InFlight(c, id) && c.tasks[id].r.uid == u && !Streaming(c, u, id)
    ensures var e := Apply(h, c, Advance(id));
            if Truncates(c, Advance(id), u) then Find(e.w.files, u) == Some([])
            else Find(e.w.files, u) == Find(c.w.files, u) && !Streaming(e, u, id)
  {
    StepWhileShut(h, c.w, c.tasks[id].r, c.tasks[id].pc);
    hide Step;
  }

  predicate Writing(r: Request, pc: Pc) {
    r.outputOpens && (pc.Measure? || pc.Read? || pc.Write? || pc.Close?)
  }

  lemma StepWhileShut(h: Digest, w: World, r: Request, pc: Pc)
    requires !pc.End? && Fits(pc) && !Writing(r, pc)
    ensures var (w', pc') := Step(h, w, r, pc);
            if r.outputOpens && pc.BuildOpen? && !Dangling(w, r.uid, pc) then Find(w'.files, r.uid) == Some([])
            else Find(w'.files, r.uid) == Find(w.files, r.uid) && !Writing(r, pc')
  {
    hide GetStep, BuilderStep, WriteStep, BuildStep, DeleteStep;
    if Dangling(w, r.uid, pc) {
    } else if pc.Get? || pc.Check? || pc.Mark? || pc.Ready? {
      TableWhileShut(h, w, r, pc);
    } else if pc.Erase? || pc.Clear? || pc.Callback? {
      DeletionStep(h, w, r, pc);
    } else {
      FileWhileShut(w, r, pc);
    }
  }

  lemma TableWhileShut(h: Digest, w: World, r: Request, pc: Pc)
    requires pc.Get? || ((pc.Check? || pc.Mark? || pc.Ready?) && SlotOf(w, r.uid).Live?)
    ensures var (w', pc') := if pc.Get? then GetStep(w, r) else BuilderStep(h, w, r, pc);
            w'.files == w.files && !Writing(r, pc')
  {
  }

  lemma FileWhileShut(w: World, r: Request, pc: Pc)
    requires Fits(pc) && !Writing(r, pc) && (pc.BuildOpen? ==> SlotOf(w, r.uid).Live?)
    requires pc.Open? || pc.Fill? || pc.BuildOpen? || pc.Measure? || pc.Read? || pc.Write? || pc.Close?
    ensures var (w', pc') := if pc.Open? || pc.Fill? then WriteStep(w, r, pc) else BuildStep(w, r, pc);
            if r.outputOpens && pc.BuildOpen? then Find(w'.files, r.uid) == Some([])
            else Find(w'.files, r.uid) == Find(w.files, r.uid) && !Writing(r, pc')
  {
    hide Released, WriteAt;
    BlockNameInjective(r.uid, r.idx, 0);
  }

  lemma ShutMove(h: Digest, cap: map<Uid, nat>, c: Config, m: Move, u: Uid)
    requires Separated(cap) && AllWithin(cap, c) && u in cap && Shut(c, u) && Enabled(c, m) && Capped(cap, m)
    ensures var e := Apply(h, c, m);
            && AllWithin(cap, e)
            && if Truncates(c, m, u) then Find(e.w.files, u) == Some([])
               else Shut(e, u) && Find(e.w.files, u) == Find(c.w.files, u)
  {
    hide Step, SameView, Separated;
    var e := Apply(h, c, m);
    if m.Start? {
      assert forall i | i in e.tasks && i != m.id :: i in c.tasks && e.tasks[i] == c.tasks[i];
      forall i | i in e.tasks && InFlight(e, i) ensures i == m.id || InFlight(c, i) {
      }
    } else {
      AdvanceWithin(h, cap, c, m.id);
      if c.tasks[m.id].r.uid == u {
        ShutStep(h, c, u, m.id);
      } else {
        ViewFile(u, cap[u], e.w, c.w);
      }
    }
  }

  /** A finished file that nobody has open stays as it is in every state of a run exactly when no task of its uid
      opens it, however the tasks of the run overlap. */
  lemma {:induction false} FileStaysIff(h: Digest, cap: map<Uid, nat>, c: Config, ms: seq<Move>, u: Uid, f: Bytes)
    requires Separated(cap) && AllWithin(cap, c) && u in cap && Shut(c, u) && Allowed(h, cap, c, ms)
    requires Find(c.w.files, u) == Some(f) && f != []
    ensures AlwaysExact(h, cap, c, ms, u, f) <==> Truncators(h, cap, c, ms, u) == {}
    decreases |ms|
  {
    hide AllWithin, Shut, Apply, Truncates, Separated, Enabled, Capped;
    if ms != [] {
      ShutMove(h, cap, c, ms[0], u);
      if Truncates(c, ms[0], u) {
        assert ms[0].id in Truncators(h, cap, c, ms, u);
      } else {
        FileStaysIff(h, cap, Apply(h, c, ms[0]), ms[1..], u, f);
      }
    }
  }

  /** The finished file is a completed upload of u, and the latest one if its outputs opened. */
  ghost predicate GoodFile(h: Digest, c: Config, u: Uid) {
    var a := PostAll(h, true, Served(c, u));
    && a.rounds != []
    && (u in c.w.files ==> exists vs | vs in a.rounds :: c.w.files[u] == Concat(vs))
    && ((forall k | 0 <= k < |Served(c, u)| :: Served(c, u)[k].outputOpens) ==>
          u in c.w.files && c.w.files[u] == Concat(a.rounds[|a.rounds| - 1]))
  }

  /** What the account holds as its output is a completed round, and the latest one if all its outputs opened. */
  lemma {:induction false} OutputIsARound(h: Digest, rs: seq<Request>)
    ensures var a := PostAll(h, true, rs);
            && (a.output.Some? ==> a.output.value in a.rounds)
            && ((forall k | 0 <= k < |rs| :: rs[k].outputOpens) && a.rounds != [] ==>
                  a.output == Some(a.rounds[|a.rounds| - 1]))
  {
    if rs != [] {
      OutputIsARound(h, rs[..|rs| - 1]);
    }
  }

  lemma FileIsGood(h: Digest, c: Config, u: Uid)
    requires FileOf(PostAll(h, true, Served(c, u)), u, c.w) && u in c.w.calls && c.w.listening
    ensures GoodFile(h, c, u)
  {
    hide PostAll, Served, Concat;
    OutputIsARound(h, Served(c, u));
  }

  /** Uploads of each uid one after the other: a file announced by a callback is a completed upload whenever no task
      has it open, and stays what it is through a continuation exactly when no task of the uid opens it. */
  lemma AnnouncedStaysIff(h: Digest, cap: map<Uid, nat>, w0: World, ms: seq<Move>, c: Config, more: seq<Move>, u: Uid)
    requires Separated(cap) && w0 == Empty(true) && u in cap
    requires Allowed(h, cap, Initial(w0), ms) && Serialised(h, cap, Initial(w0), ms)
    requires c == After(h, cap, Initial(w0), ms) && Shut(c, u) && u in c.w.calls
    requires u in c.w.files && c.w.files[u] != [] && Allowed(h, cap, c, more)
    ensures GoodFile(h, c, u)
    ensures AlwaysExact(h, cap, c, more, u, c.w.files[u]) <==> Truncators(h, cap, c, more, u) == {}
  {
    hide GoodFile, FileOf, PostAll, Served, Separated, Allowed, Serialised, After, Reduces, AllWithin;
    OutputBetweenOpens(h, cap, w0, ms, u);
    InitialReduces(h, cap, w0);
    RunReduces(h, cap, w0, Initial(w0), ms);
    ReducesCapped(h, cap, w0, c);
    ReducesListens(h, cap, w0, c);
    FileIsGood(h, c, u);
    FileStaysIff(h, cap, c, more, u, c.w.files[u]);
  }

  lemma ReducesListens(h: Digest, cap: map<Uid, nat>, w0: World, c: Config)
    requires Reduces(h, cap, w0, c)
    ensures c.w.listening == w0.listening && Untouched(cap, w0, c.w)
  {
  }
}
