/** A conversion overtaken by the next upload of its video: a run of the whole system. */
module Overtaken {
  import opened Names
  import opened Storage
  import opened BlockStore
  import opened Tasks
  import opened Views
  import opened Interleaving
  import opened Sessions
  import opened Runs
  import opened Pipeline

  const CAP: map<Uid, nat> := map["7" := 1]

  function Idling(): System {
    System(Initial(Empty(true)), Q.INITIAL)
  }

  /** The moves lead from the idle system to s, the uploads of a uid one after the other. */
  ghost predicate LeadTo(h: Digest, sms: seq<SystemMove>, s: System) {
    && SystemAllowed(h, CAP, Idling(), sms) && SystemAfter(h, CAP, Idling(), sms) == s
    && Allowed(h, CAP, Idling().c, UploadMoves(sms)) && After(h, CAP, Idling().c, UploadMoves(sms)) == s.c
    && Serialised(h, CAP, Idling().c, UploadMoves(sms))
  }

  lemma {:induction false} SystemAppend(h: Digest, s: System, sms: seq<SystemMove>, sm: SystemMove)
    requires SystemAllowed(h, CAP, s, sms) && SystemEnabled(SystemAfter(h, CAP, s, sms), sm)
    requires sm.Upload? ==> Capped(CAP, sm.m)
    ensures SystemAllowed(h, CAP, s, sms + [sm])
    ensures SystemAfter(h, CAP, s, sms + [sm]) == SystemApply(h, SystemAfter(h, CAP, s, sms), sm)
    ensures UploadMoves(sms + [sm]) == UploadMoves(sms) + if sm.Upload? then [sm.m] else []
    decreases |sms|
  {
    hide SystemApply, SystemEnabled;
    if sms == [] {
      assert (sms + [sm])[1..] == [];
    } else {
      SystemAppend(h, SystemApply(h, s, sms[0]), sms[1..], sm);
      assert (sms + [sm])[1..] == sms[1..] + [sm];
    }
  }

  lemma {:induction false} SerialAppend(h: Digest, c: Config, ms: seq<Interleaving.Move>, m: Interleaving.Move)
    requires Allowed(h, CAP, c, ms) && Serialised(h, CAP, c, ms)
    requires Enabled(After(h, CAP, c, ms), m) && Capped(CAP, m) && Exclusive(After(h, CAP, c, ms), m)
    ensures Allowed(h, CAP, c, ms + [m]) && Serialised(h, CAP, c, ms + [m])
    ensures After(h, CAP, c, ms + [m]) == Apply(h, After(h, CAP, c, ms), m)
    decreases |ms|
  {
    hide Apply, Exclusive, Enabled, Capped;
    if ms == [] {
      assert (ms + [m])[1..] == [];
    } else {
      SerialAppend(h, Apply(h, c, ms[0]), ms[1..], m);
      assert (ms + [m])[1..] == ms[1..] + [m];
    }
  }

  /** One more move. */
  lemma Onward(h: Digest, sms: seq<SystemMove>, s: System, sm: SystemMove) returns (sms': seq<SystemMove>)
    requires LeadTo(h, sms, s) && SystemEnabled(s, sm)
    requires sm.Upload? ==> Capped(CAP, sm.m) && Exclusive(s.c, sm.m)
    ensures LeadTo(h, sms', SystemApply(h, s, sm))
  {
    hide SystemAllowed, SystemAfter, Allowed, After, Serialised, Step;
    sms' := sms + [sm];
    SystemAppend(h, Idling(), sms, sm);
    if sm.Upload? {
      SerialAppend(h, Idling().c, UploadMoves(sms), sm.m);
    } else {
      assert UploadMoves(sms) + [] == UploadMoves(sms);
    }
  }

  /** One step of task id, on the system. */
  lemma StepOnward(h: Digest, sms: seq<SystemMove>, s: System, id: nat) returns (sms': seq<SystemMove>, s': System)
    requires LeadTo(h, sms, s) && InFlight(s.c, id) && id !in s.q.producers
    ensures LeadTo(h, sms', s')
    ensures var t := s.c.tasks[id];
            var (w1, pc1) := Step(h, s.c.w, t.r, t.pc);
            && s'.c.w == w1 && s'.c.tasks == s.c.tasks[id := Task(t.r, pc1)]
            && s'.q == (if t.pc.Callback? && s.c.w.listening
                        then Q.Apply(s.q, Q.Call(id, JobOf(t.r.uid))) else s.q)
  {
    hide Step, LeadTo;
    s' := SystemApply(h, s, Upload(Advance(id)));
    sms' := Onward(h, sms, s, Upload(Advance(id)));
  }

  /** The result of the step, for a task run to its end. */
  lemma FinishStep(h: Digest, w: World, r: Request, pc: FitPc)
    requires !pc.End?
    ensures var (w1, pc1) := Step(h, w, r, pc);
            && Finish(h, w, r, pc) == Finish(h, w1, r, pc1) && Closer(pc1, pc)
            && (pc.Callback? ==> pc1.End?) && (pc1.End? ==> Finish(h, w1, r, pc1) == (w1, pc1.outcome))
            && w1.calls == if pc.Callback? && w.listening then w.calls + [r.uid] else w.calls
  {
    StepCalls(h, w, r, pc);
  }

  /** A task goes on to its end, undisturbed, and hands its file to the queue if it calls back. */
  lemma {:induction false} FinishOnward(h: Digest, sms: seq<SystemMove>, s: System, id: nat)
      returns (sms': seq<SystemMove>, s': System)
    requires LeadTo(h, sms, s) && InFlight(s.c, id) && id !in s.q.producers
    ensures LeadTo(h, sms', s')
    ensures var t := s.c.tasks[id];
            var (w', outcome) := Finish(h, s.c.w, t.r, t.pc);
            && s'.c.w == w' && s'.c.tasks == s.c.tasks[id := Task(t.r, End(outcome))]
            && s'.q == if |w'.calls| > |s.c.w.calls| then Q.Apply(s.q, Q.Call(id, JobOf(t.r.uid))) else s.q
    decreases Phase(s.c.tasks[id].pc), Left(s.c.tasks[id].pc), Place(s.c.tasks[id].pc)
  {
    hide Step, Finish, LeadTo, Phase, Left, Place, Q.Apply, SystemApply, Apply;
    var t := s.c.tasks[id];
    FinishStep(h, s.c.w, t.r, t.pc);
    var next: System;
    sms', next := StepOnward(h, sms, s, id);
    s' := next;
    if !next.c.tasks[id].pc.End? {
      sms', s' := FinishOnward(h, sms', next, id);
      assert s.c.tasks[id := next.c.tasks[id]][id := s'.c.tasks[id]] == s.c.tasks[id := s'.c.tasks[id]];
    }
  }

  /** A video in one chunk. */
  function Video(v: Bytes): Request {
    Request("7", 1, 1, v, true, true, true, [])
  }

  /** Its first upload, from nothing. */
  lemma ServedOnce(h: Digest, v: Bytes)
    ensures Serve(h, Empty(true), Video(v)) == (World(map["7" := v], map[], map["7" := 1], ["7"], true), Returned)
  {
    var r, w := Video(v), Empty(true);
    var w1 := World(map[], map["7" := Live(Blank(1))], map["7" := 1], [], true);
    assert WithBuilder(w, r) == w1;
    assert Serve(h, w, r) == ServeLive(h, w1, r, Blank(1));
    var p := PushBlock(h, Blank(1), map[], "7", 1, v, true);
    BlockNameInjective("7", 1, 1);
    GatherIsConcat(p.files, "7", [v]);
    assert Concat([v]) == v + [] == v;
    assert BlockNames("7", 1) == {BlockName("7", 1)};
    assert p.ok && AllSet(p.hs) && Complete(p.files, "7", 1) && |p.hs| == 1;
    assert Cleared(Built(p.files, "7", 1, true), "7", 1) == map["7" := v];
    assert w1.slots - {"7"} == map[] && w1.calls + ["7"] == ["7"];
  }

  /** The second upload on its way to open the finished file. */
  predicate Approaching(h: Digest, w: World, r: Request, pc: Pc) {
    && r.total == 1 && r.idx == 1 && r.constructs && r.blockOpens && r.outputOpens
    && if pc.Get? then SlotOf(w, r.uid).Null?
       else
         && (Pushing(h, w, r, pc) || ((pc.Ready? || pc.BuildOpen?) && Alive(w, r.uid, pc.own)))
         && |SlotOf(w, r.uid).hashes| == 1
         && (pc.Ready? || pc.BuildOpen? ==> SlotOf(w, r.uid).hashes[0] != "")
  }

  lemma ApproachStep(h: Digest, w: World, r: Request, pc: FitPc)
    requires Approaching(h, w, r, pc)
    ensures var (w1, pc1) := Step(h, w, r, pc);
            && Closer(pc1, pc)
            && if pc.BuildOpen? then pc1.Measure? && Find(w1.files, r.uid) == Some([]) else Approaching(h, w1, r, pc1)
  {
    hide WriteAt;
  }

  lemma {:induction false} OpenOnward(h: Digest, sms: seq<SystemMove>, s: System, id: nat)
      returns (sms': seq<SystemMove>, s': System)
    requires LeadTo(h, sms, s) && InFlight(s.c, id) && id !in s.q.producers
    requires Approaching(h, s.c.w, s.c.tasks[id].r, s.c.tasks[id].pc)
    ensures LeadTo(h, sms', s') && s'.q == s.q
    ensures id in s'.c.tasks && s'.c.tasks[id].r == s.c.tasks[id].r && s'.c.tasks[id].pc.Measure?
    ensures Find(s'.c.w.files, s.c.tasks[id].r.uid) == Some([])
    decreases Phase(s.c.tasks[id].pc), Left(s.c.tasks[id].pc), Place(s.c.tasks[id].pc)
  {
    ApproachStep(h, s.c.w, s.c.tasks[id].r, s.c.tasks[id].pc);
    assert !s.c.tasks[id].pc.Callback?;
    hide Step, LeadTo, Approaching, Phase, Left, Place;
    sms', s' := StepOnward(h, sms, s, id);
    if !s.c.tasks[id].pc.BuildOpen? {
      sms', s' := OpenOnward(h, sms', s', id);
    }
  }

  /** The first upload is complete, and its task is calling the queue. */
  lemma FirstUploaded(h: Digest, v: Bytes) returns (sms: seq<SystemMove>, s: System)
    ensures LeadTo(h, sms, s)
    ensures s.c.w == World(map["7" := v], map[], map["7" := 1], ["7"], true)
    ensures s.c.tasks == map[0 := Task(Video(v), End(Returned))]
    ensures s.q == Q.Apply(Q.INITIAL, Q.Call(0, JobOf("7")))
  {
    var start := Upload(Start(0, Video(v)));
    sms := Onward(h, [], Idling(), start);
    s := SystemApply(h, Idling(), start);
    assert s.c.w == Empty(true) && s.c.tasks == map[0 := Task(Video(v), Get)] && s.q == Q.INITIAL;
    hide LeadTo, Step, Finish, Serve, SystemApply, Apply;
    FinishIsServe(h, Empty(true), Video(v));
    ServedOnce(h, v);
    sms, s := FinishOnward(h, sms, s, 0);
  }

  /** And its job is in the queue. */
  lemma FirstEnqueued(h: Digest, v: Bytes) returns (sms: seq<SystemMove>, s: System)
    ensures LeadTo(h, sms, s)
    ensures s.c.w == World(map["7" := v], map[], map["7" := 1], ["7"], true)
    ensures s.c.tasks == map[0 := Task(Video(v), End(Returned))]
    ensures s.q == Q.Queue([JobOf("7")], false, Q.Locking, map[0 := Q.Finished], Q.NotCalled, [JobOf("7")], [])
  {
    sms, s := FirstUploaded(h, v);
    hide LeadTo;
    sms := Onward(h, sms, s, Convert(Q.Emplace(0)));
    s := SystemApply(h, s, Convert(Q.Emplace(0)));
    sms := Onward(h, sms, s, Convert(Q.Notify(0)));
    s := SystemApply(h, s, Convert(Q.Notify(0)));
    assert s.q.producers == map[0 := Q.Finished];
  }

  /** Then the second upload opens the finished file. */
  lemma SecondOpens(h: Digest, v: Bytes) returns (sms: seq<SystemMove>, s: System)
    ensures LeadTo(h, sms, s)
    ensures 1 in s.c.tasks && s.c.tasks[1].r == Video(v) && s.c.tasks[1].pc.Measure?
    ensures Find(s.c.w.files, "7") == Some([])
    ensures s.q == Q.Queue([JobOf("7")], false, Q.Locking, map[0 := Q.Finished], Q.NotCalled, [JobOf("7")], [])
  {
    sms, s := FirstEnqueued(h, v);
    hide LeadTo;
    var start := Upload(Start(1, Video(v)));
    sms := Onward(h, sms, s, start);
    s := SystemApply(h, s, start);
    sms, s := OpenOnward(h, sms, s, 1);
  }

  lemma ConsumeOnward(h: Digest, sms: seq<SystemMove>, s: System) returns (sms': seq<SystemMove>, s': System)
    requires LeadTo(h, sms, s) && Q.Enabled(s.q, Q.Consume)
    ensures LeadTo(h, sms', s') && s'.c == s.c && s'.q == Q.ConsumerStep(s.q)
  {
    hide LeadTo;
    sms' := Onward(h, sms, s, Convert(Q.Consume));
    s' := SystemApply(h, s, Convert(Q.Consume));
  }

  /** The conversion of the first upload is handed over while the second has emptied the file, although the uploads
      of the video come strictly one after the other. */
  lemma HandedOverEmpty(h: Digest, v: Bytes) returns (sms: seq<SystemMove>)
    ensures SystemAllowed(h, CAP, System(Initial(Empty(true)), Q.INITIAL), sms)
    ensures var ms := UploadMoves(sms);
            Allowed(h, CAP, Initial(Empty(true)), ms) && Serialised(h, CAP, Initial(Empty(true)), ms)
    ensures var s := SystemAfter(h, CAP, System(Initial(Empty(true)), Q.INITIAL), sms);
            s.q.handed == [JobOf("7")] && Find(s.c.w.files, "7") == Some([])
  {
    var s: System;
    sms, s := SecondOpens(h, v);
    hide SystemAllowed, SystemAfter, Allowed, After, Serialised;
    sms, s := ConsumeOnward(h, sms, s);
    sms, s := ConsumeOnward(h, sms, s);
    sms, s := ConsumeOnward(h, sms, s);
    sms, s := ConsumeOnward(h, sms, s);
  }
}
