/** Uploads and conversions together: the callback of a completed upload enqueues its file. */
module Pipeline {
  import opened Decimal
  import opened Names
  import opened Storage
  import opened Tasks
  import opened Views
  import opened Interleaving
  import opened Sessions
  import opened Outputs
  import opened UploadRequests
  import Q = ConvertQueue
  import ConvertConfig

  const BUILD_DIR: string := "/home/rayes/parts"
  const WORK_DIR: string := "/home/rayes/streams"

  /** What the callback of a finished upload enqueues. */
  function JobOf(u: Uid): Q.Job {
    Q.Job(BUILD_DIR, u)
  }

  datatype System = System(c: Config, q: Q.Queue)

  datatype SystemMove = Upload(m: Interleaving.Move) | Convert(qm: Q.Move)

  predicate CallsBack(c: Config, m: Interleaving.Move) {
    m.Advance? && InFlight(c, m.id) && c.tasks[m.id].pc.Callback? && c.w.listening
  }

  /** The producer of a job is the task that makes the callback. That it has not called before is no
      restriction: see `GuardHolds`. */
  predicate SystemEnabled(s: System, sm: SystemMove) {
    match sm
    case Upload(m) => Enabled(s.c, m) && (CallsBack(s.c, m) ==> m.id !in s.q.producers)
    case Convert(qm) => Q.Enabled(s.q, qm) && !qm.Call?
  }

  function SystemApply(h: Digest, s: System, sm: SystemMove): System
    requires SystemEnabled(s, sm)
  {
    match sm
    case Upload(m) =>
      System(Apply(h, s.c, m),
             if CallsBack(s.c, m) then Q.Apply(s.q, Q.Call(m.id, JobOf(s.c.tasks[m.id].r.uid))) else s.q)
    case Convert(qm) => System(s.c, Q.Apply(s.q, qm))
  }

  predicate SystemAllowed(h: Digest, cap: map<Uid, nat>, s: System, sms: seq<SystemMove>)
    decreases |sms|
  {
    sms == [] || (SystemEnabled(s, sms[0]) && (sms[0].Upload? ==> Capped(cap, sms[0].m))
                  && SystemAllowed(h, cap, SystemApply(h, s, sms[0]), sms[1..]))
  }

  function SystemAfter(h: Digest, cap: map<Uid, nat>, s: System, sms: seq<SystemMove>): System
    requires SystemAllowed(h, cap, s, sms)
    decreases |sms|
  {
    if sms == [] then s else SystemAfter(h, cap, SystemApply(h, s, sms[0]), sms[1..])
  }

  function UploadMoves(sms: seq<SystemMove>): seq<Interleaving.Move> {
    if sms == [] then [] else (if sms[0].Upload? then [sms[0].m] else []) + UploadMoves(sms[1..])
  }

  /** Every job in the system was announced by a callback. */
  ghost predicate JobsFromCalls(s: System) {
    && Q.Invariant(s.q)
    && (forall k | 0 <= k < |s.q.enqueued| :: Announced(s.c.w.calls, s.q.enqueued[k]))
    && (forall p | p in s.q.producers && s.q.producers[p].Wanting? :: Announced(s.c.w.calls, s.q.producers[p].job))
  }

  ghost predicate Announced(calls: seq<Uid>, job: Q.Job) {
    exists u | u in calls :: job == JobOf(u)
  }

  lemma StepAnnounces(h: Digest, c: Config, m: Interleaving.Move)
    requires Enabled(c, m)
    ensures c.w.calls <= Apply(h, c, m).w.calls
    ensures CallsBack(c, m) ==> c.tasks[m.id].r.uid in Apply(h, c, m).w.calls
  {
    hide Step;
    if m.Advance? {
      StepCalls(h, c.w, c.tasks[m.id].r, c.tasks[m.id].pc);
    }
  }

  lemma AnnouncedGrows(calls: seq<Uid>, more: seq<Uid>, job: Q.Job)
    requires Announced(calls, job) && calls <= more
    ensures Announced(more, job)
  {
    var u :| u in calls && job == JobOf(u);
    assert u in more;
  }

  lemma UploadKeepsJobs(h: Digest, s: System, sm: SystemMove)
    requires JobsFromCalls(s) && SystemEnabled(s, sm) && sm.Upload?
    ensures JobsFromCalls(SystemApply(h, s, sm))
  {
    hide Apply, Q.Invariant;
    var s' := SystemApply(h, s, sm);
    StepAnnounces(h, s.c, sm.m);
    forall job | Announced(s.c.w.calls, job) ensures Announced(s'.c.w.calls, job) {
      AnnouncedGrows(s.c.w.calls, s'.c.w.calls, job);
    }
    if CallsBack(s.c, sm.m) {
      var qm := Q.Call(sm.m.id, JobOf(s.c.tasks[sm.m.id].r.uid));
      assert s'.q == Q.Apply(s.q, qm);
      Q.StepKeepsInvariant(s.q, qm);
      assert Announced(s'.c.w.calls, qm.job);
    }
  }

  lemma ConvertKeepsJobs(h: Digest, s: System, sm: SystemMove)
    requires JobsFromCalls(s) && SystemEnabled(s, sm) && sm.Convert?
    ensures JobsFromCalls(SystemApply(h, s, sm))
  {
    hide Q.Invariant;
    Q.StepKeepsInvariant(s.q, sm.qm);
  }

  /** A task that has called the queue has ended. */
  ghost predicate CallersEnded(s: System) {
    forall p | p in s.q.producers :: p in s.c.tasks && s.c.tasks[p].pc.End?
  }

  lemma StepCallersEnded(h: Digest, s: System, sm: SystemMove)
    requires CallersEnded(s) && SystemEnabled(s, sm)
    ensures CallersEnded(SystemApply(h, s, sm))
  {
    hide GetStep, BuilderStep, WriteStep, BuildStep;
  }

  lemma {:induction false} RunCallersEnded(h: Digest, cap: map<Uid, nat>, s: System, sms: seq<SystemMove>)
    requires CallersEnded(s) && SystemAllowed(h, cap, s, sms)
    ensures CallersEnded(SystemAfter(h, cap, s, sms))
    decreases |sms|
  {
    hide SystemApply, CallersEnded;
    if sms != [] {
      StepCallersEnded(h, s, sms[0]);
      RunCallersEnded(h, cap, SystemApply(h, s, sms[0]), sms[1..]);
    }
  }

  /** In every reachable state the system allows every move of the uploads: a callback finds its task new to the
      queue. */
  lemma GuardHolds(h: Digest, cap: map<Uid, nat>, w0: World, sms: seq<SystemMove>, m: Interleaving.Move)
    requires SystemAllowed(h, cap, System(Initial(w0), Q.INITIAL), sms)
    ensures var s := SystemAfter(h, cap, System(Initial(w0), Q.INITIAL), sms);
            SystemEnabled(s, Upload(m)) <==> Enabled(s.c, m)
  {
    RunCallersEnded(h, cap, System(Initial(w0), Q.INITIAL), sms);
  }

  /** The uploads of a system run are a run of their own. */
  lemma {:induction false} Projects(h: Digest, cap: map<Uid, nat>, s: System, sms: seq<SystemMove>)
    requires SystemAllowed(h, cap, s, sms) && JobsFromCalls(s)
    ensures Allowed(h, cap, s.c, UploadMoves(sms))
    ensures SystemAfter(h, cap, s, sms).c == After(h, cap, s.c, UploadMoves(sms))
    ensures JobsFromCalls(SystemAfter(h, cap, s, sms))
    decreases |sms|
  {
    hide JobsFromCalls, Apply;
    if sms != [] {
      var s' := SystemApply(h, s, sms[0]);
      match sms[0] {
        case Upload(m) =>
          UploadKeepsJobs(h, s, sms[0]);
          Projects(h, cap, s', sms[1..]);
          assert UploadMoves(sms)[1..] == UploadMoves(sms[1..]);
        case Convert(_) =>
          ConvertKeepsJobs(h, s, sms[0]);
          Projects(h, cap, s', sms[1..]);
          assert UploadMoves(sms) == UploadMoves(sms[1..]);
      }
    }
  }

  /** The process started for the job reads the finished file of u, and writes its manifest into the directory of u. */
  predicate GoodArguments(template: seq<string>, job: Q.Job, u: Uid)
    requires |template| > 4
  {
    var args := ConvertConfig.ArgumentsOf(template, WORK_DIR, job);
    && args[3] == "/home/rayes/parts/" + u
    && args[|args| - 1] == "/home/rayes/streams/" + ConvertConfig.Stem(u) + "/manifest.mpd"
  }

  lemma JobArguments(template: seq<string>, u: Uid)
    requires |template| > 4
    ensures GoodArguments(template, JobOf(u), u)
  {
    var stem := ConvertConfig.Stem(u);
    assert BUILD_DIR + "/" + u == (BUILD_DIR + "/") + u && BUILD_DIR + "/" == "/home/rayes/parts/";
    assert WORK_DIR + "/" + stem == (WORK_DIR + "/") + stem && WORK_DIR + "/" == "/home/rayes/streams/";
  }

  /** A job that reached conversion names the path the build of its uid wrote. While no task of that uid has the
      finished file open, the file is a completed upload, and it is there, from the latest upload, whenever the
      outputs of the uid opened. */
  ghost predicate GoodJob(h: Digest, cap: map<Uid, nat>, c: Config, job: Q.Job, u: Uid) {
    && u in cap && job == JobOf(u)
    && (forall template: seq<string> | |template| > 4 :: GoodArguments(template, job, u))
    && (Shut(c, u) ==> GoodFile(h, c, u))
  }

  /** The finished files that nobody has open are what their accounts say. */
  ghost predicate FilesSettled(h: Digest, cap: map<Uid, nat>, c: Config) {
    forall u | u in cap && Shut(c, u) :: FileOf(PostAll(h, true, Served(c, u)), u, c.w)
  }

  lemma CallerIsGood(h: Digest, cap: map<Uid, nat>, c: Config, u: Uid)
    requires u in cap && u in c.w.calls && c.w.listening && FilesSettled(h, cap, c)
    ensures GoodJob(h, cap, c, JobOf(u), u)
  {
    hide FileOf, GoodFile, Shut, Served;
    if Shut(c, u) {
      FileIsGood(h, c, u);
    }
    forall template: seq<string> | |template| > 4 ensures GoodArguments(template, JobOf(u), u) {
      JobArguments(template, u);
    }
  }

  lemma HandedIsGood(h: Digest, cap: map<Uid, nat>, w0: World, s: System, k: nat)
    requires w0 == Empty(true) && JobsFromCalls(s) && Untouched(cap, w0, s.c.w) && k < |s.q.handed|
    requires FilesSettled(h, cap, s.c)
    ensures IsGood(h, cap, s.c, s.q.handed[k])
  {
    hide FilesSettled, GoodJob;
    assert s.q.enqueued[k] == s.q.handed[k];
    var u :| u in s.c.w.calls && s.q.handed[k] == JobOf(u);
    CallsOfMember(u, s.c.w.calls);
    assert u in cap by {
      assert CallsOf(u, w0.calls) == [];
    }
    CallerIsGood(h, cap, s.c, u);
  }

  ghost predicate AllGood(h: Digest, cap: map<Uid, nat>, s: System) {
    forall k | 0 <= k < |s.q.handed| :: IsGood(h, cap, s.c, s.q.handed[k])
  }

  ghost predicate IsGood(h: Digest, cap: map<Uid, nat>, c: Config, job: Q.Job) {
    exists u :: GoodJob(h, cap, c, job, u)
  }

  lemma AllHandedGood(h: Digest, cap: map<Uid, nat>, w0: World, s: System)
    requires w0 == Empty(true) && JobsFromCalls(s) && Untouched(cap, w0, s.c.w)
    requires FilesSettled(h, cap, s.c)
    ensures AllGood(h, cap, s)
  {
    hide JobsFromCalls, FilesSettled, Untouched;
    forall k | 0 <= k < |s.q.handed| ensures IsGood(h, cap, s.c, s.q.handed[k]) {
      HandedIsGood(h, cap, w0, s, k);
    }
  }

  /** Uploads interleaved with each other, at most one task of a uid at a time, and with the consumer: in every
      state, every conversion made so far is of a good job. */
  lemma SystemPipeline(h: Digest, cap: map<Uid, nat>, w0: World, sms: seq<SystemMove>)
    requires Separated(cap) && w0 == Empty(true)
    requires SystemAllowed(h, cap, System(Initial(w0), Q.INITIAL), sms)
    requires var ms := UploadMoves(sms);
             Allowed(h, cap, Initial(w0), ms) && Serialised(h, cap, Initial(w0), ms)
    ensures var s := SystemAfter(h, cap, System(Initial(w0), Q.INITIAL), sms);
            AllGood(h, cap, s)
  {
    hide JobsFromCalls, FilesSettled, AllGood, Untouched, Serialised, Separated, Reduces;
    var s0 := System(Initial(w0), Q.INITIAL);
    InitialJobs(w0);
    Projects(h, cap, s0, sms);
    InitialReduces(h, cap, w0);
    RunReduces(h, cap, w0, Initial(w0), UploadMoves(sms));
    ReducesListens(h, cap, w0, After(h, cap, Initial(w0), UploadMoves(sms)));
    AllSettled(h, cap, w0, UploadMoves(sms));
    AllHandedGood(h, cap, w0, SystemAfter(h, cap, s0, sms));
  }

  lemma AllSettled(h: Digest, cap: map<Uid, nat>, w0: World, ms: seq<Interleaving.Move>)
    requires Separated(cap) && w0 == Empty(w0.listening)
    requires Allowed(h, cap, Initial(w0), ms) && Serialised(h, cap, Initial(w0), ms)
    ensures FilesSettled(h, cap, After(h, cap, Initial(w0), ms))
  {
    hide Separated, Allowed, Serialised, After, FileOf, Shut, Served, PostAll;
    var c := After(h, cap, Initial(w0), ms);
    forall u | u in cap && Shut(c, u) ensures FileOf(PostAll(h, true, Served(c, u)), u, c.w) {
      OutputBetweenOpens(h, cap, w0, ms, u);
    }
  }

  lemma InitialJobs(w0: World)
    ensures JobsFromCalls(System(Initial(w0), Q.INITIAL))
  {
  }

  lemma PrefixCancels(p: string, s: string, t: string)
    requires p + s == p + t
    ensures s == t
  {
    assert (p + s)[|p|..] == s && (p + t)[|p|..] == t;
  }

  lemma IdHasNoDot(x: int)
    ensures ConvertConfig.Stem(SignedDec(x)) == SignedDec(x)
  {
    SignedDecParts(x);
    DecReadsBack(Abs(x));
    forall k | 0 <= k < |SignedDec(x)| ensures SignedDec(x)[k] != '.' {
      assert SignedDec(x)[k] == '-' || IsDigit(SignedDec(x)[k]);
    }
  }

  /** Different videos are converted into different directories. */
  lemma DirectoriesDistinct(workDir: string, a: int, b: int)
    requires ConvertConfig.OutputDirectory(workDir, JobOf(SignedDec(a))) ==
             ConvertConfig.OutputDirectory(workDir, JobOf(SignedDec(b)))
    ensures a == b
  {
    IdHasNoDot(a);
    IdHasNoDot(b);
    PrefixCancels(workDir + "/", SignedDec(a), SignedDec(b));
    SignedDecInjective(a, b);
  }

  /** The manifest of video a lies in the directory named by its id, and different videos have different manifests. */
  lemma ManifestsDistinct(template: seq<string>, workDir: string, a: int, b: int)
    requires |template| > 4
    ensures var last := |template| - 1;
            var forA := ConvertConfig.ArgumentsOf(template, workDir, JobOf(SignedDec(a)));
            var forB := ConvertConfig.ArgumentsOf(template, workDir, JobOf(SignedDec(b)));
            && forA[last] == workDir + "/" + SignedDec(a) + "/manifest.mpd"
            && (forA[last] == forB[last] ==> a == b)
  {
    IdHasNoDot(a);
    IdHasNoDot(b);
    var dirA, dirB := workDir + "/" + SignedDec(a), workDir + "/" + SignedDec(b);
    if dirA + "/manifest.mpd" == dirB + "/manifest.mpd" {
      SuffixCancels(dirA, dirB, "/manifest.mpd");
      DirectoriesDistinct(workDir, a, b);
    }
  }

  lemma SuffixCancels(s: string, t: string, e: string)
    requires s + e == t + e
    ensures s == t
  {
    assert |s + e| == |t + e|;
    assert (s + e)[..|s|] == s && (t + e)[..|t|] == t;
  }
}
