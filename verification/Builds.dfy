/** Builds of the same file by several tasks at once: when is the finished file right? */
module Builds {
  import opened Names
  import opened Storage
  import opened Tasks
  import opened Views
  import opened Interleaving
  import opened SharedUid

  /** The move opens the finished file of u for a build, which empties it. */
  predicate Truncates(c: Config, m: Move, u: Uid) {
    && m.Advance? && InFlight(c, m.id) && c.tasks[m.id].r.uid == u && c.tasks[m.id].r.outputOpens
    && c.tasks[m.id].pc.BuildOpen? && !Dangling(c.w, u, c.tasks[m.id].pc)
  }

  /** The tasks of u that empty the finished file during the run. */
  function Truncators(h: Digest, cap: map<Uid, nat>, c: Config, ms: seq<Move>, u: Uid): set<nat>
    requires Allowed(h, cap, c, ms)
    decreases |ms|
  {
    if ms == [] then {}
    else (if Truncates(c, ms[0], u) then {ms[0].id} else {}) + Truncators(h, cap, Apply(h, c, ms[0]), ms[1..], u)
  }

  /** The task has the finished file of u open for writing. */
  ghost predicate Streaming(c: Config, u: Uid, id: nat) {
    && id in c.tasks && c.tasks[id].r.uid == u && c.tasks[id].r.outputOpens
    && (c.tasks[id].pc.Measure? || c.tasks[id].pc.Read? || c.tasks[id].pc.Write? || c.tasks[id].pc.Close?)
  }

  /** The task has closed the finished file of u and is about to delete the builder. */
  ghost predicate BuildDone(c: Config, u: Uid, id: nat) {
    id in c.tasks && c.tasks[id].r.uid == u && c.tasks[id].r.outputOpens && c.tasks[id].pc.Erase?
  }

  /** Byte j of the finished file is still to come from one of the tasks in ts. */
  ghost predicate Pending(c: Config, u: Uid, ts: set<nat>, j: nat) {
    exists id :: id in ts && Streaming(c, u, id) && c.tasks[id].pc.out.pos <= j
  }

  ghost predicate ByteRight(u: Uid, whole: Bytes, c: Config, ts: set<nat>, j: nat)
    requires j < |whole| && u in c.w.files
  {
    Pending(c, u, ts, j) || (j < |c.w.files[u]| && c.w.files[u][j] == whole[j])
  }

  /** ts are the tasks that emptied the file. Builds may overlap, each writing from the start, at its own pace.
      Every byte is right already unless a task in ts is still to come to it; a build that opened the file
      before only writes bytes that are right. */
  ghost predicate OutputRight(u: Uid, whole: Bytes, c: Config, ts: set<nat>) {
    ts != {} ==>
      && u in c.w.files && |c.w.files[u]| <= |whole|
      && forall j | 0 <= j < |whole| :: ByteRight(u, whole, c, ts, j)
  }

  /** Writing part of `whole` at its place keeps a file inside `whole` and right where it was right. */
  lemma WritePart(f: Bytes, whole: Bytes, pos: nat, part: Bytes)
    requires |f| <= |whole| && pos + |part| <= |whole| && whole[pos..pos + |part|] == part
    ensures var g := WriteAt(f, pos, part);
            && |g| <= |whole|
            && (forall j | pos <= j < pos + |part| :: j < |g| && g[j] == whole[j])
            && (forall j | 0 <= j < |f| && f[j] == whole[j] :: j < |g| && g[j] == whole[j])
            && (f == whole ==> g == whole)
  {
    var g := WriteAt(f, pos, part);
    forall j | pos <= j < pos + |part| ensures j < |g| && g[j] == whole[j] {
      assert g[pos + (j - pos)] == part[j - pos] == whole[pos..pos + |part|][j - pos];
    }
  }

  /** The bytes that the step puts into the finished file. */
  function Part(r: Request, pc: Pc): Bytes
    requires (pc.Write? || pc.Close?) && Fits(pc)
  {
    if pc.Close? then pc.out.held
    else
      var all := pc.out.held + pc.buf[..pc.size];
      all[..Released(r, pc.i, all)]
  }

  /** They are the bytes of the uploaded file that belong there, and closing puts the last of them. */
  lemma PartRight(h: Digest, u: Uid, bs: seq<Bytes>, w: World, r: Request, pc: Pc)
    requires (pc.Write? || pc.Close?) && Fits(pc) && r.uid == u && Knows(h, u, bs, w, r, pc)
    ensures var pos, part, whole := pc.out.pos, Part(r, pc), Concat(bs);
            && pos + |part| <= |whole| && whole[pos..pos + |part|] == part
            && (pc.Close? ==> pos + |part| == |whole|)
    ensures var (w', pc') := Step(h, w, r, pc);
            && w' == Put(w, r, pc.out.pos, Part(r, pc))
            && if pc.Write? then pc'.Measure? && pc'.out.pos == pc.out.pos + |Part(r, pc)| else pc' == Erase(pc.own)
  {
    hide Put, Trustworthy;
    if pc.Write? {
      TakenNext(bs, pc.i, pc.out, Released(r, pc.i, pc.out.held + bs[pc.i]));
    } else {
      assert bs[..|bs|] == bs;
    }
  }

  /** A task writes or closes its stream. */
  lemma WriteRight(h: Digest, u: Uid, bs: seq<Bytes>, c: Config, id: nat, ts: set<nat>)
    requires InFlight(c, id) && Streaming(c, u, id) && (c.tasks[id].pc.Write? || c.tasks[id].pc.Close?)
    requires OutputRight(u, Concat(bs), c, ts) && Knows(h, u, bs, c.w, c.tasks[id].r, c.tasks[id].pc)
    ensures OutputRight(u, Concat(bs), Apply(h, c, Advance(id)), ts)
  {
    hide Knows, WriteAt, Step;
    var c', r, pc := Apply(h, c, Advance(id)), c.tasks[id].r, c.tasks[id].pc;
    var whole, pos, part := Concat(bs), pc.out.pos, Part(r, pc);
    PartRight(h, u, bs, c.w, r, pc);
    if ts != {} {
      WritePart(c.w.files[u], whole, pos, part);
      assert c'.w.files == c.w.files[u := WriteAt(c.w.files[u], pos, part)];
      forall j | 0 <= j < |whole| ensures ByteRight(u, whole, c', ts, j) {
        assert ByteRight(u, whole, c, ts, j);
        if !(pos <= j < pos + |part|) && Pending(c, u, ts, j) {
          var k :| k in ts && Streaming(c, u, k) && c.tasks[k].pc.out.pos <= j;
          assert Streaming(c', u, k);
        }
      }
    }
  }

  /** Tasks of other uids, new tasks, and steps of u's tasks that write nothing. */
  lemma OutputUntouched(u: Uid, whole: Bytes, c: Config, c': Config, ts: set<nat>)
    requires OutputRight(u, whole, c, ts) && Find(c'.w.files, u) == Find(c.w.files, u)
    requires forall k | Streaming(c, u, k) :: Streaming(c', u, k) && c'.tasks[k].pc.out.pos == c.tasks[k].pc.out.pos
    ensures OutputRight(u, whole, c', ts)
  {
    if ts != {} {
      forall j | 0 <= j < |whole| ensures ByteRight(u, whole, c', ts, j) {
        assert ByteRight(u, whole, c, ts, j);
        if Pending(c, u, ts, j) {
          var k :| k in ts && Streaming(c, u, k) && c.tasks[k].pc.out.pos <= j;
          assert Streaming(c', u, k);
        }
      }
    }
  }

  /** The file is empty, and all of it is to come from the task that emptied it. */
  lemma TruncateRight(h: Digest, u: Uid, bs: seq<Bytes>, c: Config, id: nat, ts: set<nat>)
    requires Truncates(c, Advance(id), u)
    ensures OutputRight(u, Concat(bs), Apply(h, c, Advance(id)), ts + {id})
    ensures Find(Apply(h, c, Advance(id)).w.files, u) == Some([])
  {
    var c' := Apply(h, c, Advance(id));
    assert Streaming(c', u, id) && c'.tasks[id].pc.out.pos == 0;
    forall j | 0 <= j < |Concat(bs)| ensures ByteRight(u, Concat(bs), c', ts + {id}, j) {
      assert Pending(c', u, ts + {id}, j);
    }
  }

  /** The step does not write to the finished file of its uid. */
  predicate Harmless(c: Config, id: nat)
    requires InFlight(c, id)
  {
    var t := c.tasks[id];
    !Truncates(c, Advance(id), t.r.uid) && (t.r.outputOpens ==> !t.pc.Write? && !t.pc.Close?)
  }

  lemma HarmlessStep(h: Digest, u: Uid, bs: seq<Bytes>, c: Config, id: nat)
    requires InFlight(c, id) && c.tasks[id].r.uid == u && Harmless(c, id) && !c.tasks[id].pc.Erase?
    requires Trustworthy(h, u, bs, c.w) && Knows(h, u, bs, c.w, c.tasks[id].r, c.tasks[id].pc)
    ensures Find(Apply(h, c, Advance(id)).w.files, u) == Find(c.w.files, u)
    ensures Streaming(c, u, id) ==>
              Streaming(Apply(h, c, Advance(id)), u, id)
              && Apply(h, c, Advance(id)).tasks[id].pc.out.pos == c.tasks[id].pc.out.pos
  {
    hide WriteAt, Released;
    BlockNameInjective(u, c.tasks[id].r.idx, 0);
    if c.tasks[id].pc.Measure? || c.tasks[id].pc.Read? {
      ReadKnows(h, u, bs, c.w, c.tasks[id].r, c.tasks[id].pc);
    }
  }

  lemma AdvanceOutput(h: Digest, cap: map<Uid, nat>, u: Uid, bs: seq<Bytes>, gen: nat, c: Config, id: nat, ts: set<nat>)
    requires Separated(cap) && Sound(h, cap, u, bs, gen, c) && InFlight(c, id) && OutputRight(u, Concat(bs), c, ts)
    requires Round(u, gen) !in Apply(h, c, Advance(id)).deleted
    ensures OutputRight(u, Concat(bs), Apply(h, c, Advance(id)), if Truncates(c, Advance(id), u) then ts + {id} else ts)
  {
    hide Knows, Trustworthy, Step, OutputRight;
    var c', t := Apply(h, c, Advance(id)), c.tasks[id];
    AdvanceSound(h, cap, u, bs, gen, c, id);
    if t.r.uid != u {
      AdvanceWithin(h, cap, c, id);
      assert SameView(u, cap[u], c'.w, c.w);
      OutputUntouched(u, Concat(bs), c, c', ts);
    } else if Truncates(c, Advance(id), u) {
      TruncateRight(h, u, bs, c, id, ts);
    } else if Harmless(c, id) {
      HarmlessStep(h, u, bs, c, id);
      OutputUntouched(u, Concat(bs), c, c', ts);
    } else {
      WriteRight(h, u, bs, c, id, ts);
    }
  }

  lemma StartOutput(h: Digest, u: Uid, whole: Bytes, c: Config, m: Move, ts: set<nat>)
    requires OutputRight(u, whole, c, ts) && m.Start? && Enabled(c, m)
    ensures OutputRight(u, whole, Apply(h, c, m), ts)
  {
    OutputUntouched(u, whole, c, Apply(h, c, m), ts);
  }

  lemma {:induction false} RunOutput(h: Digest, cap: map<Uid, nat>, u: Uid, bs: seq<Bytes>, gen: nat,
                                     c: Config, ms: seq<Move>, ts: set<nat>)
    requires Separated(cap) && Sound(h, cap, u, bs, gen, c) && Continues(h, cap, c, ms, u, bs, gen)
    requires OutputRight(u, Concat(bs), c, ts)
    ensures OutputRight(u, Concat(bs), After(h, cap, c, ms), ts + Truncators(h, cap, c, ms, u))
    decreases |ms|
  {
    hide Sound, Separated, Apply, Continues, Agrees, OutputRight, Truncates;
    ContinuesAllowed(h, cap, c, ms, u, bs, gen);
    if ms == [] {
      assert ts + {} == ts;
    } else {
      ContinuesNext(h, cap, c, ms, u, bs, gen);
      MoveSound(h, cap, u, bs, gen, c, ms[0]);
      var c' := Apply(h, c, ms[0]);
      var ts' := if Truncates(c, ms[0], u) then ts + {ms[0].id} else ts;
      MoveOutput(h, cap, u, bs, gen, c, ms[0], ts);
      RunOutput(h, cap, u, bs, gen, c', ms[1..], ts');
      assert ts' + Truncators(h, cap, c', ms[1..], u) == ts + Truncators(h, cap, c, ms, u);
    }
  }

  lemma MoveOutput(h: Digest, cap: map<Uid, nat>, u: Uid, bs: seq<Bytes>, gen: nat, c: Config, m: Move, ts: set<nat>)
    requires Separated(cap) && Sound(h, cap, u, bs, gen, c) && OutputRight(u, Concat(bs), c, ts)
    requires Enabled(c, m) && Round(u, gen) !in Apply(h, c, m).deleted
    ensures OutputRight(u, Concat(bs), Apply(h, c, m), if Truncates(c, m, u) then ts + {m.id} else ts)
  {
    hide Sound, OutputRight, Separated;
    match m {
      case Start(_, _) => StartOutput(h, u, Concat(bs), c, m, ts);
      case Advance(id) => AdvanceOutput(h, cap, u, bs, gen, c, id, ts);
    }
  }

  lemma SettledExact(u: Uid, whole: Bytes, c: Config, ts: set<nat>)
    requires OutputRight(u, whole, c, ts) && ts != {} && forall k | k in ts :: !Streaming(c, u, k)
    ensures Find(c.w.files, u) == Some(whole)
  {
    hide Streaming;
    var f := c.w.files[u];
    forall j | 0 <= j < |whole| ensures j < |f| && f[j] == whole[j] {
      assert ByteRight(u, whole, c, ts, j);
    }
    if |whole| > 0 {
      assert ByteRight(u, whole, c, ts, |whole| - 1);
    }
    assert f == whole;
  }

  lemma NothingEmptied(u: Uid, whole: Bytes, c: Config)
    ensures OutputRight(u, whole, c, {})
  {
  }

  /** Cut a run where you like. If some build empties the finished file after the cut and every build that does
      has closed it, the file is exactly the uploaded file, whatever builds that opened it before are doing. */
  lemma BuildExact(h: Digest, cap: map<Uid, nat>, c0: Config, ms: seq<Move>, more: seq<Move>, u: Uid, bs: seq<Bytes>)
    requires Reached(h, cap, c0, ms, u, bs)
    requires Continues(h, cap, After(h, cap, c0, ms), more, u, bs, Gen(c0, u))
    requires var c := After(h, cap, c0, ms);
             var ts := Truncators(h, cap, c, more, u);
             ts != {} && forall id | id in ts :: !Streaming(After(h, cap, c, more), u, id)
    ensures Find(After(h, cap, After(h, cap, c0, ms), more).w.files, u) == Some(Concat(bs))
  {
    hide Reached, Sound, Continues, Streaming, Separated, OutputRight, Truncators, After, Allowed, Concat;
    ReachedSound(h, cap, c0, ms, u, bs);
    var c := After(h, cap, c0, ms);
    ContinuesAllowed(h, cap, c, more, u, bs, Gen(c0, u));
    NothingEmptied(u, Concat(bs), c);
    RunOutput(h, cap, u, bs, Gen(c0, u), c, more, {});
    var ts := Truncators(h, cap, c, more, u);
    assert {} + ts == ts;
    SettledExact(u, Concat(bs), After(h, cap, c, more), ts);
  }

  /** In particular a build finishes with exactly the uploaded file if no other emptied it since it opened it. */
  lemma LoneBuildExact(h: Digest, cap: map<Uid, nat>, c0: Config, ms: seq<Move>, more: seq<Move>,
                       u: Uid, bs: seq<Bytes>, id: nat)
    requires Reached(h, cap, c0, ms, u, bs)
    requires Continues(h, cap, After(h, cap, c0, ms), more, u, bs, Gen(c0, u))
    requires Truncators(h, cap, After(h, cap, c0, ms), more, u) == {id}
    requires BuildDone(After(h, cap, After(h, cap, c0, ms), more), u, id)
    ensures Find(After(h, cap, After(h, cap, c0, ms), more).w.files, u) == Some(Concat(bs))
  {
    hide Reached, Continues;
    BuildExact(h, cap, c0, ms, more, u, bs);
  }

  /** The finished file is the uploaded file in every state of the run. */
  ghost predicate AlwaysExact(h: Digest, cap: map<Uid, nat>, c: Config, ms: seq<Move>, u: Uid, whole: Bytes)
    requires Allowed(h, cap, c, ms)
    decreases |ms|
  {
    Find(c.w.files, u) == Some(whole) && (ms == [] || AlwaysExact(h, cap, Apply(h, c, ms[0]), ms[1..], u, whole))
  }

  /** A file that is right stays right exactly through the moves that do not empty it. */
  lemma MoveExactIff(h: Digest, cap: map<Uid, nat>, u: Uid, bs: seq<Bytes>, gen: nat, c: Config, m: Move)
    requires Separated(cap) && Sound(h, cap, u, bs, gen, c) && Concat(bs) != []
    requires Enabled(c, m) && Round(u, gen) !in Apply(h, c, m).deleted
    requires Find(c.w.files, u) == Some(Concat(bs))
    ensures Find(Apply(h, c, m).w.files, u) == Some(Concat(bs)) <==> !Truncates(c, m, u)
  {
    hide Knows, Trustworthy, Step, WriteAt;
    if m.Advance? {
      var t := c.tasks[m.id];
      AdvanceSound(h, cap, u, bs, gen, c, m.id);
      if t.r.uid != u {
        AdvanceWithin(h, cap, c, m.id);
        assert SameView(u, cap[u], Apply(h, c, m).w, c.w);
      } else if Truncates(c, m, u) {
        TruncateRight(h, u, bs, c, m.id, {});
      } else if Harmless(c, m.id) {
        HarmlessStep(h, u, bs, c, m.id);
      } else {
        PartRight(h, u, bs, c.w, t.r, t.pc);
        WritePart(Concat(bs), Concat(bs), t.pc.out.pos, Part(t.r, t.pc));
      }
    }
  }

  lemma {:induction false} RunExactIff(h: Digest, cap: map<Uid, nat>, u: Uid, bs: seq<Bytes>, gen: nat,
                                       c: Config, ms: seq<Move>)
    requires Separated(cap) && Sound(h, cap, u, bs, gen, c) && Continues(h, cap, c, ms, u, bs, gen)
    requires Find(c.w.files, u) == Some(Concat(bs)) && Concat(bs) != []
    ensures Allowed(h, cap, c, ms)
    ensures AlwaysExact(h, cap, c, ms, u, Concat(bs)) <==> Truncators(h, cap, c, ms, u) == {}
    decreases |ms|
  {
    hide Sound, Separated, Apply, Continues, Agrees, Truncates;
    ContinuesAllowed(h, cap, c, ms, u, bs, gen);
    if ms != [] {
      ContinuesNext(h, cap, c, ms, u, bs, gen);
      MoveSound(h, cap, u, bs, gen, c, ms[0]);
      MoveExactIff(h, cap, u, bs, gen, c, ms[0]);
      if Truncates(c, ms[0], u) {
        assert ms[0].id in Truncators(h, cap, c, ms, u);
      } else {
        RunExactIff(h, cap, u, bs, gen, Apply(h, c, ms[0]), ms[1..]);
      }
    }
  }

  /** Once the finished file is right, as a finished build leaves it, it stays right in every state up to the
      deletion exactly when no later build opens it. */
  lemma StaysExactIff(h: Digest, cap: map<Uid, nat>, c0: Config, ms: seq<Move>, more: seq<Move>,
                      u: Uid, bs: seq<Bytes>)
    requires Reached(h, cap, c0, ms, u, bs)
    requires Continues(h, cap, After(h, cap, c0, ms), more, u, bs, Gen(c0, u))
    requires Find(After(h, cap, c0, ms).w.files, u) == Some(Concat(bs)) && Concat(bs) != []
    ensures var c := After(h, cap, c0, ms);
            AlwaysExact(h, cap, c, more, u, Concat(bs)) <==> Truncators(h, cap, c, more, u) == {}
  {
    hide Reached, Sound, Continues, Separated;
    ReachedSound(h, cap, c0, ms, u, bs);
    RunExactIff(h, cap, u, bs, Gen(c0, u), After(h, cap, c0, ms), more);
  }

  /** Every build that has, or had, the finished file open is among ts. */
  ghost predicate Joined(c: Config, u: Uid, ts: set<nat>) {
    forall k | k in c.tasks && (Streaming(c, u, k) || BuildDone(c, u, k)) :: k in ts
  }

  lemma MoveJoined(h: Digest, c: Config, m: Move, u: Uid, ts: set<nat>)
    requires Joined(c, u, ts) && Enabled(c, m)
    ensures Joined(Apply(h, c, m), u, if Truncates(c, m, u) then ts + {m.id} else ts)
  {
    hide WriteAt, Released;
    var e := Apply(h, c, m);
    forall k | k in e.tasks && (Streaming(e, u, k) || BuildDone(e, u, k))
      ensures k in ts || (Truncates(c, m, u) && k == m.id)
    {
      if k != m.id {
        assert e.tasks[k] == c.tasks[k];
      } else {
        assert Streaming(c, u, k) || BuildDone(c, u, k) || Truncates(c, m, u);
      }
    }
  }

  lemma {:induction false} RunJoined(h: Digest, cap: map<Uid, nat>, c: Config, ms: seq<Move>, u: Uid, ts: set<nat>)
    requires Joined(c, u, ts) && Allowed(h, cap, c, ms)
    ensures Joined(After(h, cap, c, ms), u, ts + Truncators(h, cap, c, ms, u))
    decreases |ms|
  {
    hide Joined, Apply, Enabled, Truncates;
    if ms == [] {
      assert ts + {} == ts;
    } else {
      var ts' := if Truncates(c, ms[0], u) then ts + {ms[0].id} else ts;
      MoveJoined(h, c, ms[0], u, ts);
      RunJoined(h, cap, Apply(h, c, ms[0]), ms[1..], u, ts');
      assert ts' + Truncators(h, cap, Apply(h, c, ms[0]), ms[1..], u) == ts + Truncators(h, cap, c, ms, u);
    }
  }

  /** A build is done and none is under way: the file is right. */
  lemma QuietBuildExact(h: Digest, cap: map<Uid, nat>, c0: Config, ms: seq<Move>, u: Uid, bs: seq<Bytes>, id: nat)
    requires Reached(h, cap, c0, ms, u, bs)
    requires BuildDone(After(h, cap, c0, ms), u, id)
    requires forall k :: !Streaming(After(h, cap, c0, ms), u, k)
    ensures Find(After(h, cap, c0, ms).w.files, u) == Some(Concat(bs))
  {
    hide Sound, Separated, Continues, OutputRight, Concat;
    ReachedSound(h, cap, c0, ms, u, bs);
    var c, ts := After(h, cap, c0, ms), Truncators(h, cap, c0, ms, u);
    OpeningSound(h, cap, c0, u, bs);
    NothingEmptied(u, Concat(bs), c0);
    RunOutput(h, cap, u, bs, Gen(c0, u), c0, ms, {});
    RunJoined(h, cap, c0, ms, u, {});
    assert {} + ts == ts;
    hide Truncators, Reached, Opening;
    assert id in ts;
    SettledExact(u, Concat(bs), c, ts);
  }
}
