/** What a task of one uid can see and change, and why tasks of separated uids do not meet. */
module Views {
  import opened Names
  import opened Storage
  import opened Tasks

  datatype Option<T> = None | Some(value: T)

  function Find(files: Files, x: Name): Option<Bytes> {
    if x in files then Some(files[x]) else None
  }

  /** The callbacks among `calls` that name u. */
  function CallsOf(u: Uid, calls: seq<Uid>): seq<Uid> {
    if calls == [] then []
    else CallsOf(u, calls[..|calls| - 1]) + if calls[|calls| - 1] == u then [u] else []
  }

  lemma CallsOfAppend(u: Uid, calls: seq<Uid>, v: Uid)
    ensures CallsOf(u, calls + [v]) == CallsOf(u, calls) + if v == u then [u] else []
  {
    assert (calls + [v])[..|calls|] == calls;
  }

  ghost predicate SameFiles(u: Uid, n: nat, f1: Files, f2: Files) {
    && Find(f1, u) == Find(f2, u)
    && forall i | 1 <= i <= n :: Find(f1, BlockName(u, i)) == Find(f2, BlockName(u, i))
  }

  /** w1 and w2 agree on everything that belongs to a uid with at most n blocks:
      its files, its table entry and builder count, its callbacks. */
  ghost predicate SameView(u: Uid, n: nat, w1: World, w2: World) {
    && w1.listening == w2.listening
    && SameFiles(u, n, w1.files, w2.files)
    && (u in w1.slots <==> u in w2.slots)
    && (u in w1.slots ==> w1.slots[u] == w2.slots[u])
    && Born(w1, u) == Born(w2, u)
    && CallsOf(u, w1.calls) == CallsOf(u, w2.calls)
  }

  lemma SameViewTransitive(u: Uid, n: nat, w1: World, w2: World, w3: World)
    requires SameView(u, n, w1, w2) && SameView(u, n, w2, w3)
    ensures SameView(u, n, w1, w3) && SameView(u, n, w2, w1)
  {
  }

  ghost predicate SlotWithin(n: nat, w: World, u: Uid) {
    SlotOf(w, u).Live? ==> |SlotOf(w, u).hashes| <= n
  }

  /** The task stays inside the names of its uid. */
  ghost predicate PcWithin(n: nat, r: Request, pc: Pc) {
    && r.total <= n
    && (pc.Open? || pc.Fill? ==> 1 <= r.idx <= n)
    && (pc.Measure? || pc.Read? || pc.Write? || pc.Clear? ==> pc.n <= n)
  }

  ghost predicate Within(n: nat, w: World, r: Request, pc: Pc) {
    SlotWithin(n, w, r.uid) && PcWithin(n, r, pc)
  }

  lemma StepWithin(h: Digest, w: World, r: Request, pc: Pc, n: nat)
    requires !pc.End? && Fits(pc) && Within(n, w, r, pc)
    ensures var (w', pc') := Step(h, w, r, pc); Within(n, w', r, pc')
  {
    hide GetStep, BuilderStep, WriteStep, BuildStep, DeleteStep;
    if Dangling(w, r.uid, pc) {
    } else if pc.Get? || pc.Check? || pc.Mark? || pc.Ready? {
      TableWithin(h, w, r, pc, n);
    } else if pc.Erase? || pc.Clear? || pc.Callback? {
      DeleteWithin(w, r, pc, n);
    } else {
      FileWithin(w, r, pc, n);
    }
  }

  lemma TableWithin(h: Digest, w: World, r: Request, pc: Pc, n: nat)
    requires Within(n, w, r, pc)
    requires pc.Get? || ((pc.Check? || pc.Mark? || pc.Ready?) && SlotOf(w, r.uid).Live?)
    ensures var (w', pc') := if pc.Get? then GetStep(w, r) else BuilderStep(h, w, r, pc); Within(n, w', r, pc')
  {
  }

  lemma DeleteWithin(w: World, r: Request, pc: Pc, n: nat)
    requires (pc.Erase? || pc.Clear? || pc.Callback?) && Fits(pc) && Within(n, w, r, pc)
    ensures var (w', pc') := DeleteStep(w, r, pc); Within(n, w', r, pc')
  {
  }

  lemma FileWithin(w: World, r: Request, pc: Pc, n: nat)
    requires Fits(pc) && Within(n, w, r, pc) && (pc.BuildOpen? ==> SlotOf(w, r.uid).Live?)
    requires pc.Open? || pc.Fill? || pc.BuildOpen? || pc.Measure? || pc.Read? || pc.Write? || pc.Close?
    ensures var (w', pc') := if pc.Open? || pc.Fill? then WriteStep(w, r, pc) else BuildStep(w, r, pc);
            Within(n, w', r, pc')
  {
    hide Put, Released;
  }

  /** Between w and w' nothing changed but the files, the entry and the callbacks of v. */
  ghost predicate OnlyOwn(v: Uid, n: nat, w: World, w': World) {
    && w'.listening == w.listening
    && (forall x: Name | !Owns(v, n, x) :: Find(w'.files, x) == Find(w.files, x))
    && (forall u: Uid | u != v :: SlotSame(u, w, w') && CallsOf(u, w'.calls) == CallsOf(u, w.calls))
  }

  ghost predicate SlotSame(u: Uid, w: World, w': World) {
    (u in w'.slots <==> u in w.slots) && (u in w.slots ==> w'.slots[u] == w.slots[u]) && Born(w', u) == Born(w, u)
  }

  lemma TableOnlyOwn(h: Digest, w: World, r: Request, pc: Pc, n: nat)
    requires pc.Get? || ((pc.Check? || pc.Mark? || pc.Ready?) && SlotOf(w, r.uid).Live?)
    ensures OnlyOwn(r.uid, n, w, if pc.Get? then GetStep(w, r).0 else BuilderStep(h, w, r, pc).0)
  {
  }

  lemma WriteOnlyOwn(w: World, r: Request, pc: Pc, n: nat)
    requires (pc.Open? || pc.Fill?) && PcWithin(n, r, pc)
    ensures OnlyOwn(r.uid, n, w, WriteStep(w, r, pc).0)
  {
    OwnsBlock(r.uid, n, r.idx);
  }

  lemma BuildOnlyOwn(w: World, r: Request, pc: Pc, n: nat)
    requires (pc.BuildOpen? || pc.Measure? || pc.Read? || pc.Write? || pc.Close?) && Fits(pc)
    requires pc.BuildOpen? ==> SlotOf(w, r.uid).Live?
    ensures OnlyOwn(r.uid, n, w, BuildStep(w, r, pc).0)
  {
    hide WriteAt;
    assert Owns(r.uid, n, r.uid);
  }

  lemma DeleteOnlyOwn(w: World, r: Request, pc: Pc, n: nat)
    requires (pc.Erase? || pc.Clear? || pc.Callback?) && Fits(pc) && PcWithin(n, r, pc)
    ensures OnlyOwn(r.uid, n, w, DeleteStep(w, r, pc).0)
  {
    if pc.Clear? && pc.i < pc.n {
      OwnsBlock(r.uid, n, pc.i + 1);
    }
    forall u: Uid ensures pc.Callback? && u != r.uid ==> CallsOf(u, w.calls + [r.uid]) == CallsOf(u, w.calls) {
      CallsOfAppend(u, w.calls, r.uid);
    }
  }

  /** A step of v leaves everything of the other uids alone, and every file outside v's names. */
  lemma StepOnlyOwn(h: Digest, w: World, r: Request, pc: Pc, n: nat)
    requires !pc.End? && Fits(pc) && PcWithin(n, r, pc)
    ensures OnlyOwn(r.uid, n, w, Step(h, w, r, pc).0)
  {
    hide GetStep, BuilderStep, WriteStep, BuildStep, DeleteStep;
    if Dangling(w, r.uid, pc) {
    } else if pc.Get? || pc.Check? || pc.Mark? || pc.Ready? {
      TableOnlyOwn(h, w, r, pc, n);
    } else if pc.Open? || pc.Fill? {
      WriteOnlyOwn(w, r, pc, n);
    } else if pc.BuildOpen? || pc.Measure? || pc.Read? || pc.Write? || pc.Close? {
      BuildOnlyOwn(w, r, pc, n);
    } else if pc.Erase? || pc.Clear? || pc.Callback? {
      DeleteOnlyOwn(w, r, pc, n);
    }
  }

  /** With separated names, what changed only v's things did not change u's. */
  lemma OnlyOwnKeepsView(u: Uid, nu: nat, v: Uid, nv: nat, w: World, w': World)
    requires u != v && !Overlap(u, nu, v, nv) && OnlyOwn(v, nv, w, w')
    ensures SameView(u, nu, w', w)
  {
    assert Owns(u, nu, u) && !Owns(v, nv, u);
    forall i | 1 <= i <= nu ensures !Owns(v, nv, BlockName(u, i)) {
      OwnsBlock(u, nu, i);
    }
    assert SlotSame(u, w, w');
  }

  /** Changing one owned file the same way on both sides keeps the sides equal. */
  lemma SameFilesUpdate(u: Uid, n: nat, f1: Files, f2: Files, i: nat, data: Bytes)
    requires SameFiles(u, n, f1, f2)
    ensures SameFiles(u, n, f1[BlockName(u, i) := data], f2[BlockName(u, i) := data])
    ensures SameFiles(u, n, f1[u := data], f2[u := data])
    ensures SameFiles(u, n, f1 - {BlockName(u, i)}, f2 - {BlockName(u, i)})
  {
    forall k | 0 <= k ensures BlockName(u, k) != u { BlockNameInjective(u, k, k); }
    forall k | 1 <= k <= n ensures BlockName(u, k) == BlockName(u, i) ==> k == i {
      BlockNameInjective(u, k, i);
    }
  }

  lemma GetCongruent(w1: World, w2: World, r: Request, n: nat)
    requires SameView(r.uid, n, w1, w2)
    ensures GetStep(w1, r).1 == GetStep(w2, r).1
    ensures SameView(r.uid, n, GetStep(w1, r).0, GetStep(w2, r).0)
  {
  }

  lemma BuilderCongruent(h: Digest, w1: World, w2: World, r: Request, pc: Pc, n: nat)
    requires (pc.Check? || pc.Mark? || pc.Ready?) && SlotOf(w1, r.uid).Live?
    requires Within(n, w1, r, pc) && SameView(r.uid, n, w1, w2)
    ensures BuilderStep(h, w1, r, pc).1 == BuilderStep(h, w2, r, pc).1
    ensures SameView(r.uid, n, BuilderStep(h, w1, r, pc).0, BuilderStep(h, w2, r, pc).0)
  {
  }

  lemma WriteCongruent(w1: World, w2: World, r: Request, pc: Pc, n: nat)
    requires (pc.Open? || pc.Fill?) && Within(n, w1, r, pc) && SameView(r.uid, n, w1, w2)
    ensures WriteStep(w1, r, pc).1 == WriteStep(w2, r, pc).1
    ensures SameView(r.uid, n, WriteStep(w1, r, pc).0, WriteStep(w2, r, pc).0)
  {
    var name := BlockName(r.uid, r.idx);
    assert Find(w1.files, name) == Find(w2.files, name);
    SameFilesUpdate(r.uid, n, w1.files, w2.files, r.idx, []);
    if name in w1.files {
      SameFilesUpdate(r.uid, n, w1.files, w2.files, r.idx, WriteAt(w1.files[name], 0, r.value));
    }
  }

  lemma PutCongruent(w1: World, w2: World, r: Request, pos: nat, data: Bytes, n: nat)
    requires SameView(r.uid, n, w1, w2)
    ensures SameView(r.uid, n, Put(w1, r, pos, data), Put(w2, r, pos, data))
  {
    hide WriteAt;
    if r.outputOpens && r.uid in w1.files {
      assert w1.files[r.uid] == w2.files[r.uid] by { assert Find(w1.files, r.uid) == Find(w2.files, r.uid); }
      SameFilesUpdate(r.uid, n, w1.files, w2.files, 0, WriteAt(w1.files[r.uid], pos, data));
    }
  }

  lemma BuildCongruent(w1: World, w2: World, r: Request, pc: Pc, n: nat)
    requires (pc.BuildOpen? || pc.Measure? || pc.Read? || pc.Write? || pc.Close?) && Fits(pc)
    requires pc.BuildOpen? ==> SlotOf(w1, r.uid).Live?
    requires Within(n, w1, r, pc) && SameView(r.uid, n, w1, w2)
    ensures BuildStep(w1, r, pc).1 == BuildStep(w2, r, pc).1
    ensures SameView(r.uid, n, BuildStep(w1, r, pc).0, BuildStep(w2, r, pc).0)
  {
    hide Put, Released;
    SameFilesUpdate(r.uid, n, w1.files, w2.files, 0, []);
    if pc.Write? {
      var all := pc.out.held + pc.buf[..pc.size];
      PutCongruent(w1, w2, r, pc.out.pos, all[..Released(r, pc.i, all)], n);
    } else if pc.Close? {
      PutCongruent(w1, w2, r, pc.out.pos, pc.out.held, n);
    }
    if (pc.Measure? || pc.Read?) && pc.i < pc.n {
      assert Find(w1.files, BlockName(r.uid, pc.i + 1)) == Find(w2.files, BlockName(r.uid, pc.i + 1));
    }
  }

  lemma DeleteCongruent(w1: World, w2: World, r: Request, pc: Pc, n: nat)
    requires (pc.Erase? || pc.Clear? || pc.Callback?) && Fits(pc)
    requires Within(n, w1, r, pc) && SameView(r.uid, n, w1, w2)
    ensures DeleteStep(w1, r, pc).1 == DeleteStep(w2, r, pc).1
    ensures SameView(r.uid, n, DeleteStep(w1, r, pc).0, DeleteStep(w2, r, pc).0)
  {
    CallsOfAppend(r.uid, w1.calls, r.uid);
    CallsOfAppend(r.uid, w2.calls, r.uid);
    if pc.Clear? {
      SameFilesUpdate(r.uid, n, w1.files, w2.files, pc.i + 1, []);
    }
  }

  /** A step of u depends on nothing but u's view. */
  lemma StepCongruent(h: Digest, w1: World, w2: World, r: Request, pc: Pc, n: nat)
    requires !pc.End? && Fits(pc) && Within(n, w1, r, pc) && SameView(r.uid, n, w1, w2)
    ensures Step(h, w1, r, pc).1 == Step(h, w2, r, pc).1
    ensures SameView(r.uid, n, Step(h, w1, r, pc).0, Step(h, w2, r, pc).0)
  {
    hide GetStep, BuilderStep, WriteStep, BuildStep, DeleteStep;
    assert Dangling(w1, r.uid, pc) == Dangling(w2, r.uid, pc);
    if Dangling(w1, r.uid, pc) {
    } else if pc.Get? {
      GetCongruent(w1, w2, r, n);
    } else if pc.Check? || pc.Mark? || pc.Ready? {
      BuilderCongruent(h, w1, w2, r, pc, n);
    } else if pc.Open? || pc.Fill? {
      WriteCongruent(w1, w2, r, pc, n);
    } else if pc.BuildOpen? || pc.Measure? || pc.Read? || pc.Write? || pc.Close? {
      BuildCongruent(w1, w2, r, pc, n);
    } else {
      DeleteCongruent(w1, w2, r, pc, n);
    }
  }

  /** A whole task of v leaves everything else alone. */
  lemma {:induction false} FinishOnlyOwn(h: Digest, w: World, r: Request, pc: Pc, n: nat)
    requires Fits(pc) && Within(n, w, r, pc)
    ensures OnlyOwn(r.uid, n, w, Finish(h, w, r, pc).0)
    decreases Phase(pc), Left(pc), Place(pc)
  {
    hide Step;
    if !pc.End? {
      var (w', pc') := Step(h, w, r, pc);
      StepOnlyOwn(h, w, r, pc, n);
      StepWithin(h, w, r, pc, n);
      FinishOnlyOwn(h, w', r, pc', n);
      OnlyOwnTransitive(r.uid, n, w, w', Finish(h, w', r, pc').0);
    }
  }

  lemma OnlyOwnTransitive(v: Uid, n: nat, w1: World, w2: World, w3: World)
    requires OnlyOwn(v, n, w1, w2) && OnlyOwn(v, n, w2, w3)
    ensures OnlyOwn(v, n, w1, w3)
  {
    forall u: Uid | u != v ensures SlotSame(u, w1, w3) && CallsOf(u, w3.calls) == CallsOf(u, w1.calls) {
      assert SlotSame(u, w1, w2) && SlotSame(u, w2, w3);
    }
  }

  /** A whole task of u depends on nothing but u's view, and keeps its entry within bounds. */
  lemma {:induction false} FinishCongruent(h: Digest, w1: World, w2: World, r: Request, pc: Pc, n: nat)
    requires Fits(pc) && Within(n, w1, r, pc) && SameView(r.uid, n, w1, w2)
    ensures Finish(h, w1, r, pc).1 == Finish(h, w2, r, pc).1
    ensures SameView(r.uid, n, Finish(h, w1, r, pc).0, Finish(h, w2, r, pc).0)
    ensures SlotWithin(n, Finish(h, w1, r, pc).0, r.uid)
    decreases Phase(pc), Left(pc), Place(pc)
  {
    hide Step, SameView;
    if !pc.End? {
      var (w1', pc') := Step(h, w1, r, pc);
      StepCongruent(h, w1, w2, r, pc, n);
      StepWithin(h, w1, r, pc, n);
      FinishCongruent(h, w1', Step(h, w2, r, pc).0, r, pc', n);
    }
  }
}
