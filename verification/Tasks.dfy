/** One upload task, as a sequence of atomic steps and as a single function of the state. */
module Tasks {
  import opened Names
  import opened Storage
  import opened BlockStore

  /** A request together with the environment's answers to the operations that can fail:
      constructing a builder, opening the block file, opening the finished file. `lags` says how many of the
      bytes written so far the stream of the finished file still holds back after each block, 0 beyond the list. */
  datatype Request = Request(uid: Uid, total: BlockCount, idx: nat, value: Bytes,
                             constructs: bool, blockOpens: bool, outputOpens: bool, lags: seq<nat>)

  /** An entry of the builder table; `Null` is the empty pointer that operator[] leaves behind. */
  datatype Slot = Null | Live(hashes: seq<string>)

  /** The directory, the builder table, and the callbacks made so far, each named by its uid.
      `births` counts the builders made for each uid; the one in the table is the latest, so the count
      is its identity. `listening` says whether a callback was installed. */
  datatype World = World(files: Files, slots: map<Uid, Slot>, births: map<Uid, nat>, calls: seq<Uid>, listening: bool)

  /** `Undefined`: an assertion on the block number was violated, or the builder had been deleted. */
  datatype Outcome = Returned | Threw | Undefined

  /** The stream of the finished file: its place in the file, and bytes written to it but not to the file yet. */
  datatype Stream = Stream(pos: nat, held: Bytes)

  /** Where a task stands: the next critical section or file operation it performs. `own` is the builder that
      `Get` gave it, by number. */
  datatype Pc =
    | Get
    | Check(own: nat)
    | Open(own: nat, sum: string)
    | Fill(own: nat, sum: string)
    | Mark(own: nat, sum: string)
    | Ready(own: nat)
    | BuildOpen(own: nat)
    | Measure(own: nat, i: nat, n: nat, out: Stream, buf: Bytes)
    | Read(own: nat, i: nat, n: nat, out: Stream, buf: Bytes, size: nat)
    | Write(own: nat, i: nat, n: nat, out: Stream, buf: Bytes, size: nat)
    | Close(own: nat, out: Stream, whole: bool)
    | Erase(own: nat)
    | Clear(own: nat, i: nat, n: nat)
    | Callback(own: nat)
    | End(outcome: Outcome)

  const INITIAL_BUFFER: nat := 25 * 1024 * 1024

  /** Loop counters stay within their bounds and every read fits the buffer. */
  predicate Fits(pc: Pc) {
    && (pc.Read? || pc.Write? ==> pc.i < pc.n && pc.size <= |pc.buf|)
    && (pc.Measure? || pc.Clear? ==> pc.i <= pc.n)
  }

  function SlotOf(w: World, u: Uid): Slot {
    if u in w.slots then w.slots[u] else Null
  }

  function Born(w: World, u: Uid): nat {
    if u in w.births then w.births[u] else 0
  }

  /** The builder with that number is still in the table. Here a builder counts as gone from then on; in the code
      the object lives on until the deleting task has removed its block files. */
  predicate Alive(w: World, u: Uid, own: nat) {
    SlotOf(w, u).Live? && own == Born(w, u)
  }

  /** The operation reads or writes a member of the builder. Once the block file is open, and inside the
      build loop after the size is known, the task works on its own variables only. */
  predicate UsesBuilder(pc: Pc) {
    pc.Check? || pc.Open? || pc.Mark? || pc.Ready? || pc.BuildOpen? || pc.Measure?
  }

  predicate Dangling(w: World, u: Uid, pc: Pc) {
    UsesBuilder(pc) && !Alive(w, u, pc.own)
  }

  /** Progress of a task: phase, blocks left in the current loop, place inside the loop body. */
  function Phase(pc: Pc): nat {
    match pc
    case Get => 11
    case Check(_) => 10
    case Open(_, _) => 9
    case Fill(_, _) => 8
    case Mark(_, _) => 7
    case Ready(_) => 6
    case BuildOpen(_) => 5
    case Measure(_, _, _, _, _) => 4
    case Read(_, _, _, _, _, _) => 4
    case Write(_, _, _, _, _, _) => 4
    case Close(_, _, _) => 3
    case Erase(_) => 2
    case Clear(_, _, _) => 1
    case Callback(_) => 0
    case End(_) => 0
  }

  function Left(pc: Pc): nat {
    match pc
    case Measure(_, i, n, _, _) => if i < n then n - i else 0
    case Read(_, i, n, _, _, _) => if i < n then n - i else 0
    case Write(_, i, n, _, _, _) => if i < n then n - i else 0
    case Clear(_, i, n) => if i < n then n - i else 0
    case _ => 0
  }

  function Place(pc: Pc): nat {
    match pc
    case Measure(_, _, _, _, _) => 3
    case Read(_, _, _, _, _, _) => 2
    case Write(_, _, _, _, _, _) => 1
    case Callback(_) => 1
    case _ => 0
  }

  /** A task at `next` is closer to its end than one at `pc`. */
  predicate Closer(next: Pc, pc: Pc) {
    || Phase(next) < Phase(pc)
    || (Phase(next) == Phase(pc) && Left(next) < Left(pc))
    || (Phase(next) == Phase(pc) && Left(next) == Left(pc) && Place(next) < Place(pc))
  }

  /** The buffer never shrinks, and keeps what it holds when it grows. */
  function Grown(buf: Bytes, size: nat): (b: Bytes)
    ensures |b| == if |buf| < size then size else |buf|
    ensures b[..|buf|] == buf
  {
    if |buf| < size then buf + Zeros(size - |buf|) else buf
  }

  /** The first `size` bytes of a file arrive in front of the stale bytes of the buffer. */
  function ReadBuffer(files: Files, name: Name, buf: Bytes, size: nat): (b: Bytes)
    requires size <= |buf|
    ensures |b| == |buf|
  {
    if name !in files then buf
    else
      var got := if |files[name]| < size then |files[name]| else size;
      files[name][..got] + buf[got..]
  }

  /** How much of the written bytes goes to the file with block i + 1. */
  function Released(r: Request, i: nat, all: Bytes): (n: nat)
    ensures n <= |all|
  {
    var lag := if i < |r.lags| then r.lags[i] else 0;
    if lag < |all| then |all| - lag else 0
  }

  /** The environment may choose any part. */
  lemma AnyPartReleased(r: Request, i: nat, all: Bytes, n: nat) returns (lags: seq<nat>)
    requires n <= |all|
    ensures Released(r.(lags := lags), i, all) == n
  {
    lags := seq(i + 1, _ => |all| - n);
  }

  /** Bytes leave the stream for the finished file; a stream that did not open swallows them. */
  function Put(w: World, r: Request, pos: nat, data: Bytes): World {
    if r.outputOpens && r.uid in w.files then w.(files := w.files[r.uid := WriteAt(w.files[r.uid], pos, data)]) else w
  }

  /** The state with a builder for the uid: the one in the table, or a new blank one. */
  function WithBuilder(w: World, r: Request): (w': World)
    ensures SlotOf(w', r.uid) == if SlotOf(w, r.uid).Live? then SlotOf(w, r.uid) else Live(Blank(r.total))
    ensures Alive(w', r.uid, Born(w', r.uid))
  {
    if SlotOf(w, r.uid).Live? then w
    else w.(slots := w.slots[r.uid := Live(Blank(r.total))], births := w.births[r.uid := Born(w, r.uid) + 1])
  }

  function GetStep(w: World, r: Request): (s: (World, Pc))
    ensures Fits(s.1) && Closer(s.1, Get)
    ensures if SlotOf(w, r.uid).Null? && !r.constructs then s.1 == End(Threw)
            else s.1.Check? && Alive(s.0, r.uid, s.1.own)
  {
    if SlotOf(w, r.uid).Live? || r.constructs
    then (WithBuilder(w, r), Check(Born(WithBuilder(w, r), r.uid)))
    else (w.(slots := w.slots[r.uid := Null]), End(Threw))
  }

  function BuilderStep(h: Digest, w: World, r: Request, pc: Pc): (s: (World, Pc))
    requires (pc.Check? || pc.Mark? || pc.Ready?) && SlotOf(w, r.uid).Live?
    ensures Fits(s.1) && Closer(s.1, pc)
    ensures s.0 == w.(slots := s.0.slots) && SlotOf(s.0, r.uid).Live?
    ensures pc.Ready? && !AllSet(SlotOf(w, r.uid).hashes) ==> s == (w, End(Returned))
  {
    var u, hs := r.uid, SlotOf(w, r.uid).hashes;
    if !pc.Ready? && !(1 <= r.idx <= |hs|) then (w, End(Undefined))
    else
      match pc
      case Check(own) => (w, if hs[r.idx - 1] == h(r.value) then Ready(own) else Open(own, h(r.value)))
      case Mark(own, sum) => (w.(slots := w.slots[u := Live(hs[r.idx - 1 := sum])]), Ready(own))
      case Ready(own) => (w, if AllSet(hs) then BuildOpen(own) else End(Returned))
  }

  function WriteStep(w: World, r: Request, pc: Pc): (s: (World, Pc))
    requires pc.Open? || pc.Fill?
    ensures Fits(s.1) && Closer(s.1, pc)
    ensures s.0 == w.(files := s.0.files)
    ensures s.0.files - {BlockName(r.uid, r.idx)} == w.files - {BlockName(r.uid, r.idx)}
  {
    var name := BlockName(r.uid, r.idx);
    match pc
    case Open(own, sum) =>
      if r.blockOpens then (w.(files := w.files[name := []]), Fill(own, sum)) else (w, End(Threw))
    case Fill(own, sum) =>
      (if name in w.files then w.(files := w.files[name := WriteAt(w.files[name], 0, r.value)]) else w,
       Mark(own, sum))
  }

  /** `build`: open the finished file, then size, read and write each block, then close. A missing block throws;
      the stream is closed, and what it holds written, on the way out as well. */
  function BuildStep(w: World, r: Request, pc: Pc): (s: (World, Pc))
    requires (pc.BuildOpen? || pc.Measure? || pc.Read? || pc.Write? || pc.Close?) && Fits(pc)
    requires pc.BuildOpen? ==> SlotOf(w, r.uid).Live?
    ensures Fits(s.1) && Closer(s.1, pc)
    ensures s.0 == w.(files := s.0.files)
    ensures s.0.files - {r.uid} == w.files - {r.uid}
  {
    var u := r.uid;
    match pc
    case BuildOpen(own) =>
      (if r.outputOpens then w.(files := w.files[u := []]) else w,
       Measure(own, 0, |SlotOf(w, u).hashes|, Stream(0, []), Zeros(INITIAL_BUFFER)))
    case Measure(own, i, n, out, buf) =>
      var name := BlockName(u, i + 1);
      if i >= n then (w, Close(own, out, true))
      else if name !in w.files then (w, Close(own, out, false))
      else
        var size := |w.files[name]|;
        (w, Read(own, i, n, out, Grown(buf, size), size))
    case Read(own, i, n, out, buf, size) =>
      (w, Write(own, i, n, out, ReadBuffer(w.files, BlockName(u, i + 1), buf, size), size))
    case Write(own, i, n, out, buf, size) =>
      var all := out.held + buf[..size];
      var k := Released(r, i, all);
      (Put(w, r, out.pos, all[..k]), Measure(own, i + 1, n, Stream(out.pos + k, all[k..]), buf))
    case Close(own, out, whole) =>
      (Put(w, r, out.pos, out.held), if whole then Erase(own) else End(Threw))
  }

  /** Deletion takes the builder out of the table first and removes its block files afterwards. */
  function DeleteStep(w: World, r: Request, pc: Pc): (s: (World, Pc))
    requires (pc.Erase? || pc.Clear? || pc.Callback?) && Fits(pc)
    ensures Fits(s.1) && Closer(s.1, pc)
  {
    var u := r.uid;
    match pc
    case Erase(own) =>
      var slot := SlotOf(w, u);
      (w.(slots := w.slots - {u}), Clear(own, 0, if slot.Live? then |slot.hashes| else 0))
    case Clear(own, i, n) =>
      if i >= n then (w, Callback(own))
      else (w.(files := w.files - {BlockName(u, i + 1)}), Clear(own, i + 1, n))
    case Callback(_) =>
      (if w.listening then w.(calls := w.calls + [u]) else w, End(Returned))
  }

  /** One step. Using a builder that is no longer in the table is undefined. */
  function Step(h: Digest, w: World, r: Request, pc: Pc): (s: (World, Pc))
    requires !pc.End? && Fits(pc)
    ensures Fits(s.1) && Closer(s.1, pc)
  {
    if Dangling(w, r.uid, pc) then (w, End(Undefined))
    else if pc.Get? then GetStep(w, r)
    else if pc.Check? || pc.Mark? || pc.Ready? then BuilderStep(h, w, r, pc)
    else if pc.Open? || pc.Fill? then WriteStep(w, r, pc)
    else if pc.Erase? || pc.Clear? || pc.Callback? then DeleteStep(w, r, pc)
    else BuildStep(w, r, pc)
  }

  /** A step is undefined exactly when it uses a deleted builder, or a block number outside 1..total. */
  lemma UndefinedStepIff(h: Digest, w: World, r: Request, pc: Pc)
    requires !pc.End? && Fits(pc)
    ensures Step(h, w, r, pc).1 == End(Undefined) <==>
            && (pc.Check? || pc.Open? || pc.Mark? || pc.Ready? || pc.BuildOpen? || pc.Measure?)
            && (!Alive(w, r.uid, pc.own) || ((pc.Check? || pc.Mark?) && !(1 <= r.idx <= |SlotOf(w, r.uid).hashes|)))
  {
  }

  /** A task keeps the builder it was given. */
  lemma StepKeepsOwn(h: Digest, w: World, r: Request, pc: Pc)
    requires !pc.End? && Fits(pc)
    ensures var pc' := Step(h, w, r, pc).1;
            !pc'.Get? && (!pc.Get? && !pc'.End? ==> pc'.own == pc.own)
  {
  }

  /** The task run to its end with no other task in between. */
  function Finish(h: Digest, w: World, r: Request, pc: Pc): (World, Outcome)
    requires Fits(pc)
    decreases Phase(pc), Left(pc), Place(pc)
  {
    if pc.End? then (w, pc.outcome)
    else
      var (w', pc') := Step(h, w, r, pc);
      Finish(h, w', r, pc')
  }

  /** The task as one transition. */
  function Serve(h: Digest, w: World, r: Request): (World, Outcome) {
    if SlotOf(w, r.uid).Null? && !r.constructs then (w.(slots := w.slots[r.uid := Null]), Threw)
    else ServeLive(h, WithBuilder(w, r), r, SlotOf(WithBuilder(w, r), r.uid).hashes)
  }

  function ServeLive(h: Digest, w: World, r: Request, hs: seq<string>): (World, Outcome) {
    var u := r.uid;
    if !(1 <= r.idx <= |hs|) then (w, Undefined)
    else
      var p := PushBlock(h, hs, w.files, u, r.idx, r.value, r.blockOpens);
      var w1 := w.(files := p.files, slots := w.slots[u := Live(p.hs)]);
      if !p.ok then (w, Threw)
      else if !AllSet(p.hs) then (w1, Returned)
      else
        var built := Built(p.files, u, |p.hs|, r.outputOpens);
        if !Complete(p.files, u, |p.hs|) then (w1.(files := built), Threw)
        else (w.(files := Cleared(built, u, |p.hs|), slots := w.slots - {u},
                 calls := if w.listening then w.calls + [u] else w.calls), Returned)
  }

  function NamesAfter(u: Uid, i: nat, n: nat): set<Name> {
    set k: nat | i < k <= n :: BlockName(u, k)
  }

  lemma NamesAfterNext(files: Files, u: Uid, i: nat, n: nat)
    ensures i < n ==> files - NamesAfter(u, i, n) == files - {BlockName(u, i + 1)} - NamesAfter(u, i + 1, n)
    ensures i >= n ==> files - NamesAfter(u, i, n) == files
  {
    if i < n {
      assert NamesAfter(u, i, n) == {BlockName(u, i + 1)} + NamesAfter(u, i + 1, n);
    }
  }

  lemma {:induction false} FinishClear(h: Digest, w: World, r: Request, own: nat, i: nat, n: nat)
    requires i <= n
    ensures Finish(h, w, r, Clear(own, i, n)) ==
            Finish(h, w.(files := w.files - NamesAfter(r.uid, i, n)), r, Callback(own))
    decreases n - i
  {
    hide Finish, NamesAfter;
    NamesAfterNext(w.files, r.uid, i, n);
    if i == n {
      FinishAfterStep(h, w, r, Clear(own, i, n), w, Callback(own));
    } else {
      var w' := w.(files := w.files - {BlockName(r.uid, i + 1)});
      FinishAfterStep(h, w, r, Clear(own, i, n), w', Clear(own, i + 1, n));
      FinishClear(h, w', r, own, i + 1, n);
    }
  }

  /** The state with data appended to the finished file, if the stream is open. */
  function AppendTo(w: World, r: Request, data: Bytes): World {
    if r.outputOpens && r.uid in w.files then w.(files := w.files[r.uid := w.files[r.uid] + data]) else w
  }

  lemma AppendToTwice(w: World, r: Request, a: Bytes, b: Bytes)
    ensures AppendTo(AppendTo(w, r, a), r, b) == AppendTo(w, r, a + b)
    ensures AppendTo(w, r, []) == w
  {
    if r.outputOpens && r.uid in w.files {
      var f := w.files[r.uid];
      assert f + [] == f && w.files[r.uid := f] == w.files;
      assert (f + a) + b == f + (a + b);
      assert w.files[r.uid := f + a][r.uid := f + a + b] == w.files[r.uid := f + (a + b)];
    }
  }

  lemma AppendToKeepsBlocks(w: World, r: Request, data: Bytes, i: nat, n: nat)
    ensures CompleteFrom(w.files, r.uid, i, n) <==> CompleteFrom(AppendTo(w, r, data).files, r.uid, i, n)
    ensures Gather(w.files, r.uid, i, n) == Gather(AppendTo(w, r, data).files, r.uid, i, n)
    ensures SlotOf(AppendTo(w, r, data), r.uid) == SlotOf(w, r.uid)
    ensures Born(AppendTo(w, r, data), r.uid) == Born(w, r.uid)
    ensures r.outputOpens && r.uid in w.files ==>
              r.uid in AppendTo(w, r, data).files && AppendTo(w, r, data).files[r.uid] == w.files[r.uid] + data
  {
    var g := AppendTo(w, r, data).files;
    forall k: nat ensures BlockName(r.uid, k) != r.uid {
      BlockNameInjective(r.uid, k, k);
    }
    GatherDepends(w.files, g, r.uid, i, n);
  }

  /** The stream stands at the end of the finished file. */
  predicate AtEnd(w: World, r: Request, out: Stream) {
    r.outputOpens ==> r.uid in w.files && |w.files[r.uid]| == out.pos
  }

  /** The build loop, from block i + 1 on, with the stream at the end of the output: whatever stale bytes the
      buffer holds and however the stream holds bytes back, exactly what it held and the bytes of the blocks are
      appended. */
  lemma {:induction false} FinishBuild(h: Digest, w: World, r: Request, own: nat, i: nat, n: nat,
                                       out: Stream, buf: Bytes)
    requires i <= n && Alive(w, r.uid, own) && AtEnd(w, r, out)
    ensures var w' := AppendTo(w, r, out.held + Gather(w.files, r.uid, i, n));
            Finish(h, w, r, Measure(own, i, n, out, buf)) ==
            if CompleteFrom(w.files, r.uid, i, n) then Finish(h, w', r, Erase(own)) else (w', Threw)
    decreases n - i
  {
    hide Finish, Step, BuildStep, SlotOf, Born, AppendTo, AtEnd, CompleteFrom, Gather;
    GatherNext(w.files, r.uid, i, n);
    var name := BlockName(r.uid, i + 1);
    if i == n || name !in w.files {
      LeaveBuild(h, w, r, own, i, n, out, buf);
      assert out.held + [] == out.held;
    } else {
      var block := w.files[name];
      var go, out', buf' := BuildOneBlock(h, w, r, own, i, n, out, buf);
      var w', rest := AppendTo(w, r, go), Gather(w.files, r.uid, i + 1, n);
      AppendToKeepsBlocks(w, r, go, i + 1, n);
      FinishBuild(h, w', r, own, i + 1, n, out', buf');
      AppendToTwice(w, r, go, out'.held + rest);
      assert go + (out'.held + rest) == (go + out'.held) + rest;
      assert out.held + (block + rest) == (out.held + block) + rest;
    }
  }

  /** A step does not change what a task finally does. */
  lemma FinishAfterStep(h: Digest, w: World, r: Request, pc: Pc, w': World, pc': Pc)
    requires !pc.End? && Fits(pc) && Step(h, w, r, pc) == (w', pc')
    ensures Fits(pc') && Finish(h, w, r, pc) == Finish(h, w', r, pc')
  {
  }

  lemma FinishAtEnd(h: Digest, w: World, r: Request, o: Outcome)
    ensures Finish(h, w, r, End(o)) == (w, o)
  {
  }

  /** The two ways out of the loop, all blocks done or a block file missing: both close the stream. */
  lemma LeaveBuild(h: Digest, w: World, r: Request, own: nat, i: nat, n: nat, out: Stream, buf: Bytes)
    requires i <= n && Alive(w, r.uid, own) && AtEnd(w, r, out)
    requires i == n || BlockName(r.uid, i + 1) !in w.files
    ensures var w' := AppendTo(w, r, out.held);
            Finish(h, w, r, Measure(own, i, n, out, buf)) ==
            if i == n then Finish(h, w', r, Erase(own)) else (w', Threw)
  {
    hide Finish, WriteAt;
    var w' := AppendTo(w, r, out.held);
    PutAtEnd(w, r, out, out.held, []);
    FinishAfterStep(h, w, r, Measure(own, i, n, out, buf), w, Close(own, out, i == n));
    FinishAfterStep(h, w, r, Close(own, out, i == n), w', if i == n then Erase(own) else End(Threw));
    FinishAtEnd(h, w', r, Threw);
  }

  lemma PutAtEnd(w: World, r: Request, out: Stream, data: Bytes, rest: Bytes)
    requires AtEnd(w, r, out)
    ensures Put(w, r, out.pos, data) == AppendTo(w, r, data)
    ensures AtEnd(AppendTo(w, r, data), r, Stream(out.pos + |data|, rest))
  {
    if r.outputOpens {
      WriteAtEnd(w.files[r.uid], data);
    }
  }

  lemma MeasureAndRead(h: Digest, w: World, r: Request, own: nat, i: nat, n: nat, out: Stream, buf: Bytes,
                       block: Bytes, grown: Bytes)
    requires i < n && Alive(w, r.uid, own)
    requires BlockName(r.uid, i + 1) in w.files && w.files[BlockName(r.uid, i + 1)] == block
    requires grown == Grown(buf, |block|)
    ensures Step(h, w, r, Measure(own, i, n, out, buf)) == (w, Read(own, i, n, out, grown, |block|))
    ensures |block| <= |grown|
    ensures Step(h, w, r, Read(own, i, n, out, grown, |block|)) ==
            (w, Write(own, i, n, out, block + grown[|block|..], |block|))
    ensures |block + grown[|block|..]| == |grown| && (block + grown[|block|..])[..|block|] == block
  {
    WholeBlockRead(w.files, BlockName(r.uid, i + 1), grown);
    hide GetStep, BuilderStep, WriteStep, DeleteStep, Put, Released, Grown, BlockName, ReadBuffer;
  }

  /** A file that fits the buffer is read in front of the stale rest. */
  lemma WholeBlockRead(files: Files, name: Name, buf: Bytes)
    requires name in files && |files[name]| <= |buf|
    ensures var block := files[name]; var read := block + buf[|block|..];
            ReadBuffer(files, name, buf, |block|) == read && |read| == |buf| && read[..|block|] == block
  {
    var block := files[name];
    assert block[..|block|] == block;
  }

  lemma WriteBack(h: Digest, w: World, r: Request, own: nat, i: nat, n: nat, out: Stream, buf: Bytes, block: Bytes)
    requires i < n && |block| <= |buf| && buf[..|block|] == block && AtEnd(w, r, out)
    ensures var all := out.held + block;
            var k := Released(r, i, all);
            Step(h, w, r, Write(own, i, n, out, buf, |block|)) ==
            (AppendTo(w, r, all[..k]), Measure(own, i + 1, n, Stream(out.pos + k, all[k..]), buf))
  {
    hide WriteAt;
    PutAtEnd(w, r, out, (out.held + block)[..Released(r, i, out.held + block)], []);
  }

  /** Measure and read: whatever was in the buffer, the block is now in front. */
  lemma ReadOneBlock(h: Digest, w: World, r: Request, own: nat, i: nat, n: nat, out: Stream, buf: Bytes, block: Bytes)
      returns (buf': Bytes)
    requires i < n && Alive(w, r.uid, own)
    requires BlockName(r.uid, i + 1) in w.files && w.files[BlockName(r.uid, i + 1)] == block
    ensures |block| <= |buf'| && buf'[..|block|] == block
    ensures Finish(h, w, r, Measure(own, i, n, out, buf)) == Finish(h, w, r, Write(own, i, n, out, buf', |block|))
  {
    hide Finish, Step, Alive;
    var grown := Grown(buf, |block|);
    MeasureAndRead(h, w, r, own, i, n, out, buf, block, grown);
    buf' := block + grown[|block|..];
    FinishAfterStep(h, w, r, Measure(own, i, n, out, buf), w, Read(own, i, n, out, grown, |block|));
    FinishAfterStep(h, w, r, Read(own, i, n, out, grown, |block|), w, Write(own, i, n, out, buf', |block|));
  }

  /** One round of the loop: measure, read into the buffer, write; `go` is what reaches the file. */
  lemma BuildOneBlock(h: Digest, w: World, r: Request, own: nat, i: nat, n: nat, out: Stream, buf: Bytes)
      returns (go: Bytes, out': Stream, buf': Bytes)
    requires i < n && Alive(w, r.uid, own) && BlockName(r.uid, i + 1) in w.files && AtEnd(w, r, out)
    ensures go + out'.held == out.held + w.files[BlockName(r.uid, i + 1)]
    ensures AtEnd(AppendTo(w, r, go), r, out')
    ensures Finish(h, w, r, Measure(own, i, n, out, buf)) ==
            Finish(h, AppendTo(w, r, go), r, Measure(own, i + 1, n, out', buf'))
  {
    hide Finish, Step, AppendTo, SlotOf, AtEnd, Put, Released, Alive;
    var block := w.files[BlockName(r.uid, i + 1)];
    buf' := ReadOneBlock(h, w, r, own, i, n, out, buf, block);
    WriteBack(h, w, r, own, i, n, out, buf', block);
    var all := out.held + block;
    var k := Released(r, i, all);
    go, out' := all[..k], Stream(out.pos + k, all[k..]);
    PutAtEnd(w, r, out, go, out'.held);
    assert go + out'.held == all;
    var pc, pc' := Write(own, i, n, out, buf', |block|), Measure(own, i + 1, n, out', buf');
    FinishAfterStep(h, w, r, pc, AppendTo(w, r, go), pc');
  }

  lemma WriteAtEnd(f: Bytes, data: Bytes)
    ensures WriteAt(f, |f|, data) == f + data
  {
  }

  lemma FinishDelete(h: Digest, w: World, r: Request, own: nat)
    requires SlotOf(w, r.uid).Live?
    ensures Finish(h, w, r, Erase(own)) ==
            (w.(files := Cleared(w.files, r.uid, |SlotOf(w, r.uid).hashes|), slots := w.slots - {r.uid},
                calls := if w.listening then w.calls + [r.uid] else w.calls), Returned)
  {
    hide Finish;
    var n := |SlotOf(w, r.uid).hashes|;
    var w1 := w.(slots := w.slots - {r.uid});
    FinishAfterStep(h, w, r, Erase(own), w1, Clear(own, 0, n));
    FinishClear(h, w1, r, own, 0, n);
    assert BlockNames(r.uid, n) == NamesAfter(r.uid, 0, n);
    var w2 := w1.(files := Cleared(w.files, r.uid, n));
    var w3 := Step(h, w2, r, Callback(own)).0;
    FinishAfterStep(h, w2, r, Callback(own), w3, End(Returned));
    FinishAtEnd(h, w3, r, Returned);
  }

  lemma FinishOpen(h: Digest, w: World, r: Request, own: nat, hs: seq<string>)
    requires Alive(w, r.uid, own) && SlotOf(w, r.uid) == Live(hs)
    ensures var w' := if r.outputOpens then w.(files := w.files[r.uid := []]) else w;
            && Alive(w', r.uid, own) && SlotOf(w', r.uid) == Live(hs) && AtEnd(w', r, Stream(0, []))
            && Finish(h, w, r, BuildOpen(own)) ==
               Finish(h, w', r, Measure(own, 0, |hs|, Stream(0, []), Zeros(INITIAL_BUFFER)))
  {
    hide Finish;
    var w' := if r.outputOpens then w.(files := w.files[r.uid := []]) else w;
    FinishAfterStep(h, w, r, BuildOpen(own), w', Measure(own, 0, |hs|, Stream(0, []), Zeros(INITIAL_BUFFER)));
  }

  /** From `build` on: what is left of `Serve` once every digest is recorded. */
  lemma FinishReady(h: Digest, w: World, r: Request, own: nat, hs: seq<string>)
    requires Alive(w, r.uid, own) && SlotOf(w, r.uid) == Live(hs) && AllSet(hs)
    ensures Finish(h, w, r, BuildOpen(own)) ==
            var built := Built(w.files, r.uid, |hs|, r.outputOpens);
            if !Complete(w.files, r.uid, |hs|) then (w.(files := built), Threw)
            else (w.(files := Cleared(built, r.uid, |hs|), slots := w.slots - {r.uid},
                     calls := if w.listening then w.calls + [r.uid] else w.calls), Returned)
  {
    var w1 := if r.outputOpens then w.(files := w.files[r.uid := []]) else w;
    var w2 := w.(files := Built(w.files, r.uid, |hs|, r.outputOpens));
    hide Finish, Step, Gather, Complete, CompleteFrom, AppendTo, Built, Cleared, Alive;
    FinishOpen(h, w, r, own, hs);
    FinishBuild(h, w1, r, own, 0, |hs|, Stream(0, []), Zeros(INITIAL_BUFFER));
    AppendedIsBuilt(w, w1, r, |hs|);
    FinishDelete(h, w2, r, own);
  }

  /** Appending all blocks to the emptied output, w1, is building. */
  lemma AppendedIsBuilt(w: World, w1: World, r: Request, n: nat)
    requires w1 == if r.outputOpens then w.(files := w.files[r.uid := []]) else w
    ensures AppendTo(w1, r, [] + Gather(w1.files, r.uid, 0, n)) == w.(files := Built(w.files, r.uid, n, r.outputOpens))
    ensures Complete(w.files, r.uid, n) <==> CompleteFrom(w1.files, r.uid, 0, n)
  {
    forall k: nat ensures BlockName(r.uid, k) != r.uid { BlockNameInjective(r.uid, k, k); }
    GatherDepends(w.files, w1.files, r.uid, 0, n);
    assert [] + ([] + Gather(w.files, r.uid, 0, n)) == Gather(w.files, r.uid, 0, n);
  }

  /** The step-by-step task and the one-transition task are the same function. */
  lemma FinishIsServe(h: Digest, w: World, r: Request)
    ensures Finish(h, w, r, Get) == Serve(h, w, r)
  {
    hide Finish;
    var u := r.uid;
    var (w1, pc1) := Step(h, w, r, Get);
    FinishAfterStep(h, w, r, Get, w1, pc1);
    if pc1.End? {
      FinishAtEnd(h, w1, r, Threw);
    } else {
      FinishChecked(h, w1, r, pc1.own, SlotOf(w1, u).hashes);
    }
  }

  /** The look at the digests. */
  lemma FinishLook(h: Digest, w: World, r: Request, own: nat, hs: seq<string>)
    requires Alive(w, r.uid, own) && SlotOf(w, r.uid) == Live(hs)
    ensures Finish(h, w, r, Ready(own)) ==
            if AllSet(hs) then Finish(h, w, r, BuildOpen(own)) else (w, Returned)
  {
    hide Finish, AllSet;
    FinishAfterStep(h, w, r, Ready(own), w, if AllSet(hs) then BuildOpen(own) else End(Returned));
    FinishAtEnd(h, w, r, Returned);
  }

  /** The task from the digest comparison on. */
  lemma FinishChecked(h: Digest, w: World, r: Request, own: nat, hs: seq<string>)
    requires Alive(w, r.uid, own) && SlotOf(w, r.uid) == Live(hs)
    ensures Finish(h, w, r, Check(own)) == ServeLive(h, w, r, hs)
  {
    hide Finish, Built, Cleared, Complete, AllSet, BuildStep, WriteStep, GetStep, DeleteStep;
    var u := r.uid;
    assert w.slots[u := Live(hs)] == w.slots;
    var (w1, pc1) := Step(h, w, r, Check(own));
    FinishAfterStep(h, w, r, Check(own), w1, pc1);
    if !(1 <= r.idx <= |hs|) {
      FinishAtEnd(h, w, r, Undefined);
    } else {
      var p := PushBlock(h, hs, w.files, u, r.idx, r.value, r.blockOpens);
      var w2 := w.(files := p.files, slots := w.slots[u := Live(p.hs)]);
      if pc1.Open? {
        FinishWrite(h, w, r, own, hs);
      }
      if !p.ok {
        FinishAtEnd(h, w, r, Threw);
      } else {
        FinishLook(h, w2, r, own, p.hs);
        if AllSet(p.hs) {
          FinishReady(h, w2, r, own, p.hs);
          assert w2.slots - {u} == w.slots - {u};
        }
      }
    }
  }

  lemma WriteSteps(h: Digest, w: World, r: Request, own: nat, sum: string, hs: seq<string>)
      returns (w1: World, w2: World, w3: World)
    requires Alive(w, r.uid, own) && SlotOf(w, r.uid) == Live(hs) && 1 <= r.idx <= |hs| && r.blockOpens
    ensures Step(h, w, r, Open(own, sum)) == (w1, Fill(own, sum))
    ensures Step(h, w1, r, Fill(own, sum)) == (w2, Mark(own, sum))
    ensures Step(h, w2, r, Mark(own, sum)) == (w3, Ready(own))
    ensures w3 == w.(files := w.files[BlockName(r.uid, r.idx) := r.value],
                     slots := w.slots[r.uid := Live(hs[r.idx - 1 := sum])])
  {
    FillEmpty(h, w.(files := w.files[BlockName(r.uid, r.idx) := []]), r, own, sum);
    hide WriteAt, BuildStep, BlockName, AllSet, Closer;
    var name := BlockName(r.uid, r.idx);
    w1 := w.(files := w.files[name := []]);
    w2 := w.(files := w.files[name := r.value]);
    w3 := w2.(slots := w.slots[r.uid := Live(hs[r.idx - 1 := sum])]);
    assert w1.files[name := r.value] == w2.files;
  }

  lemma FillEmpty(h: Digest, w: World, r: Request, own: nat, sum: string)
    requires BlockName(r.uid, r.idx) in w.files && w.files[BlockName(r.uid, r.idx)] == []
    ensures Step(h, w, r, Fill(own, sum)) ==
            (w.(files := w.files[BlockName(r.uid, r.idx) := r.value]), Mark(own, sum))
  {
    hide WriteAt, BlockName, Closer;
    WriteAtEnd([], r.value);
    assert [] + r.value == r.value;
  }

  /** Opening, filling and recording a block. */
  lemma FinishWrite(h: Digest, w: World, r: Request, own: nat, hs: seq<string>)
    requires Alive(w, r.uid, own) && SlotOf(w, r.uid) == Live(hs) && 1 <= r.idx <= |hs|
    ensures var w' := w.(files := w.files[BlockName(r.uid, r.idx) := r.value],
                         slots := w.slots[r.uid := Live(hs[r.idx - 1 := h(r.value)])]);
            Finish(h, w, r, Open(own, h(r.value))) ==
            if r.blockOpens then Finish(h, w', r, Ready(own)) else (w, Threw)
  {
    hide Finish;
    var sum := h(r.value);
    if r.blockOpens {
      var w1, w2, w3 := WriteSteps(h, w, r, own, sum, hs);
      hide Step;
      FinishAfterStep(h, w, r, Open(own, sum), w1, Fill(own, sum));
      FinishAfterStep(h, w1, r, Fill(own, sum), w2, Mark(own, sum));
      FinishAfterStep(h, w2, r, Mark(own, sum), w3, Ready(own));
    } else {
      FinishAfterStep(h, w, r, Open(own, sum), w, End(Threw));
      FinishAtEnd(h, w, r, Threw);
    }
  }
}
