/** The table of sessions: one builder per uid, created on the first push, deleted when its file is built. */
module UploadControl {
  import opened Names
  import opened Storage
  import opened BlockStore
  import opened FileBuilding
  import opened Tasks

  class UploadController {
    const dir: Directory
    const sha: Digest
    const listening: bool
    var builders: map<Uid, FileBuilder?>
    var calls: seq<Uid>
    ghost var slots: map<Uid, Slot>  // what the table holds, as values
    ghost var births: map<Uid, nat>  // how many builders have been made for each uid
    ghost var vectors: set<object>  // the digest vectors of all builders made so far

    constructor (dir: Directory, sha: Digest, listening: bool)
      ensures this.dir == dir && this.sha == sha && Valid()
      ensures State() == World(dir.files, map[], map[], [], listening)
    {
      this.dir, this.sha, this.listening := dir, sha, listening;
      builders, calls, slots, births, vectors := map[], [], map[], map[], {};
    }

    /** Every builder belongs to its key; no two share a digest vector. */
    ghost predicate Owned()
      reads this
    {
      && (forall u | u in builders && builders[u] != null ::
            && builders[u].Valid() && builders[u].fileName == u && builders[u].dir == dir && builders[u].sha == sha
            && builders[u].hashes in vectors)
      && (forall u, v | u in builders && v in builders && u != v && builders[u] != null && builders[v] != null ::
            builders[u].hashes != builders[v].hashes)
    }

    ghost predicate Valid()
      reads this, vectors
    {
      && Owned()
      && slots.Keys == builders.Keys
      && forall u | u in builders :: slots[u] == if builders[u] == null then Null else Live(builders[u].hashes[..])
    }

    ghost function Made(uid: Uid): nat
      reads this
    {
      if uid in births then births[uid] else 0
    }

    ghost function State(): World
      reads this, dir
    {
      World(dir.files, slots, births, calls, listening)
    }

    /** Looks the builder up under the table lock, constructing it if there is none. Subscripting the table
        inserts an empty pointer, which stays there when the construction throws. */
    method GetFileBuilder(uid: Uid, total: BlockCount, constructs: bool) returns (b: FileBuilder?)
      requires Valid()
      modifies this`builders, this`slots, this`births, this`vectors
      ensures Valid() && fresh(vectors - old(vectors))
      ensures b == null <==> SlotOf(old(State()), uid).Null? && !constructs
      ensures b != null ==> uid in builders && builders[uid] == b
      ensures slots == old(slots)[uid := if SlotOf(old(State()), uid).Live? then SlotOf(old(State()), uid)
                                         else if constructs then Live(Blank(total)) else Null]
      ensures births == if SlotOf(old(State()), uid).Null? && constructs
                        then old(births)[uid := old(Made(uid)) + 1] else old(births)
    {
      hide Owned, Blank;
      if uid !in builders {
        InsertNull(uid);
      }
      b := builders[uid];
      if b == null && constructs {
        b := InsertBuilder(uid, total);
        assert slots == old(slots)[uid := Live(Blank(total))];
      } else {
        assert slots == old(slots)[uid := SlotOf(old(State()), uid)];
      }
    }

    method InsertNull(uid: Uid)
      requires Valid() && uid !in builders
      modifies this`builders, this`slots
      ensures Valid() && vectors == old(vectors)
      ensures builders == old(builders)[uid := null] && slots == old(slots)[uid := Null]
    {
      builders, slots := builders[uid := null], slots[uid := Null];
    }

    method InsertBuilder(uid: Uid, total: BlockCount) returns (b: FileBuilder)
      requires Valid() && uid in builders && builders[uid] == null
      modifies this`builders, this`slots, this`births, this`vectors
      ensures Valid() && fresh(b.hashes) && vectors == old(vectors) + {b.hashes}
      ensures builders == old(builders)[uid := b] && slots == old(slots)[uid := Live(Blank(total))]
      ensures births == old(births)[uid := old(Made(uid)) + 1]
    {
      births := births[uid := Made(uid) + 1];
      b := new FileBuilder(uid, total, dir, sha);
      builders, slots := builders[uid := b], slots[uid := Live(Blank(total))];
      vectors := vectors + {b.hashes};
    }

    /** Takes the builder out of the table; its destructor then removes its block files. */
    method DeleteFileBuilder(uid: Uid)
      requires Valid()
      modifies this`builders, this`slots, dir
      ensures Valid() && vectors == old(vectors)
      ensures slots == old(slots) - {uid}
      ensures dir.files == if SlotOf(old(State()), uid).Live?
                           then Cleared(old(dir.files), uid, |SlotOf(old(State()), uid).hashes|) else old(dir.files)
    {
      var target: FileBuilder? := if uid in builders then builders[uid] else null;
      builders, slots := builders - {uid}, slots - {uid};
      if target != null {
        target.Clear();
      }
    }

    method PushToBuilder(b: FileBuilder, r: Request) returns (ok: bool)
      requires Valid() && r.uid in builders && builders[r.uid] == b && 1 <= r.idx <= b.total
      modifies this`slots, dir, b.hashes
      ensures Valid()
      ensures Push(b.hashes[..], dir.files, ok) ==
              BlockStore.PushBlock(sha, old(b.hashes[..]), old(dir.files), r.uid, r.idx, r.value, r.blockOpens)
      ensures slots == old(slots)[r.uid := Live(b.hashes[..])]
      ensures !ok ==> slots == old(slots) && dir.files == old(dir.files)
    {
      ok := b.PushBlock(r.idx, r.value, r.blockOpens);
      slots := slots[r.uid := Live(b.hashes[..])];
    }

    /** One upload request, run to its end without interference, is exactly the transition `Serve`.
        The source demands the block number of its caller only by an assertion: out of range is `Undefined`. */
    method PushBlock(r: Request) returns (outcome: Outcome)
      requires Valid()
      modifies this, dir, vectors
      ensures Valid() && fresh(vectors - old(vectors))
      ensures (State(), outcome) == Serve(sha, old(State()), r)
    {
      var b := GetFileBuilder(r.uid, r.total, r.constructs);
      if b == null {
        return Threw;
      }
      ghost var hs := b.hashes[..];
      assert slots[r.uid] == Live(hs);
      assert State() == WithBuilder(old(State()), r);
      outcome := UseBuilder(b, r);
    }

    /** The request from the push on. */
    method UseBuilder(b: FileBuilder, r: Request) returns (outcome: Outcome)
      requires Valid() && r.uid in builders && builders[r.uid] == b
      modifies this, dir, b.hashes
      ensures Valid() && vectors == old(vectors)
      ensures (State(), outcome) == ServeLive(sha, old(State()), r, old(b.hashes[..]))
    {
      if !(1 <= r.idx <= b.total) {
        return Undefined;
      }
      var ok := PushToBuilder(b, r);
      ghost var p := BlockStore.PushBlock(sha, old(b.hashes[..]), old(dir.files), r.uid, r.idx, r.value, r.blockOpens);
      if !ok {
        assert State() == old(State());
        return Threw;
      }
      assert State() == old(State()).(files := p.files, slots := old(slots)[r.uid := Live(p.hs)]);
      var ready := b.IsReady();
      if !ready {
        return Returned;
      }
      assert old(slots)[r.uid := Live(p.hs)] - {r.uid} == old(slots) - {r.uid};
      outcome := BuildAndDelete(b, r.uid, r.outputOpens);
    }

    /** The rest of the request once every block is there. */
    method BuildAndDelete(b: FileBuilder, uid: Uid, outputOpens: bool) returns (outcome: Outcome)
      requires Valid() && uid in builders && builders[uid] == b
      modifies this, dir
      ensures Valid() && vectors == old(vectors)
      ensures var before, n := old(State()), |b.hashes[..]|;
              var built := Built(before.files, uid, n, outputOpens);
              (State(), outcome) ==
              if !Complete(before.files, uid, n) then (before.(files := built), Threw)
              else (before.(files := Cleared(built, uid, n), slots := before.slots - {uid},
                            calls := if listening then before.calls + [uid] else before.calls), Returned)
    {
      var built := b.Build(outputOpens);
      if !built {
        return Threw;
      }
      DeleteFileBuilder(uid);
      if listening {
        calls := calls + [uid];
      }
      return Returned;
    }
  }
}
