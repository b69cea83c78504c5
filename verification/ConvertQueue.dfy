/** The conversion queue: any number of producers, one consumer with a condition variable, a destructor. */
module ConvertQueue {

  datatype Job = Job(path: string, filename: string)

  /** The consumer holds the queue lock in Testing, Dozing and Deciding; `Dozing` has found the predicate
      false and is about to release the lock and sleep, which is one step; `Relocking` wants the lock back. */
  datatype Consumer =
    | Locking
    | Testing
    | Dozing
    | Asleep
    | Relocking
    | Deciding
    | Converting(job: Job)
    | Exited

  /** A producer emplaces its job in one critical section and notifies after leaving it. */
  datatype Producer = Wanting(job: Job) | Emplaced | Finished

  /** The destructor sets the flag, notifies, and waits for the consumer, all without the lock. */
  datatype Destructor = NotCalled | StopSet | Notified | Joined

  /** `enqueued` and `handed` record every job emplaced and every job handed to conversion. */
  datatype Queue = Queue(queue: seq<Job>, stop: bool, consumer: Consumer, producers: map<nat, Producer>,
                         destructor: Destructor, enqueued: seq<Job>, handed: seq<Job>)

  datatype Move =
    | Call(p: nat, job: Job)
    | Emplace(p: nat)
    | Notify(p: nat)
    | Consume
    | Spurious
    | SetStop
    | NotifyStop
    | Join

  const INITIAL: Queue := Queue([], false, Locking, map[], NotCalled, [], [])

  predicate Locked(q: Queue) {
    q.consumer.Testing? || q.consumer.Dozing? || q.consumer.Deciding?
  }

  predicate Enabled(q: Queue, m: Move) {
    match m
    case Call(p, _) => p !in q.producers
    case Emplace(p) => p in q.producers && q.producers[p].Wanting? && !Locked(q)
    case Notify(p) => p in q.producers && q.producers[p].Emplaced?
    case Consume => !q.consumer.Asleep? && !q.consumer.Exited?
    case Spurious => q.consumer.Asleep?
    case SetStop => q.destructor.NotCalled?
    case NotifyStop => q.destructor.StopSet?
    case Join => q.destructor.Notified? && q.consumer.Exited?
  }

  function Woken(c: Consumer): Consumer {
    if c.Asleep? then Relocking else c
  }

  /** One step of the consumer's loop. It never finds an empty queue to pop: see `Invariant` on Deciding. */
  function ConsumerStep(q: Queue): Queue
    requires !q.consumer.Asleep? && !q.consumer.Exited?
  {
    match q.consumer
    case Locking => q.(consumer := Testing)
    case Relocking => q.(consumer := Testing)
    case Testing => q.(consumer := if q.queue != [] || q.stop then Deciding else Dozing)
    case Dozing => q.(consumer := Asleep)
    case Deciding =>
      if q.stop && q.queue == [] then q.(consumer := Exited)
      else if q.queue == [] then q.(consumer := Testing)
      else q.(queue := q.queue[1..], consumer := Converting(q.queue[0]))
    case Converting(job) => q.(handed := q.handed + [job], consumer := Locking)
  }

  function Apply(q: Queue, m: Move): Queue
    requires Enabled(q, m)
  {
    match m
    case Call(p, job) => q.(producers := q.producers[p := Wanting(job)])
    case Emplace(p) =>
      var job := q.producers[p].job;
      q.(queue := q.queue + [job], enqueued := q.enqueued + [job], producers := q.producers[p := Emplaced])
    case Notify(p) => q.(consumer := Woken(q.consumer), producers := q.producers[p := Finished])
    case Consume => ConsumerStep(q)
    case Spurious => q.(consumer := Relocking)
    case SetStop => q.(stop := true, destructor := StopSet)
    case NotifyStop => q.(consumer := Woken(q.consumer), destructor := Notified)
    case Join => q.(destructor := Joined)
  }

  predicate Allowed(q: Queue, ms: seq<Move>)
    decreases |ms|
  {
    ms == [] || (Enabled(q, ms[0]) && Allowed(Apply(q, ms[0]), ms[1..]))
  }

  function After(q: Queue, ms: seq<Move>): Queue
    requires Allowed(q, ms)
    decreases |ms|
  {
    if ms == [] then q else After(Apply(q, ms[0]), ms[1..])
  }

  /** The job popped but not handed to conversion yet. */
  function InHand(c: Consumer): seq<Job> {
    if c.Converting? then [c.job] else []
  }

  predicate MidCall(q: Queue) {
    exists p | p in q.producers :: q.producers[p].Emplaced?
  }

  ghost predicate Invariant(q: Queue) {
    && q.enqueued == q.handed + InHand(q.consumer) + q.queue
    && (q.consumer.Asleep? && q.queue != [] ==> MidCall(q))
    && (q.consumer.Dozing? ==> q.queue == [])
    && (q.consumer.Deciding? ==> q.queue != [] || q.stop)
    && (q.stop <==> !q.destructor.NotCalled?)
    && (q.consumer.Exited? ==> q.stop)
  }

  lemma StepKeepsInvariant(q: Queue, m: Move)
    requires Invariant(q) && Enabled(q, m)
    ensures Invariant(Apply(q, m))
  {
    var q' := Apply(q, m);
    match m {
      case Consume =>
        if q.consumer.Deciding? && q.queue != [] {
          assert q.queue == [q.queue[0]] + q.queue[1..];
        }
      case Emplace(p) =>
        assert q'.producers[p].Emplaced?;
      case Call(p, _) =>
        if MidCall(q) {
          var k :| k in q.producers && q.producers[k].Emplaced?;
          assert q'.producers[k].Emplaced?;
        }
      case _ =>
    }
  }

  lemma {:induction false} RunKeepsInvariant(q: Queue, ms: seq<Move>)
    requires Invariant(q) && Allowed(q, ms)
    ensures Invariant(After(q, ms))
    decreases |ms|
  {
    if ms != [] {
      StepKeepsInvariant(q, ms[0]);
      RunKeepsInvariant(Apply(q, ms[0]), ms[1..]);
    }
  }

  /** The jobs that a run emplaces, read off its moves alone: for every Emplace the job its producer called with. */
  function EmplacedBy(ms: seq<Move>, wanted: map<nat, Job>): seq<Job> {
    if ms == [] then []
    else
      match ms[0]
      case Call(p, job) => EmplacedBy(ms[1..], wanted[p := job])
      case Emplace(p) => (if p in wanted then [wanted[p]] else []) + EmplacedBy(ms[1..], wanted)
      case _ => EmplacedBy(ms[1..], wanted)
  }

  ghost predicate KnowsWanted(q: Queue, wanted: map<nat, Job>) {
    forall p | p in q.producers && q.producers[p].Wanting? :: p in wanted && wanted[p] == q.producers[p].job
  }

  lemma {:induction false} EnqueuedIsEmplaced(q: Queue, ms: seq<Move>, wanted: map<nat, Job>)
    requires Allowed(q, ms) && KnowsWanted(q, wanted)
    ensures After(q, ms).enqueued == q.enqueued + EmplacedBy(ms, wanted)
    decreases |ms|
  {
    if ms != [] {
      var q' := Apply(q, ms[0]);
      match ms[0] {
        case Call(p, job) => EnqueuedIsEmplaced(q', ms[1..], wanted[p := job]);
        case Emplace(p) =>
          EnqueuedIsEmplaced(q', ms[1..], wanted);
          assert q.enqueued + ([wanted[p]] + EmplacedBy(ms[1..], wanted)) ==
                 q.enqueued + [wanted[p]] + EmplacedBy(ms[1..], wanted);
        case _ => EnqueuedIsEmplaced(q', ms[1..], wanted);
      }
    }
  }

  /** No job is dropped, duplicated, reordered or replaced, whatever the producers do: the jobs handed over, in hand and
      queued are those that the producers called with, in the order in which they emplaced them. */
  lemma FifoConservation(ms: seq<Move>)
    requires Allowed(INITIAL, ms)
    ensures var q := After(INITIAL, ms);
            q.handed + InHand(q.consumer) + q.queue == q.enqueued == EmplacedBy(ms, map[])
  {
    RunKeepsInvariant(INITIAL, ms);
    EnqueuedIsEmplaced(INITIAL, ms, map[]);
  }

  /** If the consumer sleeps beside a non-empty queue, a producer has emplaced its job and is still to notify. */
  lemma NoLostWakeup(ms: seq<Move>)
    requires Allowed(INITIAL, ms)
    ensures var q := After(INITIAL, ms);
            q.consumer.Asleep? && !MidCall(q) ==> q.queue == []
  {
    RunKeepsInvariant(INITIAL, ms);
  }

  /** The consumer returns only when it was told to stop and every job enqueued so far has been converted. */
  lemma DrainsBeforeExit(ms: seq<Move>, m: Move)
    requires Allowed(INITIAL, ms) && Enabled(After(INITIAL, ms), m)
    requires !After(INITIAL, ms).consumer.Exited? && Apply(After(INITIAL, ms), m).consumer.Exited?
    ensures var q := After(INITIAL, ms); q.stop && q.queue == [] && q.handed == q.enqueued
  {
    RunKeepsInvariant(INITIAL, ms);
  }

  /** The consumer's own steps. */
  function Consumes(ms: seq<Move>): nat {
    if ms == [] then 0 else (if ms[0].Consume? then 1 else 0) + Consumes(ms[1..])
  }

  /** The consumer neither sleeps, nor is about to, nor has returned. */
  predicate Awake(q: Queue) {
    !q.consumer.Asleep? && !q.consumer.Dozing? && !q.consumer.Exited?
  }

  /** Steps of the consumer until it hands over the job with k jobs before it in the queue. */
  function StepsToHand(c: Consumer, k: nat): nat
    requires !c.Asleep? && !c.Dozing? && !c.Exited?
  {
    match c
    case Deciding => 2 + 4 * k
    case Testing => 3 + 4 * k
    case Locking => 4 + 4 * k
    case Relocking => 4 + 4 * k
    case Converting(_) => 5 + 4 * k
  }

  /** The same for the job enqueued as number p: none if it has been handed over, one if it is in hand. */
  function StepsDue(q: Queue, p: nat): nat
    requires p < |q.handed| || Awake(q)
  {
    if p < |q.handed| then 0
    else if p < |q.handed| + |InHand(q.consumer)| then 1
    else StepsToHand(q.consumer, p - |q.handed| - |InHand(q.consumer)|)
  }

  lemma StepDue(q: Queue, m: Move, p: nat)
    requires Invariant(q) && Enabled(q, m) && |q.handed| <= p < |q.enqueued| && Awake(q)
    ensures var q' := Apply(q, m);
            && p < |q'.enqueued| && (p < |q'.handed| || Awake(q'))
            && StepsDue(q', p) + (if m.Consume? then 1 else 0) == StepsDue(q, p)
  {
  }

  lemma HandedGrows(q: Queue, m: Move)
    requires Enabled(q, m)
    ensures q.handed <= Apply(q, m).handed && q.enqueued <= Apply(q, m).enqueued
  {
  }

  lemma {:induction false} DueIff(q: Queue, ms: seq<Move>, p: nat)
    requires Invariant(q) && Allowed(q, ms) && p < |q.enqueued| && (p < |q.handed| || Awake(q))
    ensures p < |After(q, ms).handed| <==> Consumes(ms) >= StepsDue(q, p)
    ensures q.enqueued <= After(q, ms).enqueued
    decreases |ms|
  {
    hide Invariant, Awake, StepsDue, Apply, Enabled;
    if ms == [] {
      DueAtOnceIff(q, p);
    } else {
      var q' := Apply(q, ms[0]);
      StepKeepsInvariant(q, ms[0]);
      HandedGrows(q, ms[0]);
      DueAtOnceIff(q, p);
      if p >= |q.handed| {
        StepDue(q, ms[0], p);
      } else {
        DueAtOnceIff(q', p);
      }
      DueIff(q', ms[1..], p);
    }
  }

  lemma DueAtOnceIff(q: Queue, p: nat)
    requires p < |q.handed| || Awake(q)
    ensures StepsDue(q, p) == 0 <==> p < |q.handed|
  {
  }

  /** Progress, stopped or not: the job at place k of the queue has been handed over exactly when the awake consumer
      has made StepsToHand steps, whatever producers and destructor do in between. */
  lemma HandedIff(q: Queue, ms: seq<Move>, k: nat)
    requires Invariant(q) && Awake(q) && Allowed(q, ms) && k < |q.queue|
    ensures var end, p := After(q, ms), |q.handed| + |InHand(q.consumer)| + k;
            && (p < |end.handed| <==> Consumes(ms) >= StepsToHand(q.consumer, k))
            && (p < |end.handed| ==> end.handed[p] == q.queue[k])
  {
    var end, p := After(q, ms), |q.handed| + |InHand(q.consumer)| + k;
    DueIff(q, ms, p);
    RunKeepsInvariant(q, ms);
    assert q.enqueued[p] == q.queue[k];
    assert p < |end.handed| ==> end.handed[p] == end.enqueued[p];
  }

  /** Steps the consumer needs to exit once it is told to stop, if no more jobs come. */
  function StepsToExit(q: Queue): nat
    requires !q.consumer.Asleep?
  {
    match q.consumer
    case Exited => 0
    case Deciding => 1 + 4 * |q.queue|
    case Testing => 2 + 4 * |q.queue|
    case Locking => 3 + 4 * |q.queue|
    case Relocking => 3 + 4 * |q.queue|
    case Converting(_) => 4 + 4 * |q.queue|
    case Dozing => 0
  }

  /** Told to stop and past the point of falling asleep. */
  predicate Stopping(q: Queue) {
    q.stop && !q.consumer.Asleep? && !q.consumer.Dozing?
  }

  /** The jobs emplaced while the consumer is still there. */
  function Arrivals(q: Queue, ms: seq<Move>): nat
    requires Allowed(q, ms)
    decreases |ms|
  {
    if ms == [] then 0
    else (if ms[0].Emplace? && !q.consumer.Exited? then 1 else 0) + Arrivals(Apply(q, ms[0]), ms[1..])
  }

  lemma StepDrains(q: Queue, m: Move)
    requires Invariant(q) && Stopping(q) && Enabled(q, m)
    ensures var q' := Apply(q, m);
            && Stopping(q')
            && StepsToExit(q') + (if m.Consume? then 1 else 0) ==
               StepsToExit(q) + (if m.Emplace? && !q.consumer.Exited? then 4 else 0)
  {
  }

  /** Once stop is set and the consumer is awake, the distance to its exit shrinks with every step of its own and
      grows by four with every job that still arrives, whatever producers and destructor do in between. */
  lemma {:induction false} StopDrains(q: Queue, ms: seq<Move>)
    requires Invariant(q) && Stopping(q) && Allowed(q, ms)
    ensures Stopping(After(q, ms))
    ensures StepsToExit(After(q, ms)) + Consumes(ms) == StepsToExit(q) + 4 * Arrivals(q, ms)
    decreases |ms|
  {
    hide Invariant, Stopping, StepsToExit, Apply, Enabled;
    if ms != [] {
      StepDrains(q, ms[0]);
      StepKeepsInvariant(q, ms[0]);
      StopDrains(Apply(q, ms[0]), ms[1..]);
    }
  }

  /** So it has exited exactly when it has made that many steps, and by then it has handed over, in order, every
      job enqueued before and every job that arrived in time, and no other. */
  lemma StopExitsIff(q: Queue, ms: seq<Move>)
    requires Invariant(q) && Stopping(q) && !q.consumer.Exited? && Allowed(q, ms)
    ensures var end := After(q, ms);
            && (end.consumer.Exited? <==> Consumes(ms) == StepsToExit(q) + 4 * Arrivals(q, ms))
            && (end.consumer.Exited? ==> end.handed <= end.enqueued && |end.handed| == |q.enqueued| + Arrivals(q, ms))
  {
    StopDrains(q, ms);
    RunKeepsInvariant(q, ms);
    ArrivalsCount(q, ms);
  }

  /** The jobs that have been or will be handed over: all, until the consumer has exited. */
  function Served(q: Queue): nat {
    if q.consumer.Exited? then |q.handed| else |q.enqueued|
  }

  lemma {:induction false} ArrivalsCount(q: Queue, ms: seq<Move>)
    requires Invariant(q) && Allowed(q, ms)
    ensures Served(After(q, ms)) == Served(q) + Arrivals(q, ms)
    decreases |ms|
  {
    if ms != [] {
      StepKeepsInvariant(q, ms[0]);
      ArrivalsCount(Apply(q, ms[0]), ms[1..]);
    }
  }

  /** Stop set, notification sent, consumer not about to sleep: it never sleeps again. */
  lemma {:induction false} StaysAwake(q: Queue, ms: seq<Move>)
    requires q.stop && !q.consumer.Asleep? && !q.consumer.Dozing? && Allowed(q, ms)
    ensures !After(q, ms).consumer.Asleep? && !After(q, ms).consumer.Dozing?
    decreases |ms|
  {
    if ms != [] {
      assert Apply(q, ms[0]).stop;
      StaysAwake(Apply(q, ms[0]), ms[1..]);
    }
  }

  /** Some run from q ends with the consumer asleep. */
  ghost predicate CanSleep(q: Queue) {
    exists ms :: Allowed(q, ms) && After(q, ms).consumer.Asleep?
  }

  /** The destructor notifies without the lock, so its notification can fall between the consumer's test and
      its sleep. That is the only way to lose it: after the notification the consumer can be found asleep
      exactly if it was about to sleep when the notification was sent. */
  lemma StopWakeupLostIff(q: Queue)
    requires q.stop && Enabled(q, NotifyStop)
    ensures CanSleep(Apply(q, NotifyStop)) <==> q.consumer.Dozing?
  {
    var q' := Apply(q, NotifyStop);
    if q.consumer.Dozing? {
      var ms := [Consume];
      assert ms[1..] == [];
      assert Enabled(q', ms[0]) && Allowed(Apply(q', ms[0]), []);
      assert Allowed(q', ms) && After(q', ms) == Apply(q', Consume);
    } else {
      forall ms | Allowed(q', ms) ensures !After(q', ms).consumer.Asleep? {
        StaysAwake(q', ms);
      }
    }
  }

  lemma PrependMove(q: Queue, m: Move, rest: seq<Move>)
    requires Enabled(q, m) && Allowed(Apply(q, m), rest)
    ensures Allowed(q, [m] + rest) && After(q, [m] + rest) == After(Apply(q, m), rest)
  {
    assert ([m] + rest)[1..] == rest;
  }

  lemma {:induction false} JoinRuns(q: Queue, ms: seq<Move>, rest: seq<Move>)
    requires Allowed(q, ms) && Allowed(After(q, ms), rest)
    ensures Allowed(q, ms + rest) && After(q, ms + rest) == After(After(q, ms), rest)
    decreases |ms|
  {
    if ms == [] {
      assert ms + rest == rest;
    } else {
      JoinRuns(Apply(q, ms[0]), ms[1..], rest);
      assert (ms + rest)[1..] == ms[1..] + rest;
    }
  }

  /** Moves of the consumer, and notifications already due. */
  predicate Delivering(ms: seq<Move>) {
    forall i | 0 <= i < |ms| :: ms[i].Consume? || ms[i].Notify?
  }

  /** What such moves leave alone. */
  predicate SameCalls(q: Queue, e: Queue) {
    && e.enqueued == q.enqueued && e.stop == q.stop && e.destructor == q.destructor
    && e.producers.Keys == q.producers.Keys
    && forall p | p in q.producers && !q.producers[p].Emplaced? :: e.producers[p] == q.producers[p]
  }

  /** From an awake consumer. */
  lemma {:induction false} AwakeHands(q: Queue) returns (ms: seq<Move>)
    requires Invariant(q) && Awake(q) && q.queue != []
    ensures Allowed(q, ms) && Delivering(ms) && SameCalls(q, After(q, ms))
    ensures var e := After(q, ms);
            && Invariant(e) && Awake(e) && !e.consumer.Converting?
            && e.handed == q.handed + InHand(q.consumer) + [q.queue[0]] && e.queue == q.queue[1..]
    decreases StepsToHand(q.consumer, 0)
  {
    var next := Apply(q, Consume);
    StepKeepsInvariant(q, Consume);
    if q.consumer.Deciding? {
      StepKeepsInvariant(next, Consume);
      PrependMove(next, Consume, []);
      PrependMove(q, Consume, [Consume]);
      ms := [Consume] + [Consume];
    } else {
      var rest := AwakeHands(next);
      PrependMove(q, Consume, rest);
      ms := [Consume] + rest;
    }
  }

  /** Progress from every reachable state: as long as the consumer has not returned, the first job of the queue can be
      handed over by notifications already due and the consumer's own moves. A sleeping consumer beside a job can be
      woken by the producer that is still to notify. */
  lemma HandsNext(q: Queue) returns (ms: seq<Move>)
    requires Invariant(q) && !q.consumer.Exited? && q.queue != []
    ensures Allowed(q, ms) && Delivering(ms) && SameCalls(q, After(q, ms))
    ensures var e := After(q, ms);
            && Invariant(e) && Awake(e) && !e.consumer.Converting?
            && e.handed == q.handed + InHand(q.consumer) + [q.queue[0]] && e.queue == q.queue[1..]
  {
    if q.consumer.Asleep? {
      var p :| p in q.producers && q.producers[p].Emplaced?;
      StepKeepsInvariant(q, Notify(p));
      var rest := AwakeHands(Apply(q, Notify(p)));
      PrependMove(q, Notify(p), rest);
      ms := [Notify(p)] + rest;
    } else {
      ms := AwakeHands(q);
    }
  }

  /** So can all jobs enqueued so far. */
  lemma {:induction false} HandsAll(q: Queue) returns (ms: seq<Move>)
    requires Invariant(q) && !q.consumer.Exited?
    ensures Allowed(q, ms) && Delivering(ms) && SameCalls(q, After(q, ms))
    ensures After(q, ms).handed == q.enqueued
    decreases |q.queue|
  {
    if q.queue != [] {
      var first := HandsNext(q);
      var e := After(q, first);
      var rest := HandsAll(e);
      JoinRuns(q, first, rest);
      ms := first + rest;
    } else if q.consumer.Converting? {
      PrependMove(q, Consume, []);
      ms := [Consume] + [];
    } else {
      ms := [];
    }
  }

  /** The consumer can always give up the lock. */
  lemma {:induction false} Unlocks(q: Queue) returns (ms: seq<Move>)
    requires Invariant(q)
    ensures Allowed(q, ms) && (forall i | 0 <= i < |ms| :: ms[i].Consume?)
    ensures var e := After(q, ms);
            && Invariant(e) && !Locked(e) && e.producers == q.producers && SameCalls(q, e)
            && (e.consumer.Exited? ==> q.consumer.Exited? || q.stop)
    decreases if q.consumer.Testing? then 2 else if Locked(q) then 1 else 0
  {
    if !Locked(q) {
      ms := [];
    } else {
      StepKeepsInvariant(q, Consume);
      var rest := Unlocks(Apply(q, Consume));
      PrependMove(q, Consume, rest);
      ms := [Consume] + rest;
    }
  }

  /** Every producer that has called can come to its end by the consumer's moves and its own, and its job is then the
      last one enqueued. */
  lemma ProducerFinishes(q: Queue, p: nat) returns (ms: seq<Move>)
    requires Invariant(q) && p in q.producers && q.producers[p].Wanting?
    ensures Allowed(q, ms)
    ensures forall i | 0 <= i < |ms| :: ms[i].Consume? || ms[i] == Emplace(p) || ms[i] == Notify(p)
    ensures var e := After(q, ms);
            && Invariant(e) && e.enqueued == q.enqueued + [q.producers[p].job] && e.stop == q.stop
            && e.producers == q.producers[p := Finished]
            && (e.consumer.Exited? ==> q.consumer.Exited? || q.stop)
  {
    var wait := Unlocks(q);
    var e := After(q, wait);
    var e1 := Apply(e, Emplace(p));
    StepKeepsInvariant(e, Emplace(p));
    StepKeepsInvariant(e1, Notify(p));
    PrependMove(e1, Notify(p), []);
    PrependMove(e, Emplace(p), [Notify(p)]);
    JoinRuns(q, wait, [Emplace(p)] + [Notify(p)]);
    ms := wait + ([Emplace(p)] + [Notify(p)]);
    assert q.producers[p := Emplaced][p := Finished] == q.producers[p := Finished];
  }

  /** A spurious wakeup beside an empty queue ends where it began. */
  lemma SpuriousHarmless(q: Queue)
    requires q.consumer.Asleep? && q.queue == [] && !q.stop
    ensures var ms := [Spurious, Consume, Consume, Consume]; Allowed(q, ms) && After(q, ms) == q
  {
    var q1 := Apply(q, Spurious);
    var q2 := Apply(q1, Consume);
    var q3 := Apply(q2, Consume);
    PrependMove(q3, Consume, []);
    PrependMove(q2, Consume, [Consume]);
    PrependMove(q1, Consume, [Consume, Consume]);
    PrependMove(q, Spurious, [Consume, Consume, Consume]);
    assert [Consume] + [] == [Consume] && [Consume] + [Consume] == [Consume, Consume];
    assert [Consume] + [Consume, Consume] == [Consume, Consume, Consume];
    assert [Spurious] + [Consume, Consume, Consume] == [Spurious, Consume, Consume, Consume];
  }

  /** Moves of the destructor and of the consumer. */
  predicate ShutdownMoves(ms: seq<Move>) {
    forall i | 0 <= i < |ms| :: ms[i].Consume? || ms[i].SetStop? || ms[i].NotifyStop? || ms[i].Join?
  }

  ghost predicate CanJoin(q: Queue) {
    exists ms :: Allowed(q, ms) && ShutdownMoves(ms) && After(q, ms).destructor.Joined?
  }

  /** The notification of the destructor has been spent on a consumer about to sleep. */
  predicate StopMissed(q: Queue) {
    q.destructor.Notified? && (q.consumer.Asleep? || q.consumer.Dozing?)
  }

  lemma CanJoinBefore(q: Queue, m: Move)
    requires Enabled(q, m) && CanJoin(Apply(q, m)) && (m.Consume? || m.SetStop? || m.NotifyStop? || m.Join?)
    ensures CanJoin(q)
  {
    var rest :| Allowed(Apply(q, m), rest) && ShutdownMoves(rest) && After(Apply(q, m), rest).destructor.Joined?;
    PrependMove(q, m, rest);
    assert ShutdownMoves([m] + rest);
  }

  /** Told to stop and notified in time, the consumer comes to its end, and the destructor with it. */
  lemma {:induction false} NotifiedJoins(q: Queue)
    requires Invariant(q) && q.destructor.Notified? && Stopping(q)
    ensures CanJoin(q)
    decreases StepsToExit(q)
  {
    var m := if q.consumer.Exited? then Join else Consume;
    StepKeepsInvariant(q, m);
    if q.consumer.Exited? {
      assert Allowed(Apply(q, Join), []) && ShutdownMoves([]) && After(Apply(q, Join), []).destructor.Joined?;
    } else {
      StepDrains(q, Consume);
      NotifiedJoins(Apply(q, Consume));
    }
    CanJoinBefore(q, m);
  }

  /** From the flag on: notify now, or first let the consumer fall asleep. */
  lemma StopSetJoins(q: Queue)
    requires Invariant(q) && q.destructor.StopSet?
    ensures CanJoin(q)
  {
    var ready := if q.consumer.Dozing? then Apply(q, Consume) else q;
    if q.consumer.Dozing? {
      StepKeepsInvariant(q, Consume);
    }
    StepKeepsInvariant(ready, NotifyStop);
    NotifiedJoins(Apply(ready, NotifyStop));
    CanJoinBefore(ready, NotifyStop);
    if q.consumer.Dozing? {
      CanJoinBefore(q, Consume);
    }
  }

  lemma {:induction false} MissedNeverJoins(q: Queue, ms: seq<Move>)
    requires StopMissed(q) && Allowed(q, ms) && ShutdownMoves(ms)
    ensures StopMissed(After(q, ms))
    decreases |ms|
  {
    if ms != [] {
      MissedNeverJoins(Apply(q, ms[0]), ms[1..]);
    }
  }

  /** The destructor can come to its end by its own moves and the consumer's, from every reachable state but those in
      which its notification was lost: there only another wakeup helps. */
  lemma JoinIff(q: Queue)
    requires Invariant(q) && !q.destructor.Joined?
    ensures CanJoin(q) <==> !StopMissed(q)
  {
    if StopMissed(q) {
      forall ms | Allowed(q, ms) && ShutdownMoves(ms) ensures !After(q, ms).destructor.Joined? {
        MissedNeverJoins(q, ms);
      }
    } else {
      match q.destructor {
        case NotCalled =>
          StepKeepsInvariant(q, SetStop);
          StopSetJoins(Apply(q, SetStop));
          CanJoinBefore(q, SetStop);
        case StopSet => StopSetJoins(q);
        case Notified => NotifiedJoins(q);
      }
    }
  }
}
