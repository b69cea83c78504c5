/** From the callback of an upload to its conversion: nothing is forgotten on the way. */
module Delivery {
  import opened Names
  import opened Storage
  import opened Tasks
  import opened Interleaving
  import opened Pipeline
  import Q = ConvertQueue

  /** The jobs that the callbacks announce, in order. */
  function JobsOf(calls: seq<Uid>): (jobs: seq<Q.Job>)
    ensures |jobs| == |calls| && forall i | 0 <= i < |calls| :: jobs[i] == Q.Job("/home/rayes/parts", calls[i])
  {
    seq(|calls|, i requires 0 <= i < |calls| => JobOf(calls[i]))
  }

  /** The producers that are still to emplace this job. */
  function WantingFor(producers: map<nat, Q.Producer>, job: Q.Job): set<nat> {
    set p | p in producers && producers[p] == Q.Wanting(job)
  }

  /** As many callbacks as there are such jobs: enqueued so far, or still to be emplaced. */
  ghost predicate Balanced(s: System, job: Q.Job) {
    multiset(JobsOf(s.c.w.calls))[job] == multiset(s.q.enqueued)[job] + |WantingFor(s.q.producers, job)|
  }

  lemma JobsOfAppend(calls: seq<Uid>, u: Uid)
    ensures JobsOf(calls + [u]) == JobsOf(calls) + [JobOf(u)]
  {
  }

  lemma CallBalanced(q: Q.Queue, p: nat, called: Q.Job, job: Q.Job)
    requires Q.Enabled(q, Q.Call(p, called))
    ensures var q' := Q.Apply(q, Q.Call(p, called));
            && q'.enqueued == q.enqueued
            && |WantingFor(q'.producers, job)| == |WantingFor(q.producers, job)| + if called == job then 1 else 0
  {
    var q' := Q.Apply(q, Q.Call(p, called));
    if called == job {
      assert WantingFor(q'.producers, job) == WantingFor(q.producers, job) + {p};
    } else {
      assert WantingFor(q'.producers, job) == WantingFor(q.producers, job);
    }
  }

  /** Moves of the queue but Call keep the balance. */
  lemma QueueBalanced(q: Q.Queue, qm: Q.Move, job: Q.Job)
    requires Q.Enabled(q, qm) && !qm.Call?
    ensures var q' := Q.Apply(q, qm);
            multiset(q'.enqueued)[job] + |WantingFor(q'.producers, job)| ==
            multiset(q.enqueued)[job] + |WantingFor(q.producers, job)|
  {
    var q' := Q.Apply(q, qm);
    if qm.Emplace? && q.producers[qm.p].job == job {
      assert WantingFor(q'.producers, job) == WantingFor(q.producers, job) - {qm.p};
    } else {
      assert WantingFor(q'.producers, job) == WantingFor(q.producers, job);
    }
  }

  lemma MoveBalanced(h: Digest, s: System, sm: SystemMove, job: Q.Job)
    requires Balanced(s, job) && SystemEnabled(s, sm)
    ensures Balanced(SystemApply(h, s, sm), job)
  {
    hide Step, Q.Apply;
    var s' := SystemApply(h, s, sm);
    match sm {
      case Upload(m) =>
        if m.Advance? {
          StepCalls(h, s.c.w, s.c.tasks[m.id].r, s.c.tasks[m.id].pc);
        }
        if CallsBack(s.c, m) {
          var u := s.c.tasks[m.id].r.uid;
          CallBalanced(s.q, m.id, JobOf(u), job);
          JobsOfAppend(s.c.w.calls, u);
        }
      case Convert(qm) => QueueBalanced(s.q, qm, job);
    }
  }

  lemma {:induction false} RunBalanced(h: Digest, cap: map<Uid, nat>, s: System, sms: seq<SystemMove>, job: Q.Job)
    requires Balanced(s, job) && SystemAllowed(h, cap, s, sms)
    ensures Balanced(SystemAfter(h, cap, s, sms), job)
    decreases |sms|
  {
    hide Balanced, SystemApply;
    if sms != [] {
      MoveBalanced(h, s, sms[0], job);
      RunBalanced(h, cap, SystemApply(h, s, sms[0]), sms[1..], job);
    }
  }

  /** A system that has announced nothing yet. */
  function Fresh(w0: World): System {
    System(Initial(w0), Q.INITIAL)
  }

  /** In every reachable state, whatever the uploads and the conversions do: each callback's job, counted with
      repetitions, has been handed over, is in hand or in the queue, or is still to be emplaced, exactly once. */
  lemma CallbacksDelivered(h: Digest, cap: map<Uid, nat>, w0: World, sms: seq<SystemMove>, job: Q.Job)
    requires w0.calls == [] && SystemAllowed(h, cap, Fresh(w0), sms)
    ensures var s := SystemAfter(h, cap, Fresh(w0), sms);
            multiset(JobsOf(s.c.w.calls))[job] ==
            multiset(s.q.handed + Q.InHand(s.q.consumer) + s.q.queue)[job] + |WantingFor(s.q.producers, job)|
  {
    assert JobsOf([]) == [] && WantingFor(map[], job) == {};
    RunBalanced(h, cap, Fresh(w0), sms, job);
    InitialJobs(w0);
    Projects(h, cap, Fresh(w0), sms);
  }

  /** What runs of the system are: in every reachable state exactly the moves of the uploads, and those of the queue
      but a call, which only a callback makes. */
  lemma SystemMoveIff(h: Digest, cap: map<Uid, nat>, w0: World, sms: seq<SystemMove>, sm: SystemMove)
    requires SystemAllowed(h, cap, Fresh(w0), sms)
    ensures var s := SystemAfter(h, cap, Fresh(w0), sms);
            SystemAllowed(h, cap, s, [sm]) <==>
            if sm.Upload? then Allowed(h, cap, s.c, [sm.m]) else Q.Allowed(s.q, [sm.qm]) && !sm.qm.Call?
  {
    assert [sm][1..] == [];
    match sm {
      case Upload(m) =>
        assert [m][1..] == [];
        GuardHolds(h, cap, w0, sms, m);
      case Convert(qm) => assert [qm][1..] == [];
    }
  }

  /** Moves of the queue as moves of the system. */
  function Converts(qms: seq<Q.Move>): seq<SystemMove> {
    if qms == [] then [] else [Convert(qms[0])] + Converts(qms[1..])
  }

  /** Every run of the queue in which nobody calls anew is one of the system. */
  lemma {:induction false} QueueRuns(h: Digest, cap: map<Uid, nat>, s: System, qms: seq<Q.Move>)
    requires Q.Allowed(s.q, qms) && forall i | 0 <= i < |qms| :: !qms[i].Call?
    ensures SystemAllowed(h, cap, s, Converts(qms))
    ensures SystemAfter(h, cap, s, Converts(qms)) == System(s.c, Q.After(s.q, qms))
    ensures UploadMoves(Converts(qms)) == []
    decreases |qms|
  {
    if qms != [] {
      QueueRuns(h, cap, SystemApply(h, s, Convert(qms[0])), qms[1..]);
      assert Converts(qms)[1..] == Converts(qms[1..]);
    }
  }

  /** A producer of the job, or its place. */
  lemma JobSomewhere(h: Digest, cap: map<Uid, nat>, w0: World, sms: seq<SystemMove>, u: Uid)
    requires w0.calls == [] && SystemAllowed(h, cap, Fresh(w0), sms)
    requires u in SystemAfter(h, cap, Fresh(w0), sms).c.w.calls
    ensures var s := SystemAfter(h, cap, Fresh(w0), sms);
            && Q.Invariant(s.q)
            && (JobOf(u) in s.q.enqueued || exists p :: p in s.q.producers && s.q.producers[p] == Q.Wanting(JobOf(u)))
  {
    var s, job := SystemAfter(h, cap, Fresh(w0), sms), JobOf(u);
    assert JobsOf([]) == [] && WantingFor(map[], job) == {};
    RunBalanced(h, cap, Fresh(w0), sms, job);
    InitialJobs(w0);
    Projects(h, cap, Fresh(w0), sms);
    var i :| 0 <= i < |s.c.w.calls| && s.c.w.calls[i] == u;
    assert JobsOf(s.c.w.calls)[i] == job;
    if job !in s.q.enqueued {
      var p :| p in WantingFor(s.q.producers, job);
    }
  }

  /** What is in the queue, or still wanted by producer p, can be handed over. */
  lemma QueueHands(q: Q.Queue, job: Q.Job) returns (qms: seq<Q.Move>)
    requires Q.Invariant(q) && !q.stop
    requires job in q.enqueued || exists p :: p in q.producers && q.producers[p] == Q.Wanting(job)
    ensures Q.Allowed(q, qms) && forall i | 0 <= i < |qms| :: !qms[i].Call?
    ensures job in Q.After(q, qms).handed
  {
    if job in q.enqueued {
      qms := Q.HandsAll(q);
    } else {
      var p :| p in q.producers && q.producers[p] == Q.Wanting(job);
      var first := Q.ProducerFinishes(q, p);
      var e := Q.After(q, first);
      assert e.enqueued[|q.enqueued|] == job;
      var rest := Q.HandsAll(e);
      Q.JoinRuns(q, first, rest);
      qms := first + rest;
    }
  }

  /** Every announced upload can be converted: in every reachable state of a system that was not told to stop, for
      every uid that a callback has named, the conversion side by itself can go on until the job of that uid is
      handed over. */
  lemma AnnouncedCanBeConverted(h: Digest, cap: map<Uid, nat>, w0: World, sms: seq<SystemMove>, u: Uid)
      returns (more: seq<SystemMove>)
    requires w0.calls == [] && SystemAllowed(h, cap, Fresh(w0), sms)
    requires !SystemAfter(h, cap, Fresh(w0), sms).q.stop && u in SystemAfter(h, cap, Fresh(w0), sms).c.w.calls
    ensures var s := SystemAfter(h, cap, Fresh(w0), sms);
            && SystemAllowed(h, cap, s, more) && UploadMoves(more) == []
            && Q.Job("/home/rayes/parts", u) in SystemAfter(h, cap, s, more).q.handed
  {
    JobSomewhere(h, cap, w0, sms, u);
    var s := SystemAfter(h, cap, Fresh(w0), sms);
    var qms := QueueHands(s.q, JobOf(u));
    QueueRuns(h, cap, s, qms);
    more := Converts(qms);
  }
}
