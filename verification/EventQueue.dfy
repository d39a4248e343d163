/** The bounded queue of domain events: any number of producers, one worker. */
module EventQueue {
  import opened Wrappers

  datatype Status = Queued | Published | Skipped | Failed

  datatype Decision = Decision(status: Status, reason: string, eventId: string, eventType: string,
    topic: Option<string>)

  /** A job is known by its number; `decision` is what its producer is told when it is queued. */
  datatype Job = Job(id: nat, decision: Decision)

  /** What happens when the worker runs a job. */
  datatype Outcome = Returned(decision: Decision) | Raised

  datatype Finished = Finished(job: Job, outcome: Outcome)

  /** The queue, the job that the worker runs, and the history of the run. */
  datatype State = State(
    capacity: nat,
    queue: seq<Job>,
    running: Option<Job>,
    finished: seq<Finished>,
    accepted: seq<Job>,
    refused: seq<Job>)

  /** A producer offers a job, the worker takes the first one, or its job ends. */
  datatype Event = Offer(job: Job) | Take | End(outcome: Outcome)

  /** `max(1, queue_size)` */
  function CapacityOf(queueSize: int): (capacity: nat)
    ensures capacity >= 1 && (queueSize >= 1 ==> capacity == queueSize) && (queueSize < 1 ==> capacity == 1)
  {
    if queueSize < 1 then 1 else queueSize
  }

  function Start(queueSize: int): State {
    State(CapacityOf(queueSize), [], None, [], [], [])
  }

  predicate Enabled(s: State, e: Event) {
    match e
    case Offer(_) => true
    case Take => s.running.None? && s.queue != []
    case End(_) => s.running.Some?
  }

  function Step(s: State, e: Event): State
    requires Enabled(s, e)
  {
    match e
    case Offer(job) =>
      if |s.queue| < s.capacity then s.(queue := s.queue + [job], accepted := s.accepted + [job])
      else s.(refused := s.refused + [job])
    case Take => s.(queue := s.queue[1..], running := Some(s.queue[0]))
    case End(outcome) => s.(running := None, finished := s.finished + [Finished(s.running.value, outcome)])
  }

  /** The events can happen one after the other. */
  ghost predicate CanRun(s: State, events: seq<Event>)
    decreases |events|
  {
    events != [] ==> Enabled(s, events[0]) && CanRun(Step(s, events[0]), events[1..])
  }

  ghost function Run(s: State, events: seq<Event>): State
    requires CanRun(s, events)
    decreases |events|
  {
    if events == [] then s else Run(Step(s, events[0]), events[1..])
  }

  // ---- conservation and order ----

  function Jobs(finished: seq<Finished>): seq<Job> {
    seq(|finished|, i requires 0 <= i < |finished| => finished[i].job)
  }

  function RunningJobs(s: State): seq<Job> {
    if s.running.Some? then [s.running.value] else []
  }

  /** Every accepted job is finished, running or queued, in the order of acceptance. */
  ghost predicate Conserved(s: State) {
    s.accepted == Jobs(s.finished) + RunningJobs(s) + s.queue && |s.queue| <= s.capacity
  }

  lemma {:induction false} StepConserves(s: State, e: Event)
    requires Conserved(s) && Enabled(s, e)
    ensures Conserved(Step(s, e)) && Step(s, e).capacity == s.capacity
  {
    if e.Take? {
      assert s.queue == [s.queue[0]] + s.queue[1..];
    } else if e.End? {
      assert Jobs(Step(s, e).finished) == Jobs(s.finished) + [s.running.value];
    }
  }

  lemma {:induction false} RunConserves(s: State, events: seq<Event>)
    requires Conserved(s) && CanRun(s, events)
    ensures Conserved(Run(s, events)) && Run(s, events).capacity == s.capacity
    decreases |events|
  {
    if events != [] {
      StepConserves(s, events[0]);
      RunConserves(Step(s, events[0]), events[1..]);
    }
  }

  /** In every run, at every point: the finished jobs, the running one and the queued ones are
      the accepted jobs, each once and in the order of acceptance, and the queue never holds more
      than its size, which is at least one. */
  lemma {:induction false} QueueConserves(queueSize: int, events: seq<Event>)
    requires CanRun(Start(queueSize), events)
    ensures var s := Run(Start(queueSize), events);
      && s.accepted == Jobs(s.finished) + RunningJobs(s) + s.queue
      && Jobs(s.finished) <= s.accepted
      && |s.queue| <= CapacityOf(queueSize)
  {
    var start := Start(queueSize);
    assert Conserved(start);
    RunConserves(start, events);
  }

  // ---- refused jobs ----

  function Offers(events: seq<Event>): seq<Job> {
    if events == [] then []
    else (if events[0].Offer? then [events[0].job] else []) + Offers(events[1..])
  }

  /** Every offered job is accepted or refused, and a job is one of the two only. */
  lemma {:induction false} RunSorts(s: State, events: seq<Event>)
    requires CanRun(s, events)
    ensures multiset(Run(s, events).accepted) + multiset(Run(s, events).refused) ==
      multiset(s.accepted) + multiset(s.refused) + multiset(Offers(events))
    decreases |events|
  {
    if events != [] {
      RunSorts(Step(s, events[0]), events[1..]);
    }
  }

  lemma {:induction false} DistinctOnce(jobs: seq<Job>, job: Job)
    requires Distinct(jobs)
    ensures multiset(jobs)[job] <= 1
    decreases |jobs|
  {
    if jobs != [] {
      var front, last := jobs[..|jobs| - 1], jobs[|jobs| - 1];
      assert jobs == front + [last];
      DistinctOnce(front, job);
    }
  }

  /** Where no job is offered twice, a job that is refused because the queue is full never runs,
      and a job that is accepted is accepted once. */
  lemma {:induction false} RefusedNeverRuns(queueSize: int, events: seq<Event>, job: Job)
    requires CanRun(Start(queueSize), events) && Distinct(Offers(events))
    ensures var s := Run(Start(queueSize), events);
      && (job in s.refused ==> job !in s.accepted && job !in Jobs(s.finished) && s.running != Some(job))
      && multiset(s.accepted)[job] <= 1
  {
    var s := Run(Start(queueSize), events);
    RunSorts(Start(queueSize), events);
    DistinctOnce(Offers(events), job);
    assert multiset(s.accepted) + multiset(s.refused) == multiset(Offers(events));
    assert (multiset(s.accepted) + multiset(s.refused))[job] == multiset(s.accepted)[job] + multiset(s.refused)[job];
    QueueConserves(queueSize, events);
    if job in s.refused {
      assert multiset(s.refused)[job] >= 1;
      assert multiset(s.accepted)[job] == 0;
      assert job !in s.accepted;
      InPart(Jobs(s.finished), RunningJobs(s), s.queue, job);
    }
  }

  lemma {:induction false} InPart(a: seq<Job>, b: seq<Job>, c: seq<Job>, job: Job)
    ensures job in a || job in b || job in c <==> job in a + b + c
  {
  }

  // ---- the worker goes on ----

  /** The worker takes and ends every job, whatever their outcomes. */
  ghost function Drain(s: State, outcomes: seq<Outcome>): (events: seq<Event>)
    requires |outcomes| == |RunningJobs(s) + s.queue|
    decreases |s.queue|, |RunningJobs(s)|
  {
    if s.running.Some? then [End(outcomes[0])] + Drain(Step(s, End(outcomes[0])), outcomes[1..])
    else if s.queue == [] then []
    else [Take, End(outcomes[0])] + Drain(Step(Step(s, Take), End(outcomes[0])), outcomes[1..])
  }

  lemma {:induction false} EndThenRun(s: State, outcome: Outcome, rest: seq<Event>)
    requires s.running.Some? && CanRun(Step(s, End(outcome)), rest)
    ensures CanRun(s, [End(outcome)] + rest)
    ensures Run(s, [End(outcome)] + rest) == Run(Step(s, End(outcome)), rest)
  {
    assert ([End(outcome)] + rest)[1..] == rest;
  }

  lemma {:induction false} TakeThenRun(s: State, outcome: Outcome, rest: seq<Event>)
    requires s.running.None? && s.queue != [] && CanRun(Step(Step(s, Take), End(outcome)), rest)
    ensures CanRun(s, [Take, End(outcome)] + rest)
    ensures Run(s, [Take, End(outcome)] + rest) == Run(Step(Step(s, Take), End(outcome)), rest)
  {
    EndThenRun(Step(s, Take), outcome, rest);
    var events := [Take, End(outcome)] + rest;
    assert events[0] == Take && events[1..] == [End(outcome)] + rest;
  }

  /** From some index on, the finished jobs ended with these outcomes. */
  predicate EndAs(finished: seq<Finished>, from: nat, outcomes: seq<Outcome>) {
    && |finished| == from + |outcomes|
    && forall i | 0 <= i < |outcomes| :: finished[from + i].outcome == outcomes[i]
  }

  lemma EndAsOneMore(finished: seq<Finished>, from: nat, outcomes: seq<Outcome>)
    requires outcomes != [] && EndAs(finished, from + 1, outcomes[1..]) && finished[from].outcome == outcomes[0]
    ensures EndAs(finished, from, outcomes)
  {
    forall i | 0 <= i < |outcomes| ensures finished[from + i].outcome == outcomes[i] {
      if i > 0 {
        assert finished[from + 1 + (i - 1)].outcome == outcomes[1..][i - 1];
      }
    }
  }

  /** From any state of any run the worker can finish all jobs that are running or queued, in
      order; a job that raises does not keep a later one from running. */
  lemma {:induction false} WorkerDrains(s: State, outcomes: seq<Outcome>)
    requires Conserved(s) && |outcomes| == |RunningJobs(s) + s.queue|
    ensures CanRun(s, Drain(s, outcomes))
    ensures var after := Run(s, Drain(s, outcomes));
      && after.queue == [] && after.running.None? && after.accepted == s.accepted
      && Jobs(after.finished) == s.accepted && EndAs(after.finished, |s.finished|, outcomes)
    decreases |s.queue|, |RunningJobs(s)|
  {
    if s.running.Some? {
      var next := Step(s, End(outcomes[0]));
      StepConserves(s, End(outcomes[0]));
      WorkerDrains(next, outcomes[1..]);
      EndThenRun(s, outcomes[0], Drain(next, outcomes[1..]));
      OutcomesKept(s, next, outcomes);
    } else if s.queue != [] {
      var next := Step(Step(s, Take), End(outcomes[0]));
      StepConserves(s, Take);
      StepConserves(Step(s, Take), End(outcomes[0]));
      WorkerDrains(next, outcomes[1..]);
      TakeThenRun(s, outcomes[0], Drain(next, outcomes[1..]));
      OutcomesKept(s, next, outcomes);
    } else {
      assert Jobs(s.finished) + [] + [] == Jobs(s.finished);
    }
  }

  /** A run only adds to what is finished. */
  lemma {:induction false} FinishedGrows(s: State, events: seq<Event>)
    requires CanRun(s, events)
    ensures s.finished <= Run(s, events).finished
    decreases |events|
  {
    if events != [] {
      FinishedGrows(Step(s, events[0]), events[1..]);
    }
  }

  lemma {:induction false} OutcomesKept(s: State, next: State, outcomes: seq<Outcome>)
    requires outcomes != [] && |outcomes[1..]| == |RunningJobs(next) + next.queue|
    requires next.finished != [] && next.finished[..|next.finished| - 1] == s.finished
    requires next.finished[|s.finished|].outcome == outcomes[0]
    requires CanRun(next, Drain(next, outcomes[1..]))
    requires EndAs(Run(next, Drain(next, outcomes[1..])).finished, |next.finished|, outcomes[1..])
    ensures EndAs(Run(next, Drain(next, outcomes[1..])).finished, |s.finished|, outcomes)
  {
    FinishedGrows(next, Drain(next, outcomes[1..]));
    EndAsOneMore(Run(next, Drain(next, outcomes[1..])).finished, |s.finished|, outcomes);
  }

  // ---- the publisher ----

  function QueueFull(decision: Decision): Decision {
    decision.(status := Failed, reason := "async_publish_queue_full")
  }

  function WorkerException(decision: Decision): Decision {
    decision.(status := Failed, reason := "async_publish_worker_exception")
  }

  class AsyncDomainEventPublisher {
    const capacity: nat
    var queue: seq<Job>
    var running: Option<Job>
    var lastQueuedDecision: Option<Decision>
    var lastWorkerDecision: Option<Decision>
    ghost var finished: seq<Finished>
    ghost var accepted: seq<Job>
    ghost var refused: seq<Job>

    ghost function Contents(): State
      reads this
    {
      State(capacity, queue, running, finished, accepted, refused)
    }

    /** The last decisions are those of the last job refused or accepted, and of the last finished. */
    ghost predicate Valid()
      reads this
    {
      && Conserved(Contents())
      && lastWorkerDecision ==
         (if finished == [] then None
          else if finished[|finished| - 1].outcome.Returned? then Some(finished[|finished| - 1].outcome.decision)
          else Some(WorkerException(finished[|finished| - 1].job.decision)))
    }

    constructor (queueSize: int)
      ensures Valid() && Contents() == Start(queueSize) && lastQueuedDecision.None?
    {
      capacity := CapacityOf(queueSize);
      queue, running, finished, accepted, refused := [], None, [], [], [];
      lastQueuedDecision, lastWorkerDecision := None, None;
    }

    /** `_enqueue` */
    method Enqueue(job: Job) returns (decision: Decision)
      requires Valid()
      modifies this
      ensures Valid() && Contents() == Step(old(Contents()), Offer(job))
      ensures |old(queue)| < capacity ==> queue == old(queue) + [job] && decision == job.decision
      ensures |old(queue)| >= capacity ==>
        && queue == old(queue)
        && decision == Decision(Failed, "async_publish_queue_full", job.decision.eventId, job.decision.eventType,
             job.decision.topic)
      ensures running == old(running) && finished == old(finished)
      ensures lastQueuedDecision == Some(decision) && lastWorkerDecision == old(lastWorkerDecision)
    {
      StepConserves(Contents(), Offer(job));
      if |queue| >= capacity {
        decision := QueueFull(job.decision);
        lastQueuedDecision := Some(decision);
        refused := refused + [job];
        return;
      }
      queue := queue + [job];
      accepted := accepted + [job];
      lastQueuedDecision := Some(job.decision);
      return job.decision;
    }

    /** The head of the worker's loop, which waits until there is a job. */
    method Get() returns (job: Job)
      requires Valid() && Enabled(Contents(), Take)
      modifies this
      ensures Valid() && Contents() == Step(old(Contents()), Take)
      ensures job == old(queue[0]) && queue == old(queue[1..]) && running == Some(job) && finished == old(finished)
      ensures lastQueuedDecision == old(lastQueuedDecision) && lastWorkerDecision == old(lastWorkerDecision)
    {
      StepConserves(Contents(), Take);
      job := queue[0];
      queue, running := queue[1..], Some(job);
    }

    /** The rest of the worker's loop, after the job returned or raised. */
    method Finish(outcome: Outcome)
      requires Valid() && Enabled(Contents(), End(outcome))
      modifies this
      ensures Valid() && Contents() == Step(old(Contents()), End(outcome))
      ensures queue == old(queue) && running == None && finished == old(finished + [Finished(running.value, outcome)])
      ensures outcome.Returned? ==> lastWorkerDecision == Some(outcome.decision)
      ensures outcome.Raised? ==>
        var identity := old(running).value.decision;
        lastWorkerDecision == Some(Decision(Failed, "async_publish_worker_exception", identity.eventId,
          identity.eventType, identity.topic))
      ensures lastQueuedDecision == old(lastQueuedDecision)
    {
      StepConserves(Contents(), End(outcome));
      var job := running.value;
      match outcome {
        case Returned(decision) => lastWorkerDecision := Some(decision);
        case Raised => lastWorkerDecision := Some(WorkerException(job.decision));
      }
      running := None;
      finished := finished + [Finished(job, outcome)];
    }
  }
}
