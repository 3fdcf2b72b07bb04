/**
  The DB thread's job queue (server/src/db/DBWorker.cpp) under any interleaving of posts, the worker loop and `stop`.
  Every lock section, the wait, and the processing of a job is one step. A job is its number in posting order.
 */
module DbQueue {
  type Job = nat

  /** The loop of `thread_main`. */
  datatype Worker =
    | Checks             // before `running_.load()`
    | Waits              // in `cv_.wait`
    | Holds              // holds the lock, at the inner loop's test
    | Processes(job: Job)
    | Exited

  /** `stop`: the flag, the join, then the drain under the lock. */
  datatype Stopper = Idle | Flagged | Drains

  /** A job that left the queue for good: processed by the thread or drained by `stop`, its callback fired or not. */
  datatype Done = Done(job: Job, byThread: bool, called: bool)

  /** `stopped` is the number of jobs posted when the last `stop` returned. */
  datatype State = State(
    queue: seq<Job>, posted: nat, running: bool, worker: Worker, stopper: Stopper, done: seq<Done>, stopped: nat)

  function Init(): State {
    State([], 0, true, Checks, Idle, [], 0)
  }

  datatype Step =
    | Post | Check | Wake | Next | Finish | Throw
    | StopFlag | StopJoin | DrainOne | StopReturn

  predicate Enabled(s: State, step: Step) {
    match step
    case Post => !s.stopper.Drains?
    case Check => s.worker.Checks?
    case Wake => s.worker.Waits? && (!s.running || s.queue != [])
    case Next => s.worker.Holds?
    case Finish => s.worker.Processes?
    case Throw => s.worker.Processes?
    case StopFlag => s.stopper.Idle?
    case StopJoin => s.stopper.Flagged? && s.worker.Exited?
    case DrainOne => s.stopper.Drains? && s.queue != []
    case StopReturn => s.stopper.Drains? && s.queue == []
  }

  function Apply(s: State, step: Step): State
    requires Enabled(s, step)
  {
    match step
    case Post => s.(queue := s.queue + [s.posted], posted := s.posted + 1)
    case Check => s.(worker := if s.running then Waits else Exited)
    case Wake => s.(worker := Holds)
    case Next =>
      if s.queue == [] then s.(worker := Checks) else s.(worker := Processes(s.queue[0]), queue := s.queue[1..])
    case Finish => s.(worker := Holds, done := s.done + [Done(s.worker.job, true, true)])
    case Throw => s.(worker := Holds, done := s.done + [Done(s.worker.job, true, false)])
    case StopFlag => s.(running := false, stopper := Flagged)
    case StopJoin => s.(stopper := Drains)
    case DrainOne => s.(queue := s.queue[1..], done := s.done + [Done(s.queue[0], false, true)])
    case StopReturn => s.(stopper := Idle, stopped := s.posted)
  }

  function InProcess(s: State): seq<Job> {
    if s.worker.Processes? then [s.worker.job] else []
  }

  function Jobs(done: seq<Done>): (js: seq<Job>)
    ensures |js| == |done|
  {
    if done == [] then [] else Jobs(done[..|done| - 1]) + [done[|done| - 1].job]
  }

  function Upto(n: nat): (js: seq<Job>)
    ensures |js| == n
  {
    seq(n, i => i)
  }

  /** Finished, in-process and queued jobs, one after the other, are the posted jobs in posting order. */
  predicate Conserved(s: State) {
    Jobs(s.done) + InProcess(s) + s.queue == Upto(s.posted)
  }

  predicate Inv(s: State) {
    && Conserved(s)
    && (s.stopper.Drains? ==> s.worker.Exited?)
    && (s.stopper.Flagged? || s.stopper.Drains? || s.worker.Exited? ==> !s.running)
    && s.stopped <= |s.done|
  }

  lemma DoneGrows(done: seq<Done>, d: Done)
    ensures Jobs(done + [d]) == Jobs(done) + [d.job]
  {
    assert (done + [d])[..|done|] == done;
  }

  lemma PostConserves(s: State)
    requires Conserved(s) && Enabled(s, Post)
    ensures Conserved(Apply(s, Post))
  {
    assert Upto(s.posted + 1) == Upto(s.posted) + [s.posted];
  }

  /** A job taken off the queue is in process, a job in process is finished: the whole line of jobs stays. */
  lemma MoveConserves(s: State, t: State)
    requires Conserved(s) && t.posted == s.posted
    requires Jobs(t.done) + InProcess(t) + t.queue == Jobs(s.done) + InProcess(s) + s.queue
    ensures Conserved(t)
  {}

  lemma StepConserves(s: State, step: Step)
    requires Inv(s) && Enabled(s, step)
    ensures Conserved(Apply(s, step))
  {
    hide Jobs, Upto, Conserved;
    var t := Apply(s, step);
    match step
    case Post => PostConserves(s);
    case Next => if s.queue != [] { assert [s.queue[0]] + s.queue[1..] == s.queue; } MoveConserves(s, t);
    case Finish => DoneGrows(s.done, Done(s.worker.job, true, true)); MoveConserves(s, t);
    case Throw => DoneGrows(s.done, Done(s.worker.job, true, false)); MoveConserves(s, t);
    case DrainOne =>
      DoneGrows(s.done, Done(s.queue[0], false, true));
      assert Jobs(s.done) + [s.queue[0]] + s.queue[1..] == Jobs(s.done) + s.queue;
      MoveConserves(s, t);
    case _ => MoveConserves(s, t);
  }

  lemma StepKeepsInv(s: State, step: Step)
    requires Inv(s) && Enabled(s, step)
    ensures Inv(Apply(s, step))
  {
    StepConserves(s, step);
    if step.StopReturn? { assert |Jobs(s.done)| == s.posted; }
    hide Conserved, Jobs;
  }

  predicate Then(s: State, step: Step, t: State) {
    Enabled(s, step) && t == Apply(s, step)
  }

  predicate Run(states: seq<State>, steps: seq<Step>) {
    && |states| == |steps| + 1 && states[0] == Init()
    && forall i {:trigger steps[i]} | 0 <= i < |steps| :: Then(states[i], steps[i], states[i + 1])
  }

  lemma {:induction false} RunKeepsInv(states: seq<State>, steps: seq<Step>, i: nat)
    requires Run(states, steps) && i < |states|
    ensures Inv(states[i])
  {
    if i > 0 {
      hide Inv, Enabled, Apply;
      RunKeepsInv(states, steps, i - 1);
      assert Then(states[i - 1], steps[i - 1], states[i]);
      StepKeepsInv(states[i - 1], steps[i - 1]);
    }
  }

  lemma {:induction false} JobsAt(done: seq<Done>, k: nat)
    requires k < |done|
    ensures Jobs(done)[k] == done[k].job
  {
    if k < |done| - 1 { JobsAt(done[..|done| - 1], k); }
  }

  /** Jobs are conserved and finish in posting order: the `k`-th to finish is the `k`-th posted, so none twice. */
  lemma FirstInFirstOut(states: seq<State>, steps: seq<Step>, i: nat)
    requires Run(states, steps) && i < |states|
    ensures var s := states[i];
            && Jobs(s.done) + InProcess(s) + s.queue == Upto(s.posted)
            && (forall k | 0 <= k < |s.done| :: s.done[k].job == k)
            && (forall k, l | 0 <= k < l < |s.done| :: s.done[k].job != s.done[l].job)
  {
    RunKeepsInv(states, steps, i);
    var s := states[i];
    forall k | 0 <= k < |s.done| ensures s.done[k].job == k {
      JobsAt(s.done, k);
      assert Upto(s.posted)[k] == (Jobs(s.done) + InProcess(s) + s.queue)[k];
    }
  }

  lemma {:induction false} AllCalled(states: seq<State>, steps: seq<Step>, i: nat)
    requires Run(states, steps) && i < |states| && forall k | 0 <= k < i :: !steps[k].Throw?
    ensures forall k | 0 <= k < |states[i].done| :: states[i].done[k].called
  {
    if i > 0 {
      AllCalled(states, steps, i - 1);
      assert Then(states[i - 1], steps[i - 1], states[i]);
      assert !steps[i - 1].Throw?;
    }
  }

  /** After `stop`, if no job throws and none is posted later, the callback of every job has fired exactly once. */
  lemma StopFiresEverything(states: seq<State>, steps: seq<Step>, i: nat)
    requires Run(states, steps) && i < |states| && (forall k | 0 <= k < i :: !steps[k].Throw?)
    requires states[i].stopper.Idle? && states[i].posted == states[i].stopped
    ensures states[i].queue == [] && |states[i].done| == states[i].posted
    ensures forall k | 0 <= k < states[i].posted :: states[i].done[k].job == k && states[i].done[k].called
  {
    RunKeepsInv(states, steps, i);
    AllCalled(states, steps, i);
    FirstInFirstOut(states, steps, i);
  }

  // ---- stop comes to an end ----

  function WorkerWork(s: State): nat {
    2 * |s.queue| +
    match s.worker
    case Waits => 3
    case Holds => 2
    case Processes(_) => 3
    case Checks => 1
    case Exited => 0
  }

  predicate OfWorker(step: Step) {
    step.Check? || step.Wake? || step.Next? || step.Finish? || step.Throw?
  }

  /** While `stop` joins, the thread is never stuck and every step of it brings its exit nearer. */
  lemma JoinReturns(states: seq<State>, steps: seq<Step>, i: nat) returns (step: Step)
    requires Run(states, steps) && i < |states| && states[i].stopper.Flagged?
    ensures if states[i].worker.Exited? then step == StopJoin else OfWorker(step)
    ensures Enabled(states[i], step)
    ensures forall other | OfWorker(other) && Enabled(states[i], other) ::
            WorkerWork(Apply(states[i], other)) < WorkerWork(states[i])
  {
    RunKeepsInv(states, steps, i);
    match states[i].worker
    case Checks => step := Check;
    case Waits => step := Wake;
    case Holds => step := Next;
    case Processes(_) => step := Finish;
    case Exited => step := StopJoin;
  }

  // ---- the drain loops ----

  datatype Status = Success | NotFound | Duplicate | Error

  datatype Call = Call(job: Job, status: Status)

  /** The jobs posted while the first `n` jobs were processed. */
  function Flat(posts: seq<seq<Job>>, n: nat): seq<Job> {
    if n == 0 then [] else Flat(posts, n - 1) + if n <= |posts| then posts[n - 1] else []
  }

  lemma FlatNone(posts: seq<seq<Job>>)
    ensures Flat(posts, 0) == []
  {}

  lemma FlatNext(posts: seq<seq<Job>>, n: nat)
    ensures Flat(posts, n + 1) == Flat(posts, n) + if n < |posts| then posts[n] else []
  {}

  /** The callbacks of these jobs fired after `before`, one each and in order, with the status of each. */
  predicate Finished(before: seq<Call>, after: seq<Call>, jobs: seq<Job>, status: map<Job, Status>) {
    && before <= after && |after| == |before| + |jobs|
    && forall k | 0 <= k < |jobs| :: jobs[k] in status && after[|before| + k] == Call(jobs[k], status[jobs[k]])
  }

  lemma FinishedNone(calls: seq<Call>, status: map<Job, Status>)
    ensures Finished(calls, calls, [], status)
  {}

  lemma FinishedNext(before: seq<Call>, after: seq<Call>, jobs: seq<Job>, job: Job, status: map<Job, Status>)
    requires Finished(before, after, jobs, status) && job in status
    ensures Finished(before, after + [Call(job, status[job])], jobs + [job], status)
  {}

  class DbWorker {
    var running: bool
    var queue: seq<Job>
    var calls: seq<Call>

    constructor ()
      ensures running && queue == [] && calls == []
    {
      running, queue, calls := true, [], [];
    }

    method PostJob(job: Job)
      modifies this`queue
      ensures queue == old(queue) + [job]
    {
      queue := queue + [job];
    }

    /**
      The inner loop of `thread_main`: `status` is what each query comes to, and `posts[k]` are the jobs posted while
      the `k`-th job is processed. All jobs, those posted meanwhile included, are called back in posting order.
     */
    method ProcessAll(status: map<Job, Status>, posts: seq<seq<Job>>) returns (n: nat)
      requires forall j | j in queue :: j in status
      requires forall k, j | 0 <= k < |posts| && j in posts[k] :: j in status
      modifies this`queue, this`calls
      ensures queue == [] && Finished(old(calls), calls, old(queue) + Flat(posts, n), status)
      ensures n == |old(queue) + Flat(posts, n)|
    {
      hide Flat, Finished;
      n := 0;
      ghost var all := queue;
      FlatNone(posts);
      FinishedNone(calls, status);
      while queue != []
        invariant n <= |all| && queue == all[n..] && all == old(queue) + Flat(posts, n)
        invariant forall j | j in all :: j in status
        invariant Finished(old(calls), calls, all[..n], status)
        decreases if n < |posts| then |posts| - n else 0, |queue|
      {
        var job := queue[0];
        queue := queue[1..];
        assert job == all[n] && job in all;
        assert all[..n + 1] == all[..n] + [job];
        FinishedNext(old(calls), calls, all[..n], job, status);
        calls := calls + [Call(job, status[job])];
        FlatNext(posts, n);
        if n < |posts| {
          queue := queue + posts[n];
          assert (all + posts[n])[..n + 1] == all[..n + 1] && (all + posts[n])[n + 1..] == all[n + 1..] + posts[n];
          all := all + posts[n];
        }
        n := n + 1;
      }
      assert all[..n] == all;
    }

    /** The end of `stop`: every job still queued gets its callback, with Error, in order. */
    method Stop()
      modifies this
      ensures !running && queue == []
      ensures |calls| == |old(calls)| + |old(queue)| && old(calls) <= calls
      ensures forall k | 0 <= k < |old(queue)| :: calls[|old(calls)| + k] == Call(old(queue)[k], Error)
    {
      running := false;
      ghost var n := 0;
      while queue != []
        invariant 0 <= n <= |old(queue)| && queue == old(queue)[n..] && !running
        invariant |calls| == |old(calls)| + n && old(calls) <= calls
        invariant forall k | 0 <= k < n :: calls[|old(calls)| + k] == Call(old(queue)[k], Error)
        decreases |queue|
      {
        var job := queue[0];
        queue := queue[1..];
        calls := calls + [Call(job, Error)];
        n := n + 1;
      }
    }
  }
}
