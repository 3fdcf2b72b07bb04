/**
  The send path of a session shared by any number of threads (server/src/network/Session.cpp): every atomic
  operation, lock section and system call of `pack` and `flush` is one step, in any interleaving, and the socket
  chooses how many bytes it takes.
 */
module SendPath {
  import opened Bytes

  type Thread = nat

  datatype Buffer = Buffer(data: seq<byte>, offset: nat)

  /** What a call of `flush` returns. */
  datatype FlushResult = Complete | Pending | Error

  datatype Return = Return(thread: Thread, result: FlushResult)

  /** Where a thread is. A buffer is named by its number in pack order, as the source holds a pointer to it. */
  datatype Pc =
    | Idle
    | Owes                    // has packed and not yet called flush
    | AtCas                   // before the compare-exchange of `sending_`
    | Looks                   // holds `sending_`, before the lock section that reads the front
    | Sends(buffer: nat)      // inside the send loop
    | Pops(buffer: nat)       // the buffer is sent, before the lock section that pops
    | Releases                // before `sending_.store(false)` at the end of an iteration
    | Rechecks                // before `is_send_queue_empty`
    | Exchanges               // saw a non-empty queue, before `sending_.exchange(true)`
    | GivesUp(why: FlushResult)  // before `sending_.store(false)` of a Pending or Error return

  /** Who let go of `sending_` last, and why. */
  datatype LastRelease = Never | Emptied | Finished | Stalled(why: FlushResult)

  /**
    `popped` counts the buffers popped so far, `packed` logs every buffer ever packed and `returned` what every call
    returned.
   */
  datatype State = State(
    queue: seq<Buffer>, popped: nat, sending: bool, pcs: map<Thread, Pc>, wire: seq<byte>,
    packed: seq<seq<byte>>, last: LastRelease, returned: seq<Return>)

  function Init(): State {
    State([], 0, false, map[], [], [], Never, [])
  }

  function PcOf(s: State, t: Thread): Pc {
    if t in s.pcs then s.pcs[t] else Idle
  }

  function At(s: State, t: Thread, pc: Pc): State {
    s.(pcs := s.pcs[t := pc])
  }

  /** The call of `flush` returns. */
  function Back(s: State, t: Thread, r: FlushResult): State {
    At(s, t, Idle).(returned := s.returned + [Return(t, r)])
  }

  datatype Step =
    | Pack(data: seq<byte>) | Call | Cas | Look
    | Take(bytes: nat) | Interrupt | Block | Fail | Sent
    | Pop | Release | Recheck | Exchange | Yield

  /** The buffer a thread holds a pointer to is still in the queue. */
  predicate Alive(s: State, b: nat) {
    s.popped <= b < s.popped + |s.queue|
  }

  function BufferAt(s: State, b: nat): Buffer
    requires Alive(s, b)
  {
    s.queue[b - s.popped]
  }

  predicate Unfinished(s: State, pc: Pc) {
    pc.Sends? && Alive(s, pc.buffer) && BufferAt(s, pc.buffer).offset < |BufferAt(s, pc.buffer).data|
  }

  predicate Enabled(s: State, t: Thread, step: Step) {
    var pc := PcOf(s, t);
    match step
    case Pack(_) => pc.Idle? || pc.Owes?
    case Call => pc.Idle? || pc.Owes?
    case Cas => pc.AtCas?
    case Look => pc.Looks?
    case Take(n) => Unfinished(s, pc) && 0 < n <= |BufferAt(s, pc.buffer).data| - BufferAt(s, pc.buffer).offset
    case Interrupt => Unfinished(s, pc)
    case Block => Unfinished(s, pc)
    case Fail => Unfinished(s, pc)
    case Sent => pc.Sends? && Alive(s, pc.buffer) && !Unfinished(s, pc)
    case Pop => pc.Pops? && s.queue != []
    case Release => pc.Releases?
    case Recheck => pc.Rechecks?
    case Exchange => pc.Exchanges?
    case Yield => pc.GivesUp?
  }

  function Apply(s: State, t: Thread, step: Step): State
    requires Enabled(s, t, step)
  {
    var pc := PcOf(s, t);
    match step
    case Pack(data) => At(s, t, Owes).(queue := s.queue + [Buffer(data, 0)], packed := s.packed + [data])
    case Call => At(s, t, AtCas)
    case Cas => (if s.sending then Back(s, t, Complete) else At(s, t, Looks)).(sending := true)
    case Look =>
      if s.queue == [] then Back(s, t, Complete).(sending := false, last := Emptied) else At(s, t, Sends(s.popped))
    case Take(n) =>
      var i, b := pc.buffer - s.popped, BufferAt(s, pc.buffer);
      s.(queue := s.queue[i := b.(offset := b.offset + n)], wire := s.wire + b.data[b.offset..b.offset + n])
    case Interrupt => s
    case Block => At(s, t, GivesUp(Pending))
    case Fail => At(s, t, GivesUp(Error))
    case Sent => At(s, t, Pops(pc.buffer))
    case Pop => At(s, t, Releases).(queue := s.queue[1..], popped := s.popped + 1)
    case Release => At(s, t, Rechecks).(sending := false, last := Finished)
    case Recheck => if s.queue == [] then Back(s, t, Complete) else At(s, t, Exchanges)
    case Exchange => (if s.sending then Back(s, t, Complete) else At(s, t, Looks)).(sending := true)
    case Yield => Back(s, t, pc.why).(sending := false, last := Stalled(pc.why))
  }

  // ---- the invariant ----

  /** Program points at which a thread holds `sending_`. */
  predicate Owner(s: State, t: Thread) {
    var pc := PcOf(s, t);
    pc.Looks? || pc.Sends? || pc.Pops? || pc.Releases? || pc.GivesUp?
  }

  /** At most one thread owns the front buffer, and the flag says whether one does. */
  ghost predicate Exclusive(s: State) {
    && (s.sending <==> exists t :: Owner(s, t))
    && (forall t, u | Owner(s, t) && Owner(s, u) :: t == u)
  }

  /** A pointer held by a thread is to the front buffer; one about to be popped is sent to the end. */
  ghost predicate Pointers(s: State) {
    forall t ::
      var pc := PcOf(s, t);
      && (pc.Sends? ==> pc.buffer == s.popped && s.queue != [])
      && (pc.Pops? ==> pc.buffer == s.popped && s.queue != [] && s.queue[0].offset == |s.queue[0].data|)
  }

  predicate Fits(b: Buffer) {
    b.offset <= |b.data|
  }

  function Unsent(q: seq<Buffer>): seq<byte>
    requires forall i | 0 <= i < |q| :: Fits(q[i])
  {
    if q == [] then [] else assert Fits(q[0]); q[0].data[q[0].offset..] + Unsent(q[1..])
  }

  function Joined(bs: seq<seq<byte>>): seq<byte> {
    if bs == [] then [] else Joined(bs[..|bs| - 1]) + bs[|bs| - 1]
  }

  /** Bytes on the wire, then the unsent rest of the queue, are what was packed, in pack order. */
  ghost predicate Conserved(s: State) {
    && (forall i | 0 <= i < |s.queue| :: Fits(s.queue[i]))
    && s.wire + Unsent(s.queue) == Joined(s.packed)
    && |s.packed| == s.popped + |s.queue|
  }

  /** Threads that will still look at the queue. */
  predicate Poised(s: State, t: Thread) {
    var pc := PcOf(s, t);
    pc.Owes? || pc.AtCas? || pc.Rechecks? || pc.Exchanges?
  }

  /** Queued bytes have an owner, or a thread that will still look, or were left behind by a stalled socket. */
  ghost predicate Wakeful(s: State) {
    s.queue == [] || s.sending || (exists t :: Poised(s, t)) || s.last.Stalled?
  }

  ghost predicate Inv(s: State) {
    Exclusive(s) && Pointers(s) && Conserved(s) && Wakeful(s)
  }

  lemma ExclusiveStep(s: State, t: Thread, step: Step)
    requires Inv(s) && Enabled(s, t, step)
    ensures Exclusive(Apply(s, t, step))
  {
    hide Conserved, Wakeful, Pointers;
    var s' := Apply(s, t, step);
    assert forall u | u != t :: PcOf(s', u) == PcOf(s, u);
    assert forall u | u != t :: Owner(s', u) == Owner(s, u);
    if Owner(s, t) && Owner(s', t) {
    } else if Owner(s, t) {
      assert !s'.sending;
    } else if Owner(s', t) {
      assert !s.sending && s'.sending;
    } else {
      assert s'.sending <==> (s.sending || step.Cas? || step.Exchange?);
    }
  }

  lemma PointersStep(s: State, t: Thread, step: Step)
    requires Inv(s) && Enabled(s, t, step)
    ensures Pointers(Apply(s, t, step))
  {
    hide Wakeful, Unsent, Joined;
    var s' := Apply(s, t, step);
    assert s.queue != [] ==> Fits(s.queue[0]);
    forall u
      ensures var pc := PcOf(s', u);
              && (pc.Sends? ==> pc.buffer == s'.popped && s'.queue != [])
              && (pc.Pops? ==> pc.buffer == s'.popped && s'.queue != [] && s'.queue[0].offset == |s'.queue[0].data|)
    {
      if u != t {
        assert PcOf(s', u) == PcOf(s, u);
        assert Owner(s, u) && Owner(s, t) ==> u == t;
      }
    }
  }

  lemma {:induction false} UnsentAppend(q: seq<Buffer>, b: Buffer)
    requires (forall i | 0 <= i < |q| :: Fits(q[i])) && Fits(b)
    ensures Unsent(q + [b]) == Unsent(q) + b.data[b.offset..]
  {
    if q == [] {
      assert q + [b] == [b] && Unsent([b]) == b.data[b.offset..] + Unsent([]);
    } else {
      assert (q + [b])[1..] == q[1..] + [b];
      UnsentAppend(q[1..], b);
    }
  }

  lemma PackConserves(s: State, t: Thread, data: seq<byte>)
    requires Conserved(s) && Enabled(s, t, Pack(data))
    ensures Conserved(Apply(s, t, Pack(data)))
  {
    UnsentAppend(s.queue, Buffer(data, 0));
    assert Buffer(data, 0).data[0..] == data;
    assert (s.packed + [data])[..|s.packed|] == s.packed;
  }

  lemma TakeConserves(s: State, t: Thread, n: nat)
    requires Conserved(s) && Pointers(s) && Enabled(s, t, Take(n))
    ensures Conserved(Apply(s, t, Take(n)))
  {
    var b, s' := s.queue[0], Apply(s, t, Take(n));
    assert PcOf(s, t).Sends? && PcOf(s, t).buffer == s.popped;
    assert s'.queue[1..] == s.queue[1..];
    assert b.data[b.offset..] == b.data[b.offset..b.offset + n] + b.data[b.offset + n..];
  }

  lemma PopConserves(s: State, t: Thread)
    requires Conserved(s) && Pointers(s) && Enabled(s, t, Pop)
    ensures Conserved(Apply(s, t, Pop))
  {
    assert PcOf(s, t).Pops?;
    assert s.queue[0].data[s.queue[0].offset..] == [];
  }

  lemma ConservedStep(s: State, t: Thread, step: Step)
    requires Inv(s) && Enabled(s, t, step)
    ensures Conserved(Apply(s, t, step))
  {
    hide Exclusive, Wakeful, Pointers, Unsent, Joined, Unfinished;
    match step
    case Pack(data) => PackConserves(s, t, data);
    case Take(n) => TakeConserves(s, t, n);
    case Pop => PopConserves(s, t);
    case _ =>
  }

  lemma WakefulStep(s: State, t: Thread, step: Step)
    requires Inv(s) && Enabled(s, t, step)
    ensures Wakeful(Apply(s, t, step))
  {
    hide Conserved, Pointers;
    var s' := Apply(s, t, step);
    assert forall u | u != t :: PcOf(s', u) == PcOf(s, u);
    if Poised(s', t) {
    } else if u :| Poised(s, u) && u != t {
      assert Poised(s', u);
    }
  }

  lemma StepKeepsInv(s: State, t: Thread, step: Step)
    requires Inv(s) && Enabled(s, t, step)
    ensures Inv(Apply(s, t, step))
  {
    ExclusiveStep(s, t, step);
    PointersStep(s, t, step);
    ConservedStep(s, t, step);
    WakefulStep(s, t, step);
  }

  // ---- every interleaving ----

  datatype Move = Move(thread: Thread, step: Step)

  predicate Next(s: State, m: Move, s': State) {
    Enabled(s, m.thread, m.step) && s' == Apply(s, m.thread, m.step)
  }

  predicate Run(states: seq<State>, moves: seq<Move>) {
    && |states| == |moves| + 1 && states[0] == Init()
    && forall i {:trigger moves[i]} | 0 <= i < |moves| :: Next(states[i], moves[i], states[i + 1])
  }

  lemma {:induction false} RunKeepsInv(states: seq<State>, moves: seq<Move>, i: nat)
    requires Run(states, moves) && i < |states|
    ensures Inv(states[i])
  {
    if i == 0 {
      assert Unsent([]) == [] && Joined([]) == [];
    } else {
      hide Inv, Enabled, Apply, Init;
      RunKeepsInv(states, moves, i - 1);
      assert Next(states[i - 1], moves[i - 1], states[i]);
      StepKeepsInv(states[i - 1], moves[i - 1].thread, moves[i - 1].step);
    }
  }

  /** At most one thread owns the front buffer; its pointer is to the front and never dangles. */
  lemma OneOwner(states: seq<State>, moves: seq<Move>, i: nat, t: Thread, u: Thread)
    requires Run(states, moves) && i < |states|
    ensures Owner(states[i], t) && Owner(states[i], u) ==> t == u
    ensures Owner(states[i], t) ==> states[i].sending
    ensures states[i].sending ==> exists v :: Owner(states[i], v)
    ensures var pc := PcOf(states[i], t);
            pc.Sends? || pc.Pops? ==> Alive(states[i], pc.buffer) && pc.buffer == states[i].popped
  {
    RunKeepsInv(states, moves, i);
  }

  /** Wire and unsent rest together are always exactly the packed bytes, so the wire is a prefix of them. */
  lemma BytesConserved(states: seq<State>, moves: seq<Move>, i: nat)
    requires Run(states, moves) && i < |states|
    ensures forall k | 0 <= k < |states[i].queue| :: Fits(states[i].queue[k])
    ensures states[i].wire + Unsent(states[i].queue) == Joined(states[i].packed)
    ensures states[i].wire <= Joined(states[i].packed)
  {
    RunKeepsInv(states, moves, i);
  }

  /** When every call has returned, bytes still queued were left by a Pending or Error return: no wakeup is lost. */
  lemma NoLostWakeup(states: seq<State>, moves: seq<Move>, i: nat)
    requires Run(states, moves) && i < |states|
    requires forall t :: PcOf(states[i], t).Idle?
    ensures !states[i].sending
    ensures states[i].queue != [] ==> states[i].last.Stalled?
    ensures !states[i].last.Stalled? ==> states[i].wire == Joined(states[i].packed)
  {
    RunKeepsInv(states, moves, i);
    assert forall t :: !Owner(states[i], t) && !Poised(states[i], t);
    if !states[i].last.Stalled? { assert Unsent(states[i].queue) == []; }
  }

  /** A thread in `pack` or `flush` can always take a step: nothing waits for another thread. */
  lemma NeverBlocked(states: seq<State>, moves: seq<Move>, i: nat, t: Thread) returns (step: Step)
    requires Run(states, moves) && i < |states| && !PcOf(states[i], t).Idle?
    ensures Enabled(states[i], t, step) && !step.Pack?
  {
    RunKeepsInv(states, moves, i);
    var pc := PcOf(states[i], t);
    match pc
    case Owes => step := Call;
    case AtCas => step := Cas;
    case Looks => step := Look;
    case Sends(_) => step := if Unfinished(states[i], pc) then Fail else Sent;
    case Pops(_) => step := Pop;
    case Releases => step := Release;
    case Rechecks => step := Recheck;
    case Exchanges => step := Exchange;
    case GivesUp(_) => step := Yield;
  }

  // ---- what a call returns ----

  /** An answer of the socket. */
  predicate IsAnswer(step: Step) {
    step.Take? || step.Interrupt? || step.Block? || step.Fail?
  }

  /** The last answer the socket gave this thread in its current call, before move `i`. */
  function LastAnswer(moves: seq<Move>, i: nat, t: Thread): Step
    requires i <= |moves|
    decreases i
  {
    if i == 0 then Call
    else if moves[i - 1].thread == t && (IsAnswer(moves[i - 1].step) || moves[i - 1].step.Call?) then moves[i - 1].step
    else LastAnswer(moves, i - 1, t)
  }

  /** The thread is about to give up exactly after such an answer. */
  predicate Told(pc: Pc, answer: Step) {
    && (pc == GivesUp(Pending) <==> answer.Block? && !Out(pc)) && (pc == GivesUp(Error) <==> answer.Fail? && !Out(pc))
    && pc != GivesUp(Complete)
  }

  /** Not inside `flush`. */
  predicate Out(pc: Pc) {
    pc.Idle? || pc.Owes?
  }

  /** Where a step takes its thread. */
  lemma PcAfter(s: State, t: Thread, step: Step)
    requires Enabled(s, t, step)
    ensures var pc, pc' := PcOf(s, t), PcOf(Apply(s, t, step), t);
            && (pc' == GivesUp(Pending) <==> step.Block?) && (pc' == GivesUp(Error) <==> step.Fail?)
            && pc' != GivesUp(Complete) && (Out(pc) ==> Out(pc') || step.Call?) && (pc.GivesUp? ==> Out(pc'))
  {}

  lemma StepTold(s: State, m: Move, t: Thread, answer: Step)
    requires Enabled(s, m.thread, m.step) && Told(PcOf(s, t), answer)
    ensures Told(PcOf(Apply(s, m.thread, m.step), t),
                 if m.thread == t && (IsAnswer(m.step) || m.step.Call?) then m.step else answer)
  {
    hide Apply, Enabled, PcOf;
    if m.thread != t { OtherPc(s, m, t); } else { PcAfter(s, t, m.step); }
  }

  lemma OtherPc(s: State, m: Move, t: Thread)
    requires Enabled(s, m.thread, m.step) && m.thread != t
    ensures PcOf(Apply(s, m.thread, m.step), t) == PcOf(s, t)
  {}

  lemma {:induction false} RunTold(states: seq<State>, moves: seq<Move>, i: nat, t: Thread)
    requires Run(states, moves) && i < |states|
    ensures Told(PcOf(states[i], t), LastAnswer(moves, i, t))
  {
    hide Enabled, Apply, Told, IsAnswer;
    if i > 0 {
      hide Init;
      RunTold(states, moves, i - 1, t);
      assert Next(states[i - 1], moves[i - 1], states[i]);
      StepTold(states[i - 1], moves[i - 1], t, LastAnswer(moves, i - 1, t));
    } else {
      StartTold(t);
    }
  }

  lemma StartTold(t: Thread)
    ensures Told(PcOf(Init(), t), Call)
  {}

  /** The call of `flush` that thread `t` is in returns `r`. */
  predicate Returns(s: State, s': State, t: Thread, r: FlushResult) {
    s'.returned == s.returned + [Return(t, r)]
  }

  lemma OneResult(s: State, s': State, t: Thread, r: FlushResult)
    requires Returns(s, s', t, r)
    ensures s'.returned != s.returned && forall q :: Returns(s, s', t, q) <==> q == r
  {
    assert s'.returned[|s.returned|] == Return(t, r);
  }

  /** The call finds the flag taken by another thread, or the queue empty. */
  predicate Finds(s: State, step: Step) {
    ((step.Cas? || step.Exchange?) && s.sending) || ((step.Look? || step.Recheck?) && s.queue == [])
  }

  lemma StepReturns(s: State, t: Thread, step: Step)
    requires Enabled(s, t, step)
    ensures var s' := Apply(s, t, step);
            if Finds(s, step) then Returns(s, s', t, Complete) && PcOf(s', t).Idle?
            else if step.Yield? then Returns(s, s', t, PcOf(s, t).why) && PcOf(s', t).Idle?
            else s'.returned == s.returned && !PcOf(s', t).Idle?
  {}

  /**
    A call returns Pending if and only if the last answer the socket gave it was that it would block, and Error if and
    only if that was a failure, in both cases by its next move; it returns Complete if and only if it finds the flag
    taken or the queue empty. Nothing else returns, so neither a partial write nor an interruption ends a call.
   */
  lemma ReturnsWhatItMet(states: seq<State>, moves: seq<Move>, i: nat)
    requires Run(states, moves) && i < |moves|
    ensures var s, s', t := states[i], states[i + 1], moves[i].thread;
            var inFlush, answer := !Out(PcOf(s, t)), LastAnswer(moves, i, t);
            && (Returns(s, s', t, Pending) <==> inFlush && answer.Block?)
            && (Returns(s, s', t, Error) <==> inFlush && answer.Fail?)
            && (Returns(s, s', t, Complete) <==> Finds(s, moves[i].step))
            && (s'.returned != s.returned <==> inFlush && PcOf(s', t).Idle?)
  {
    hide Apply, Enabled, Returns, Finds, LastAnswer;
    RunTold(states, moves, i, moves[i].thread);
    assert Next(states[i], moves[i], states[i + 1]);
    var s, s', t, step := states[i], states[i + 1], moves[i].thread, moves[i].step;
    StepReturns(s, t, step);
    OnlyYields(s, t, step);
    if Finds(s, step) { OneResult(s, s', t, Complete); }
    else if step.Yield? { OneResult(s, s', t, PcOf(s, t).why); }
    else { NoResult(s, s', t); }
  }

  lemma NoResult(s: State, s': State, t: Thread)
    requires s'.returned == s.returned
    ensures forall r :: !Returns(s, s', t, r)
  {}

  /** A thread that gives up can do nothing but return, and one that finds something does not. */
  lemma OnlyYields(s: State, t: Thread, step: Step)
    requires Enabled(s, t, step)
    ensures step.Yield? <==> PcOf(s, t).GivesUp?
    ensures Finds(s, step) ==> !step.Yield? && !Out(PcOf(s, t))
  {}
}
