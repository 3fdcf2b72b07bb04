/**
  What clients send arrives as it was sent, in every run: the body of a request in its event, its broadcast, its save
  job
  and its load; the sender's id in every copy of a broadcast and in the save job; and all of it in the stored row.
 */
module Payload {
  import opened Bytes
  import opened RoomEvents
  import opened ServerState
  import opened History
  import opened Flights
  import opened Itinerary
  import opened Ownership
  import opened Requests
  import opened Tokens
  import opened Talk
  import opened Broadcasts
  import opened Places
  import opened Casting
  import opened Rooms
  import opened Presence
  import opened Delivery
  import opened Responses
  import opened Outcomes
  import Turns
  import Reader
  import MessageList

  // ---- the body of a request ----

  function SaidOn(ticket: Ticket, tag: nat): Handled {
    Handled(ticket.room, ticket.fd, ticket.body, Request(tag))
  }

  /** The request asks for history. */
  predicate Asks(ticket: Ticket) {
    (ticket.command.CmdJoinRoom? || ticket.command.CmdLoadMessage?) && ticket.kind.Planned?
  }

  /** Everything on record of the request is what was sent. */
  predicate OnRecord(s: State, tag: nat, ticket: Ticket) {
    && (forall m | 0 <= m < |s.log.handled| && s.log.handled[m].origin == Request(tag) ::
          s.log.handled[m] == SaidOn(ticket, tag) && ticket.command.CmdSendMessage? && ticket.kind.Planned?)
    && (forall p | 0 <= p < |s.log.posted| && s.log.posted[p].LoadJob?
        && s.log.posted[p].event.origin == Request(tag) ::
          s.log.posted[p].room == ticket.room && s.log.posted[p].before == CursorIn(ticket.body)
          && Asks(ticket))
  }

  lemma CursorIs(body: seq<byte>)
    ensures CursorOf(body) == CursorIn(body)
  {}

  /** What a worker says or asks the database for is what its event says. */
  lemma EventSays(s: State, w: WorkerId, tag: nat, ticket: Ticket)
    requires Moving(s, w) && Bears(s.running[w], tag, ticket)
    ensures forall h | h in SaidBy(s, w) && h.origin == Request(tag) ::
              h == SaidOn(ticket, tag) && ticket.command.CmdSendMessage? && ticket.kind.Planned?
    ensures forall j | j in JobsBy(s, w) && j.LoadJob? && j.event.origin == Request(tag) ::
              j.room == ticket.room && j.before == CursorIn(ticket.body) && Asks(ticket)
  {
    SendActions(s, w);
    LoadActions(s, w);
    CursorIs(s.running[w].request);
    hide CursorOf, CursorIn, Bound, UserIdOf;
  }

  lemma LoadActions(s: State, w: WorkerId)
    requires Moving(s, w)
    ensures Executes(s, w) && ActionAt(s, w).command.RequestDbLoadMessage? ==>
              RoomIn(s.running[w].plan) == ActionAt(s, w).room
              && (s.running[w].initial.CmdJoinRoom? || s.running[w].initial.CmdLoadMessage?)
                 && KindOf(s.running[w].plan).Planned?
  {
    hide Bound;
    match s.running[w].plan
    case PlanJoin(_) => if s.running[w].cursor == 3 {} else {}
    case PlanLoad(_) => if s.running[w].cursor == 0 {} else {}
    case PlanCreate(_) =>
    case PlanLeave(_) =>
    case PlanSend(_) =>
    case _ =>
  }

  lemma GrowsRecord(s: State, t: State, tag: nat, ticket: Ticket, said: seq<Handled>, jobs: seq<Job>)
    requires OnRecord(s, tag, ticket) && t.log.handled == s.log.handled + said && t.log.posted == s.log.posted + jobs
    requires forall h | h in said && h.origin == Request(tag) ::
               h == SaidOn(ticket, tag) && ticket.command.CmdSendMessage? && ticket.kind.Planned?
    requires forall j | j in jobs && j.LoadJob? && j.event.origin == Request(tag) ::
               j.room == ticket.room && j.before == CursorIn(ticket.body) && Asks(ticket)
    ensures OnRecord(t, tag, ticket)
  {
    hide CursorIn;
    forall m | 0 <= m < |t.log.handled| && t.log.handled[m].origin == Request(tag)
      ensures t.log.handled[m] == SaidOn(ticket, tag) && ticket.command.CmdSendMessage? && ticket.kind.Planned?
    {
      if m >= |s.log.handled| { assert t.log.handled[m] == said[m - |s.log.handled|]; }
    }
    forall p | 0 <= p < |t.log.posted| && t.log.posted[p].LoadJob? && t.log.posted[p].event.origin == Request(tag)
      ensures t.log.posted[p].room == ticket.room && t.log.posted[p].before == CursorIn(ticket.body)
              && Asks(ticket)
    {
      if p >= |s.log.posted| { assert t.log.posted[p] == jobs[p - |s.log.posted|]; }
    }
  }

  /** What a step adds to the records is what the worker's event says, if the step is a worker's. */
  lemma StepSays(s: State, step: Step)
    requires Own(s) && Enabled(s, step)
    ensures var t := Apply(s, step);
            if step.Work? then t.log.handled == s.log.handled + SaidBy(s, step.w)
                && t.log.posted == s.log.posted + JobsBy(s, step.w)
            else t.log.handled == s.log.handled && t.log.posted == s.log.posted
  {
    hide Own, Act, SaidBy, JobsBy, HearersOf, PacketsOf, AcceptClient, Dispatch, RequestFlush, CloseSession, Take,
         LookAt,
         FinishJob, FoundOk, OutcomeOk, InTurn, Unused;
    if step.Work? {
      OwnRunning(s, step.w);
      if Executes(s, step.w) && ActionAt(s, step.w).command.SaveMessage? { SaveSucceeds(s, step.w); }
      WorkSays(s, step.w, step.found);
    } else if step.Give? {
      GiveLog(s, step.w);
    } else {
      SilentStep(s, step);
    }
  }

  lemma GiveLog(s: State, w: WorkerId)
    requires w in s.casts && s.casts[w].chosen.Some?
    ensures GiveTo(s, w).log == s.log
  {}

  lemma StepRecord(s: State, step: Step, tag: nat, ticket: Ticket)
    requires Own(s) && Enabled(s, step) && Known(s, tag, ticket) && OnRecord(s, tag, ticket)
    ensures OnRecord(Apply(s, step), tag, ticket)
  {
    hide Own, Known, OnRecord, SaidBy, JobsBy, Apply, Bears;
    StepSays(s, step);
    if step.Work? {
      OwnRunning(s, step.w);
      WorkingKnown(s, step.w, tag, ticket);
      EventSays(s, step.w, tag, ticket);
      GrowsRecord(s, Apply(s, step), tag, ticket, SaidBy(s, step.w), JobsBy(s, step.w));
    } else {
      GrowsRecord(s, Apply(s, step), tag, ticket, [], []);
    }
  }

  /** What is on record was dispatched before, and the save jobs are of messages on record. */
  predicate Filed(s: State) {
    && (forall m | 0 <= m < |s.log.handled| ::
          s.log.handled[m].origin.Request? && s.log.handled[m].origin.tag < s.log.issued)
    && (forall p | 0 <= p < |s.log.posted| && s.log.posted[p].LoadJob? && s.log.posted[p].event.origin.Request? ::
          s.log.posted[p].event.origin.tag < s.log.issued)
    && (forall p | 0 <= p < |s.log.posted| && s.log.posted[p].SaveJob? :: SavesSaid(s.log.handled, s.log.posted[p]))
  }

  predicate SavesSaid(handled: seq<Handled>, j: Job)
    requires j.SaveJob?
  {
    j.serial < |handled| && handled[j.serial].room == j.room && handled[j.serial].text == j.text
  }

  lemma EventOld(s: State, w: WorkerId)
    requires Conversation(s) && w in s.running
    ensures Moving(s, w)
    ensures forall h | h in SaidBy(s, w) :: h.origin.Request? && h.origin.tag < s.log.issued
    ensures forall j | j in JobsBy(s, w) && j.LoadJob? && j.event.origin.Request? :: j.event.origin.tag < s.log.issued
    ensures forall j | j in JobsBy(s, w) && j.SaveJob? :: SavesSaid(s.log.handled, j)
  {
    hide Own, Linear, SavedInOrder, Tracked, Count, UserIdOf, CursorOf;
    OwnRunning(s, w);
    OwnStaffed(s);
    RunningIsIn(s, w);
    SendActions(s, w);
    Turns.SendIsRequest(s.log.home, Flight(Running(w), s.running[w]));
    InFlightOld(s, Flight(Running(w), s.running[w]));
    assert MarkOk(s.log.handled, s.log.posted, s.running[w]);
    hide OnCourse, Bound, Marks, SaveOrder;
  }

  lemma InFlightOld(s: State, f: Flight)
    requires Linear(s) && In(s, f)
    ensures f.event.origin.Request? ==> f.event.origin.tag < s.log.issued
  {
    hide OneEnd, Conserved, Count;
  }

  lemma GrowFiled(s: State, t: State, said: seq<Handled>, jobs: seq<Job>)
    requires Filed(s) && t.log.handled == s.log.handled + said && t.log.posted == s.log.posted + jobs
    requires s.log.issued <= t.log.issued
    requires forall h | h in said :: h.origin.Request? && h.origin.tag < s.log.issued
    requires forall j | j in jobs && j.LoadJob? && j.event.origin.Request? :: j.event.origin.tag < s.log.issued
    requires forall j | j in jobs && j.SaveJob? :: SavesSaid(s.log.handled, j)
    ensures Filed(t)
  {
    hide SavesSaid;
    forall m | 0 <= m < |t.log.handled| ensures t.log.handled[m].origin.Request?
        && t.log.handled[m].origin.tag < t.log.issued {
      if m >= |s.log.handled| { assert t.log.handled[m] == said[m - |s.log.handled|]; }
    }
    forall p | 0 <= p < |t.log.posted| && t.log.posted[p].LoadJob? && t.log.posted[p].event.origin.Request?
      ensures t.log.posted[p].event.origin.tag < t.log.issued
    {
      if p >= |s.log.posted| { assert t.log.posted[p] == jobs[p - |s.log.posted|]; }
    }
    forall p | 0 <= p < |t.log.posted| && t.log.posted[p].SaveJob? ensures SavesSaid(t.log.handled, t.log.posted[p]) {
      if p >= |s.log.posted| { assert t.log.posted[p] == jobs[p - |s.log.posted|]; }
      SavesKept(s.log.handled, t.log.handled, t.log.posted[p]);
    }
  }

  lemma StepFiled(s: State, step: Step)
    requires Conversation(s) && Filed(s) && Enabled(s, step)
    ensures Filed(Apply(s, step))
  {
    ConversationOwns(s);
    hide Conversation, Own, SaidBy, JobsBy, Apply, SavesSaid, Filed, Enabled;
    StepSays(s, step);
    StepIssues(s, step);
    if step.Work? {
      WorkHolds(s, step);
      EventOld(s, step.w);
      GrowFiled(s, Apply(s, step), SaidBy(s, step.w), JobsBy(s, step.w));
    } else {
      GrowFiled(s, Apply(s, step), [], []);
    }
  }

  lemma WorkHolds(s: State, step: Step)
    requires Enabled(s, step) && step.Work?
    ensures step.w in s.running
  {
    hide FoundOk;
  }

  lemma SavesKept(handled: seq<Handled>, more: seq<Handled>, j: Job)
    requires j.SaveJob? && handled <= more && SavesSaid(handled, j)
    ensures SavesSaid(more, j)
  {}

  lemma {:induction false} RunFiled(states: seq<State>, steps: seq<Step>, n: nat, i: nat)
    requires Run(states, steps, n) && i < |states|
    ensures Filed(states[i])
  {
    hide Conversation, Filed, Enabled, Apply;
    if i == 0 {
      StartFiled(n);
    } else {
      hide Init;
      RunFiled(states, steps, n, i - 1);
      RunTalks(states, steps, n, i - 1);
      assert Next(states[i - 1], steps[i - 1], states[i]);
      StepFiled(states[i - 1], steps[i - 1]);
    }
  }

  lemma StartFiled(n: nat)
    ensures Filed(Init(n))
  {}

  lemma RunTalks(states: seq<State>, steps: seq<Step>, n: nat, i: nat)
    requires Run(states, steps, n) && i < |states|
    ensures Conversation(states[i])
  {
    hide Conversation, Run, Streams, Live, Stored;
    RunDelivers(states, steps, n, i);
  }

  /** From its dispatch on, everything on record of a request is what was sent. */
  lemma {:induction false} StaysOnRecord(states: seq<State>, steps: seq<Step>, n: nat, q: nat, i: nat, tag: nat)
    requires Run(states, steps, n) && q < i < |states| && Dispatches(states[q], steps[q], tag)
    ensures OnRecord(states[i], tag, TicketOf(states[q], steps[q].fd, steps[q].cmd, steps[q].room, steps[q].body))
  {
    hide Own, Known, OnRecord, Enabled, Apply, Init, TicketOf, Filed;
    if i == q + 1 {
      RunFiled(states, steps, n, q);
      assert Next(states[q], steps[q], states[i]);
      NotYetOnRecord(states[q], steps[q], TicketOf(states[q], steps[q].fd, steps[q].cmd, steps[q].room, steps[q].body));
    } else {
      StaysOnRecord(states, steps, n, q, i - 1, tag);
      StaysKnown(states, steps, n, q, i - 1, tag);
      RunOwns(states, steps, n, i - 1);
      assert Next(states[i - 1], steps[i - 1], states[i]);
      StepRecord(states[i - 1], steps[i - 1], tag,
                 TicketOf(states[q], steps[q].fd, steps[q].cmd, steps[q].room, steps[q].body));
    }
  }

  lemma NotYetOnRecord(s: State, step: Step, ticket: Ticket)
    requires Filed(s) && Enabled(s, step) && step.Ask?
    ensures OnRecord(Apply(s, step), s.log.issued, ticket)
  {
    AskTally(s, step.fd, step.cmd, step.room, step.body);
    hide Dispatch;
  }

  /** The main thread finds a worker for the request. */
  predicate FindsWorker(s: State, step: Step)
    requires step.Ask?
  {
    step.cmd.CmdCreateRoom? || step.cmd.CmdLeaveRoom? || step.room in s.bindings
  }

  predicate FromRequest(e: Event, s: State, step: Step)
    requires step.Ask?
  {
    e.fd == step.fd && e.initial == step.cmd && e.request == if FindsWorker(s, step) then step.body else []
  }

  /**
    A request is what its client sent, wherever it is and whatever comes of it: its event, in flight, answered or lost;
    the message it broadcasts, and that alone; the save job of that message; and the load it asks for, from the message
    whose number is in the body, or from the newest.
   */
  lemma BodyArrives(states: seq<State>, steps: seq<Step>, n: nat, q: nat, i: nat, tag: nat)
    requires Run(states, steps, n) && q < i < |states| && steps[q].Ask? && states[q].log.issued == tag
    ensures forall f | In(states[i], f) && f.event.origin == Request(tag) :: FromRequest(f.event, states[q], steps[q])
    ensures var l := states[i].log;
            && (forall k | 0 <= k < |l.answers| && l.answers[k].origin == Request(tag) ::
                  FromRequest(l.answers[k], states[q], steps[q]))
            && (forall k | 0 <= k < |l.dropped| && l.dropped[k].origin == Request(tag) ::
                  FromRequest(l.dropped[k], states[q], steps[q]))
    ensures var l, a := states[i].log, steps[q];
            && (forall m | 0 <= m < |l.handled| && l.handled[m].origin == Request(tag) ::
                  a.cmd == CmdSendMessage && l.handled[m] == Handled(a.room, a.fd, a.body, Request(tag)))
            && (forall p | 0 <= p < |l.posted| && l.posted[p].SaveJob? ::
                  l.posted[p].serial < |l.handled| && (l.handled[l.posted[p].serial].origin == Request(tag) ==>
                    l.posted[p].room == a.room && l.posted[p].text == a.body))
            && (forall p | 0 <= p < |l.posted| && l.posted[p].LoadJob? && l.posted[p].event.origin == Request(tag) ::
                  l.posted[p].room == a.room && l.posted[p].before == CursorIn(a.body))
  {
    hide Next, Init, Count, Own, CursorIn;
    StaysOnRecord(states, steps, n, q, i, tag);
    StaysKnown(states, steps, n, q, i, tag);
    RunFiled(states, steps, n, i);
    RunOwns(states, steps, n, q);
    OwnBound(states[q]);
    var ticket := TicketOf(states[q], steps[q].fd, steps[q].cmd, steps[q].room, steps[q].body);
    assert ticket.kind.Planned? && !ticket.command.CmdCreateRoom?
           ==> ticket.room == steps[q].room && ticket.body == steps[q].body;
  }

  // ---- who says it ----

  /** The id under which the descriptor is connected after the first `i` steps, if it is. */
  function Connected(steps: seq<Step>, i: nat, fd: Fd): Option<int64>
    requires i <= |steps|
  {
    if i == 0 then Nothing else ConnectedAfter(steps[i - 1], Connected(steps, i - 1, fd), fd)
  }

  function ConnectedAfter(step: Step, before: Option<int64>, fd: Fd): Option<int64> {
    match step
    case Accept(d, id, _) => if d == fd then Some(id) else before
    case Close(d, _) => if d == fd then Nothing else before
    case _ => before
  }

  function IdOf(s: State, fd: Fd): Option<int64> {
    if fd in s.users then Some(s.users[fd].id) else Nothing
  }

  lemma QuietIds(s: State, step: Step, fd: Fd)
    requires Enabled(s, step) && !step.Work?
    ensures IdOf(Apply(s, step), fd) == ConnectedAfter(step, IdOf(s, fd), fd)
  {
    hide Route, FinishJob, Unused, OutcomeOk, InTurn;
    match step
    case Accept(_, _, _) =>
    case Ask(_, _, _, _) =>
    case Tick(d, garbage) => if d in s.users { RouteFields(s, FlushEvent(d, s.users[d].room, garbage)); }
    case Close(d, garbage) =>
      var u := Route(s, DepartEvent(d, s.users[d].room, garbage));
      RouteFields(s, DepartEvent(d, s.users[d].room, garbage));
      RouteFields(u, DepartEvent(d, LOBBY_ROOM_ID, garbage));
      if s.users[d].room != LOBBY_ROOM_ID {} else {}
    case Start(_, _) =>
    case Look(_, _) =>
    case Give(_) =>
    case Query(o) => QueryPlaces(s, o);
  }

  lemma WorkIds(s: State, w: WorkerId, found: RoomId, fd: Fd)
    requires Own(s) && Roomy(s) && w in s.running
    ensures IdOf(Act(s, w, found), fd) == IdOf(s, fd)
  {
    OwnDistinct(s);
    hide Own, Roomy, Distinct, Act, ChangeOf, RoomsOf, StaysHome;
    WorkShifts(s, w, found);
  }

  lemma StepIds(s: State, step: Step, fd: Fd)
    requires Own(s) && Roomy(s) && Enabled(s, step)
    ensures IdOf(Apply(s, step), fd) == ConnectedAfter(step, IdOf(s, fd), fd)
  {
    hide Own, Roomy, Act, IdOf, FoundOk;
    if step.Work? {
      WorkIds(s, step.w, step.found, fd);
    } else {
      hide Apply, Enabled;
      QuietIds(s, step, fd);
    }
  }

  /** A user's id is that of the last connection of its descriptor. */
  lemma {:induction false} IdsAre(states: seq<State>, steps: seq<Step>, n: nat, i: nat, fd: Fd)
    requires Run(states, steps, n) && i < |states|
    ensures IdOf(states[i], fd) == Connected(steps, i, fd)
  {
    hide Own, Roomy, Apply, Enabled, ConnectedAfter;
    if i > 0 {
      hide Init;
      IdsAre(states, steps, n, i - 1, fd);
      assert Next(states[i - 1], steps[i - 1], states[i]);
      RunOwns(states, steps, n, i - 1);
      CapacityHolds(states, steps, n, i - 1);
      StepIds(states[i - 1], steps[i - 1], fd);
    }
  }

  /**
    The id that goes out with what the descriptor says at step `k`: that of its connection, or zero after it is
    closed.
   */
  function SenderAt(steps: seq<Step>, k: nat, fd: Fd): int64
    requires k <= |steps|
  {
    if Connected(steps, k, fd).Some? then Connected(steps, k, fd).value else 0
  }

  /** Step `k` is the one at which message `m` is handled, as a message of `fd`. */
  ghost predicate SaysAt(states: seq<State>, steps: seq<Step>, k: nat, m: nat, fd: Fd) {
    && k < |steps| && k + 1 < |states| && steps[k].Work? && |states[k].log.handled| == m < |states[k + 1].log.handled|
    && states[k + 1].log.handled[m].fd == fd
  }

  /** The packet, if a broadcast, bears the id of the session that said it, at the step at which it did. */
  ghost predicate Signed(states: seq<State>, steps: seq<Step>, i: nat, p: Packet) {
    p.Broadcast? ==>
      exists k: nat, fd :: k < i && SaysAt(states, steps, k, p.serial, fd) && p.sender == SenderAt(steps, k, fd)
  }

  ghost predicate AllSigned(states: seq<State>, steps: seq<Step>, i: nat)
    requires i < |states|
  {
    && (forall fd, x | 0 <= x < |Packed(states[i], fd)| :: Signed(states, steps, i, Packed(states[i], fd)[x]))
    && (forall w | w in states[i].casts :: Signed(states, steps, i, states[i].casts[w].packet))
  }

  lemma SignedLater(states: seq<State>, steps: seq<Step>, i: nat, p: Packet)
    requires Signed(states, steps, i, p)
    ensures Signed(states, steps, i + 1, p)
  {
    hide SaysAt, SenderAt;
  }

  /** The broadcasts there are after a step: those there were, and what a worker begins to say. */
  lemma NewCasts(s: State, step: Step, w: WorkerId)
    requires Own(s) && Enabled(s, step) && w in Apply(s, step).casts
    ensures var c := Apply(s, step).casts[w];
            || (w in s.casts && c.packet == s.casts[w].packet)
            || (step.Work? && step.w == w && Speaks(s, w) && c.packet.Broadcast? && c.packet.serial == |s.log.handled|
                && c.packet.sender == if s.running[w].fd in s.users then s.users[s.running[w].fd].id else 0)
  {
    hide Own, Act, AcceptClient, Dispatch, RequestFlush, CloseSession, Take, FinishJob, FoundOk, OutcomeOk, InTurn,
         Unused,
         PackedWith;
    if step.Work? {
      WorkCasts(s, step.w, step.found);
    } else if !step.Look? && !step.Give? {
      QuietFields(s, step);
    }
  }

  /** What is packed in a step: answers, and the packet of a broadcast under way. */
  lemma NewPackets(s: State, step: Step, fd: Fd, x: nat)
    requires Own(s) && Enabled(s, step) && x < |Packed(Apply(s, step), fd)|
    ensures var p := Packed(Apply(s, step), fd)[x];
            || (x < |Packed(s, fd)| && p == Packed(s, fd)[x]) || p.Response?
            || (step.Give? && step.w in s.casts && p == s.casts[step.w].packet)
  {
    hide Own, Act, SaidBy, JobsBy, FateOf, AcceptClient, Dispatch, RequestFlush, CloseSession, Take, LookAt, GiveTo,
         FinishJob, FoundOk, OutcomeOk, InTurn, Unused;
    if step.Work? {
      OwnRunning(s, step.w);
      if Executes(s, step.w) && ActionAt(s, step.w).command.SaveMessage? { SaveSucceeds(s, step.w); }
      WorkSays(s, step.w, step.found);
    } else if step.Give? {
      GivePacked(s, step.w, fd);
    } else {
      SilentStep(s, step);
    }
  }

  lemma SpeaksAt(states: seq<State>, steps: seq<Step>, n: nat, i: nat)
    requires Run(states, steps, n) && i < |steps| && steps[i].Work? && steps[i].w in states[i].running
    requires Speaks(states[i], steps[i].w)
    ensures SaysAt(states, steps, i, |states[i].log.handled|, states[i].running[steps[i].w].fd)
  {
    hide Own, Apply, Init, JobsBy;
    RunOwns(states, steps, n, i);
    assert Next(states[i], steps[i], states[i + 1]);
    StepSays(states[i], steps[i]);
  }

  lemma {:induction false} RunSigned(states: seq<State>, steps: seq<Step>, n: nat, i: nat)
    requires Run(states, steps, n) && i < |states|
    ensures AllSigned(states, steps, i)
  {
    hide Own, Enabled, Apply, Signed, Speaks;
    if i > 0 {
      hide Init;
      RunSigned(states, steps, n, i - 1);
      RunOwns(states, steps, n, i - 1);
      assert Next(states[i - 1], steps[i - 1], states[i]);
      forall w | w in states[i].casts ensures Signed(states, steps, i, states[i].casts[w].packet) {
        CastSigned(states, steps, n, i, w);
      }
      forall fd, x | 0 <= x < |Packed(states[i], fd)| ensures Signed(states, steps, i, Packed(states[i], fd)[x]) {
        PacketSigned(states, steps, n, i, fd, x);
      }
    }
  }

  lemma CastSigned(states: seq<State>, steps: seq<Step>, n: nat, i: nat, w: WorkerId)
    requires Run(states, steps, n) && 0 < i < |states| && AllSigned(states, steps, i - 1) && w in states[i].casts
    ensures Signed(states, steps, i, states[i].casts[w].packet)
  {
    hide Own, Apply, Init, Speaks, SaysAt, Connected;
    var s, step := states[i - 1], steps[i - 1];
    RunOwns(states, steps, n, i - 1);
    assert Next(s, step, states[i]);
    NewCasts(s, step, w);
    var p := states[i].casts[w].packet;
    if w in s.casts && p == s.casts[w].packet {
      SignedLater(states, steps, i - 1, p);
    } else {
      var fd := s.running[w].fd;
      SpeaksAt(states, steps, n, i - 1);
      IdsAre(states, steps, n, i - 1, fd);
      assert SaysAt(states, steps, i - 1, p.serial, fd) && p.sender == SenderAt(steps, i - 1, fd);
    }
  }

  lemma PacketSigned(states: seq<State>, steps: seq<Step>, n: nat, i: nat, fd: Fd, x: nat)
    requires Run(states, steps, n) && 0 < i < |states| && AllSigned(states, steps, i - 1) && x < |Packed(states[i], fd)|
    ensures Signed(states, steps, i, Packed(states[i], fd)[x])
  {
    hide Own, Apply, Init, Signed;
    RunOwns(states, steps, n, i - 1);
    assert Next(states[i - 1], steps[i - 1], states[i]);
    NewPackets(states[i - 1], steps[i - 1], fd, x);
    var p := Packed(states[i], fd)[x];
    if p.Response? { AnswersAreUnsigned(states, steps, i, p); } else { SignedLater(states, steps, i - 1, p); }
  }

  lemma AnswersAreUnsigned(states: seq<State>, steps: seq<Step>, i: nat, p: Packet)
    requires p.Response?
    ensures Signed(states, steps, i, p)
  {}

  /**
    Every copy of a broadcast, on any session, bears the id under which the session that said it was connected at the
    step at which its message was handled, or zero if it had been closed by then.
   */
  lemma SenderIsConnected(states: seq<State>, steps: seq<Step>, n: nat, i: nat, fd: Fd, x: nat)
    requires Run(states, steps, n) && i < |states| && x < |Packed(states[i], fd)| && Packed(states[i], fd)[x].Broadcast?
    ensures var p := Packed(states[i], fd)[x];
            && p.serial < |states[i].log.handled|
            && exists k: nat :: k < i && SaysAt(states, steps, k, p.serial, states[i].log.handled[p.serial].fd)
                                && p.sender == SenderAt(steps, k, states[i].log.handled[p.serial].fd)
  {
    hide Next, Init, SenderAt;
    RunSigned(states, steps, n, i);
    var p := Packed(states[i], fd)[x];
    assert Signed(states, steps, i, p);
    var k: nat, d :| k < i && SaysAt(states, steps, k, p.serial, d) && p.sender == SenderAt(steps, k, d);
    RunSays(states, steps, n, k + 1, i);
  }

  lemma {:induction false} RunSays(states: seq<State>, steps: seq<Step>, n: nat, i: nat, j: nat)
    requires Run(states, steps, n) && i <= j < |states|
    ensures states[i].log.handled <= states[j].log.handled
  {
    hide Own, Enabled, Apply, Init;
    if i < j {
      RunSays(states, steps, n, i, j - 1);
      RunOwns(states, steps, n, j - 1);
      assert Next(states[j - 1], steps[j - 1], states[j]);
      StepSays(states[j - 1], steps[j - 1]);
    }
  }

  // ---- what is saved and stored ----

  /** Step `k` is the one at which the `p`-th job is posted. */
  ghost predicate PostsAt(states: seq<State>, steps: seq<Step>, k: nat, p: nat) {
    k < |steps| && k + 1 < |states| && steps[k].Work? && |states[k].log.posted| == p < |states[k + 1].log.posted|
  }

  /** A save job is of a message on record and bears its sender's id at the step at which it is posted. */
  ghost predicate SaveSigned(states: seq<State>, steps: seq<Step>, i: nat, p: nat)
    requires i < |states| && p < |states[i].log.posted|
  {
    var l := states[i].log;
    l.posted[p].SaveJob? ==>
      && l.posted[p].serial < |l.handled|
      && exists k: nat :: k < i && PostsAt(states, steps, k, p)
                          && l.posted[p].sender == SenderAt(steps, k, l.handled[l.posted[p].serial].fd)
  }

  /** A worker posts at most one job; a save job is of what its event said, with its sender's id. */
  lemma JobSender(s: State, w: WorkerId)
    requires Moving(s, w) && MarkOk(s.log.handled, s.log.posted, s.running[w])
    ensures |JobsBy(s, w)| <= 1
    ensures forall j | j in JobsBy(s, w) && j.SaveJob? ::
              var fd := s.running[w].fd;
              && j.serial < |s.log.handled| && s.log.handled[j.serial].fd == fd
              && j.sender == if fd in s.users then s.users[fd].id else 0
  {
    SendActions(s, w);
    hide OnCourse, Bound, SaveOrder, CursorOf, Covered;
  }

  predicate NewJob(s: State, t: State, w: WorkerId) {
    && s.log.posted <= t.log.posted && |t.log.posted| <= |s.log.posted| + 1 && w in s.running
    && (|t.log.posted| > |s.log.posted| && t.log.posted[|s.log.posted|].SaveJob? ==>
          var j, fd := t.log.posted[|s.log.posted|], s.running[w].fd;
          && j.serial < |s.log.handled| && s.log.handled[j.serial].fd == fd
          && j.sender == if fd in s.users then s.users[fd].id else 0)
  }

  lemma GrowJobs(s: State, t: State, w: WorkerId)
    requires t.log.posted == s.log.posted + JobsBy(s, w) && Moving(s, w)
    requires MarkOk(s.log.handled, s.log.posted, s.running[w])
    ensures NewJob(s, t, w)
  {
    JobSender(s, w);
    hide Bound, OnCourse, MarkOk, JobsBy;
  }

  lemma NewJobs(s: State, step: Step)
    requires Conversation(s) && Enabled(s, step)
    ensures var t := Apply(s, step);
            && s.log.handled <= t.log.handled
            && if step.Work? then NewJob(s, t, step.w) else t.log.posted == s.log.posted
  {
    ConversationOwns(s);
    hide Conversation, Own, Apply, SaidBy, JobsBy, OnCourse, Bound, Enabled, MarkOk, NewJob;
    StepSays(s, step);
    if step.Work? {
      WorkHolds(s, step);
      OwnRunning(s, step.w);
      WorkMark(s, step.w);
      GrowJobs(s, Apply(s, step), step.w);
    }
  }

  lemma WorkMark(s: State, w: WorkerId)
    requires Conversation(s) && w in s.running
    ensures MarkOk(s.log.handled, s.log.posted, s.running[w])
  {
    hide Own, Linear, SavedInOrder, Tracked, Count, MarkOk, AnswerMark, LoadCovered;
    ConversationOwns(s);
    OwnStaffed(s);
    RunningIsIn(s, w);
    assert MarkOk(s.log.handled, s.log.posted, Flight(Running(w), s.running[w]).event);
  }

  lemma {:induction false} SavesAreSigned(states: seq<State>, steps: seq<Step>, n: nat, i: nat, p: nat)
    requires Run(states, steps, n) && i < |states| && p < |states[i].log.posted|
    ensures SaveSigned(states, steps, i, p)
  {
    hide Conversation, Enabled, Apply, Connected;
    if i > 0 {
      hide Init;
      RunTalks(states, steps, n, i - 1);
      assert Next(states[i - 1], steps[i - 1], states[i]);
      var s, l := states[i - 1], states[i].log;
      NewJobs(s, steps[i - 1]);
      if p < |s.log.posted| {
        SavesAreSigned(states, steps, n, i - 1, p);
      } else if l.posted[p].SaveJob? {
        IdsAre(states, steps, n, i - 1, s.running[steps[i - 1].w].fd);
        assert PostsAt(states, steps, i - 1, p);
        assert l.posted[p].sender == SenderAt(steps, i - 1, l.handled[l.posted[p].serial].fd);
      }
    }
  }

  /**
    The database stored row `q` at step `k`, from the save job it had at hand, with the nick the server gives
    everybody.
   */
  ghost predicate StoresAt(states: seq<State>, steps: seq<Step>, k: nat, q: nat, row: Row) {
    && k < |steps| && k < |states| && |states[k].store| == q
       && steps[k] == Query(Saved(row.message.id, row.message.epoch))
    && states[k].jobs != []
    && states[k].jobs[0] == SaveJob(row.room, row.message.sender, row.message.content, row.serial)
    && row.message.nick == [116, 101, 109, 112, 110, 105, 99, 107, 110, 97, 109, 101]
  }

  lemma NewRows(s: State, step: Step)
    requires Own(s) && Enabled(s, step)
    ensures var t := Apply(s, step);
            || t.store == s.store
            || (|t.store| == |s.store| + 1 && s.store <= t.store && s.jobs != []
                && var row := t.store[|s.store|];
                   && step == Query(Saved(row.message.id, row.message.epoch))
                   && s.jobs[0] == SaveJob(row.room, row.message.sender, row.message.content, row.serial)
                   && row.message.nick == [116, 101, 109, 112, 110, 105, 99, 107, 110, 97, 109, 101])
  {
    hide Own, Act, Route, CloseSession, FinishJob, JobsBy, FoundOk, OutcomeOk, InTurn, Unused;
    match step
    case Work(w, found) =>
      OwnRunning(s, w);
      if Executes(s, w) && ActionAt(s, w).command.SaveMessage? { SaveSucceeds(s, w); }
      WorkDb(s, w, found);
    case Query(o) => QueryRows(s, o);
    case Tick(fd, garbage) => if fd in s.users { RouteDb(s, 0, FlushEvent(fd, s.users[fd].room, garbage)); }
    case Close(fd, garbage) => CloseRows(s, fd, garbage);
    case _ =>
  }

  lemma CloseRows(s: State, fd: Fd, garbage: Command)
    requires fd in s.users
    ensures CloseSession(s, fd, garbage).store == s.store
  {
    hide Route;
    var room := s.users[fd].room;
    RouteDb(s, 0, DepartEvent(fd, room, garbage));
    RouteDb(Route(s, DepartEvent(fd, room, garbage)), 0, DepartEvent(fd, LOBBY_ROOM_ID, garbage));
    if room != LOBBY_ROOM_ID {} else {}
  }

  lemma QueryRows(s: State, o: DbOutcome)
    requires s.jobs != []
    ensures var t := FinishJob(s, o);
            if s.jobs[0].SaveJob? && o.Saved? then
              t.store == s.store + [Row(s.jobs[0].room,
                                        MessageList.Message(o.id, s.jobs[0].sender, o.epoch,
                                                            [116, 101, 109, 112, 110, 105, 99, 107, 110, 97, 109, 101],
                                                            s.jobs[0].text), s.jobs[0].serial)]
            else t.store == s.store
  {
    hide Route, LoadResult, Post, Hand, Bind, Resolved, Report;
    match s.jobs[0]
    case SaveJob(_, _, _, _) => if o.Saved? {} else {}
    case CreateJob(e) => CreateStore(s.(jobs := s.jobs[1..]), o, e);
    case HandJob(e, w) => PostStore(s.(jobs := s.jobs[1..]), w, e.(hops := e.hops + 1));
    case LoadJob(e, room, before) => RouteDb(s.(jobs := s.jobs[1..]), 0, LoadResult(s, e, room, before, o));
  }

  lemma CreateStore(s: State, o: DbOutcome, e: Event)
    ensures o.Created? ==> Hand(Bind(s, o.id, o.worker), HandJob(Resolved(e, o.id), o.worker)).store == s.store
    ensures Post(s, LOBBY_WORKER_ID, Report(e, DbError).(hops := e.hops + 1)).store == s.store
  {
    hide Resolved, Report;
  }

  lemma PostStore(s: State, w: WorkerId, e: Event)
    ensures Post(s, w, e).store == s.store
  {}

  lemma {:induction false} RowsAre(states: seq<State>, steps: seq<Step>, n: nat, i: nat, q: nat) returns (k: nat)
    requires Run(states, steps, n) && i < |states| && q < |states[i].store|
    ensures k < i && StoresAt(states, steps, k, q, states[i].store[q])
  {
    hide Own, Enabled, Apply;
    assert i > 0;
    hide Init;
    RunOwns(states, steps, n, i - 1);
    assert Next(states[i - 1], steps[i - 1], states[i]);
    NewRows(states[i - 1], steps[i - 1]);
    if q < |states[i - 1].store| {
      k := RowsAre(states, steps, n, i - 1, q);
    } else {
      k := i - 1;
    }
  }

  /** The job at hand is the next of those posted. */
  lemma AtHand(s: State)
    requires Stored(s) && s.jobs != [] && s.jobs[0].SaveJob?
    ensures DoneJobs(s) < |s.log.posted| && s.log.posted[DoneJobs(s)] == s.jobs[0]
  {
    assert StillQueued(s.jobs)[0] == s.log.posted[DoneJobs(s)..][0];
  }

  /**
    Every stored row is a message that was said in its room: its text; the id under which its session was connected at
    the step that posted its save job, or zero if it had been closed by then; the nick the server gives everybody; and
    the id and time that the database gave when it stored the row.
   */
  lemma StoredAsSaid(states: seq<State>, steps: seq<Step>, n: nat, i: nat, q: nat)
    requires Run(states, steps, n) && i < |states| && q < |states[i].store|
    ensures var row, l := states[i].store[q], states[i].log;
            && row.serial < |l.handled| && l.handled[row.serial].room == row.room
            && l.handled[row.serial].text == row.message.content
            && (exists k: nat :: k < i && StoresAt(states, steps, k, q, row))
            && (exists k: nat, p: nat :: k < i && PostsAt(states, steps, k, p) && p < |l.posted| && l.posted[p].SaveJob?
                  && l.posted[p].serial == row.serial
                  && row.message.sender == SenderAt(steps, k, l.handled[row.serial].fd))
  {
    hide Next, Init, SenderAt, Conversation, Streams, Live, Stored, PostsAt;
    var row := states[i].store[q];
    var k := RowsAre(states, steps, n, i, q);
    RunDelivers(states, steps, n, k);
    AtHand(states[k]);
    var p := DoneJobs(states[k]);
    RunFiled(states, steps, n, k);
    SavesAreSigned(states, steps, n, k, p);
    RunSays(states, steps, n, k, i);
    Reader.RunDb(states, steps, n, k, i);
    assert states[i].log.posted[p] == states[k].log.posted[p] == states[k].jobs[0];
    var l := states[k].log;
    var k' :| 0 <= k' < k && PostsAt(states, steps, k', p)
              && l.posted[p].sender == SenderAt(steps, k', l.handled[l.posted[p].serial].fd);
  }
}
