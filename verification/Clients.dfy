/**
  The client's state machine (client/src/Client.cpp); one disciplined client among any others, and a whole system of
  disciplined clients.
 */
module Clients {
  import opened Bytes
  import opened RoomEvents
  import opened ServerState
  import opened Flights

  datatype View = AtLobby | InRoom(room: RoomId)

  datatype Asked = Asked(command: Command, room: RoomId, body: sized)

  /** A client: where it believes to be, its one open request, that request while still on the way, packets read. */
  datatype Client = Client(view: View, pending: Option<Asked>, wire: Option<Asked>, read: nat)

  function RoomOf(v: View): RoomId {
    if v.AtLobby? then LOBBY_ROOM_ID else v.room
  }

  /** What `handle_input` and the command tables let the user ask for in each state. */
  predicate MayAsk(v: View, a: Asked) {
    match v
    case AtLobby =>
      || (a.command == CmdCreateRoom && a.room == 0 && a.body == [])
      || (a.command == CmdJoinRoom && a.room != 0 && a.room != LOBBY_ROOM_ID && a.body == [])
    case InRoom(r) =>
      || (a.command == CmdLoadMessage && a.room == r && |a.body| == 8)
      || (a.command == CmdLeaveRoom && a.room == r && a.body == [])
      || (a.command == CmdSendMessage && a.room == r && a.body != [])
  }

  /** The view after a successful response to request `a` with this body. */
  function Entered(v: View, a: Asked, body: seq<byte>): View {
    match a.command
    case CmdCreateRoom => if |body| < 8 then v else InRoom(I64Value(body[..8]))
    case CmdJoinRoom => InRoom(a.room)
    case CmdLeaveRoom => AtLobby
    case _ => v
  }

  /** `handle_response` and `handle_broadcast`: only an answer to the open request changes the view. */
  function ViewAfter(c: Client, p: Packet): View {
    if p.Response? && c.pending.Some? && c.pending.value.command == p.command && p.status == Success
    then Entered(c.view, c.pending.value, p.body) else c.view
  }

  function Received(c: Client, p: Packet): Client {
    c.(view := ViewAfter(c, p), pending := if p.Response? then Nothing else c.pending, read := c.read + 1)
  }

  // ---- the system ----

  predicate IsArrival(f: Flight, fd: Fd) {
    f.event.fd == fd && f.event.plan.PlanArrive?
  }

  /** The accept-time JOIN has been processed. */
  ghost predicate Arrived(s: State, fd: Fd) {
    forall f | In(s, f) :: !IsArrival(f, fd)
  }

  /** It did not find the lobby full. */
  ghost predicate Settled(s: State, fd: Fd) {
    Arrived(s, fd) && exists k :: k in s.rooms && fd in s.rooms[k].members
  }

  // ---- one session among any others ----

  /**
    The server, the client of one descriptor while it is connected, and the room it was moved to by a join that was
    then answered as a failure. Nothing is assumed about other clients.
   */
  datatype Solo = Solo(srv: State, client: Option<Client>, astray: Option<RoomId>)

  datatype SoloStep =
    | Connect(id: int64, garbage: Command)
    | Send(asked: Asked)
    | Deliver
    | Receive
    | Leave(garbage: Command)
    | Other(step: Step)

  /** The main thread acts for `fd`. */
  predicate ActsFor(step: Step, fd: Fd) {
    (step.Accept? || step.Ask? || step.Close?) && step.fd == fd
  }

  /** The history load inside a join of `fd` fails. */
  predicate FailsJoin(s: State, step: Step, fd: Fd) {
    step.Query? && step.outcome.NotLoaded? && s.jobs != [] && s.jobs[0].LoadJob?
    && s.jobs[0].event.plan.PlanJoin? && s.jobs[0].event.fd == fd
  }

  /**
    The client follows its program: one open request, only what its state allows, the first after the accept-time JOIN
    has let it in, none after a join whose history load failed; it is closed with no request open.
   */
  ghost predicate SoloEnabled(x: Solo, fd: Fd, step: SoloStep) {
    match step
    case Connect(id, garbage) => x.client.Nothing? && Enabled(x.srv, Accept(fd, id, garbage))
    case Send(a) =>
      && x.client.Some? && x.client.value.pending.Nothing? && MayAsk(x.client.value.view, a)
      && Settled(x.srv, fd) && x.astray.Nothing?
    case Deliver => x.client.Some? && x.client.value.wire.Some? && fd in x.srv.users
    case Receive => x.client.Some? && x.client.value.read < |Packed(x.srv, fd)|
    case Leave(garbage) =>
      x.client.Some? && x.client.value.pending.Nothing? && Enabled(x.srv, Close(fd, garbage))
    case Other(step) => Enabled(x.srv, step) && !ActsFor(step, fd)
  }

  ghost function SoloApply(x: Solo, fd: Fd, step: SoloStep): Solo
    requires SoloEnabled(x, fd, step)
  {
    match step
    case Connect(id, garbage) =>
      Solo(AcceptClient(x.srv, fd, id, garbage), Some(Client(AtLobby, Nothing, Nothing, |Packed(x.srv, fd)|)), Nothing)
    case Send(a) => x.(client := Some(x.client.value.(pending := Some(a), wire := Some(a))))
    case Deliver =>
      var a := x.client.value.wire.value;
      x.(srv := Dispatch(x.srv, fd, a.command, a.room, a.body), client := Some(x.client.value.(wire := Nothing)))
    case Receive => x.(client := Some(Received(x.client.value, Packed(x.srv, fd)[x.client.value.read])))
    case Leave(garbage) => Solo(CloseSession(x.srv, fd, garbage), Nothing, Nothing)
    case Other(step) =>
      x.(srv := Apply(x.srv, step),
         astray := if FailsJoin(x.srv, step, fd) then Some(x.srv.jobs[0].event.plan.room) else x.astray)
  }

  ghost predicate SoloNext(x: Solo, fd: Fd, step: SoloStep, y: Solo) {
    SoloEnabled(x, fd, step) && y == SoloApply(x, fd, step)
  }

  /** A run of a server with `workers` workers, a disciplined client at `fd` and anything else. */
  ghost predicate SoloRun(xs: seq<Solo>, steps: seq<SoloStep>, fd: Fd, workers: nat) {
    && workers >= 1 && |xs| == |steps| + 1 && xs[0] == Solo(Init(workers), Nothing, Nothing)
    && forall i {:trigger steps[i]} | 0 <= i < |steps| :: SoloNext(xs[i], fd, steps[i], xs[i + 1])
  }

  // ---- a system of disciplined clients ----

  datatype Net = Net(srv: State, clients: map<Fd, Client>, astray: map<Fd, RoomId>)

  datatype NetStep = By(fd: Fd, step: SoloStep) | Serve(work: Step)

  function Lookup<T>(m: map<Fd, T>, fd: Fd): Option<T> {
    if fd in m then Some(m[fd]) else Nothing
  }

  function With<T>(m: map<Fd, T>, fd: Fd, o: Option<T>): map<Fd, T> {
    if o.Some? then m[fd := o.value] else m - {fd}
  }

  /** What the system looks like to one descriptor. */
  function Of(n: Net, fd: Fd): Solo {
    Solo(n.srv, Lookup(n.clients, fd), Lookup(n.astray, fd))
  }

  ghost predicate NetEnabled(n: Net, step: NetStep) {
    match step
    case By(fd, ss) => !ss.Other? && SoloEnabled(Of(n, fd), fd, ss)
    case Serve(work) => (Internal(work) || work.Tick?) && Enabled(n.srv, work)
  }

  ghost function NetApply(n: Net, step: NetStep): Net
    requires NetEnabled(n, step)
  {
    match step
    case By(fd, ss) =>
      var y := SoloApply(Of(n, fd), fd, ss);
      Net(y.srv, With(n.clients, fd, y.client), With(n.astray, fd, y.astray))
    case Serve(work) =>
      n.(srv := Apply(n.srv, work),
         astray := if n.srv.jobs != [] && !n.srv.jobs[0].SaveJob? && FailsJoin(n.srv, work, n.srv.jobs[0].event.fd)
                   then n.astray[n.srv.jobs[0].event.fd := n.srv.jobs[0].event.plan.room] else n.astray)
  }

  ghost predicate NetNext(n: Net, step: NetStep, m: Net) {
    NetEnabled(n, step) && m == NetApply(n, step)
  }

  /** A run of a server with `workers` workers and any number of disciplined clients. */
  ghost predicate NetRun(nets: seq<Net>, steps: seq<NetStep>, workers: nat) {
    && workers >= 1 && |nets| == |steps| + 1 && nets[0] == Net(Init(workers), map[], map[])
    && forall i {:trigger steps[i]} | 0 <= i < |steps| :: NetNext(nets[i], steps[i], nets[i + 1])
  }
}
