/**
 * The shared-memory transport with four semaphores: one slot of memory, and one baton that goes
 * CLIENT_WRITE -> SERVER_READ -> SERVER_WRITE -> CLIENT_READ -> CLIENT_WRITE.
 * Every `dec`, `memcpy` and `inc` is a step of its own, so a half-written slot is a state like any other.
 */
module FourSemaphores {
  import opened Messages
  import opened Service

  datatype Semaphores = Semaphores(clientWrite: nat, serverRead: nat, clientRead: nat, serverWrite: nat)

  type Memory = m: Bytes | |m| == 0xFFFF witness seq(0xFFFF, _ => 0)

  /** The shared `message_t`. What a copy does not cover keeps its old bytes. */
  datatype Slot = Slot(sender: U16, length: U16, memory: Memory)

  function Memcpy(m: Memory, content: Content): Memory {
    content + m[|content|..]
  }

  /** Where a client stands in `ipc_send` (up to PostRequest) and `ipc_recv`; the name is the next step. */
  datatype ClientPc =
    | Idle | PutSender | PutLength | PutContent | PostRequest
    | AwaitReply | GetSender | GetLength | GetContent | Release

  /** `todo` holds the requests still to be sent, `request` the one in `ipc_send`; then the locals of `ipc_recv`. */
  datatype ClientState = ClientState(
    id: U16, pc: ClientPc, todo: seq<Content>, request: Content,
    sender: U16, length: U16, content: Content, received: seq<Message>)

  /** Boot is the POSIX server before its `inc(CLIENT_WRITE)`; Dispatch is the switch in the server's loop. */
  datatype ServerPc =
    | Boot | Listen | TakeSender | TakeLength | TakeContent | HandOver
    | Dispatch | AwaitTurn | GiveSender | GiveLength | GiveContent | PostReply

  datatype ServerState = ServerState(
    id: U16, pc: ServerPc, sender: U16, length: U16, content: Content, response: Content)

  /** `admitted` records, for the theorems only, the requests in the order of passing `dec(CLIENT_WRITE)`. */
  datatype State<S> = State(
    sems: Semaphores, slot: Slot, clients: seq<ClientState>, server: ServerState, state: S, admitted: seq<Admission>)

  datatype Actor = Server | Client(index: nat)

  predicate Enabled<S>(s: State<S>, a: Actor) {
    match a
    case Server =>
      (s.server.pc == Listen ==> s.sems.serverRead > 0) && (s.server.pc == AwaitTurn ==> s.sems.serverWrite > 0)
    case Client(i) =>
      && i < |s.clients|
      && (s.clients[i].pc == Idle ==> s.clients[i].todo != [] && s.sems.clientWrite > 0)
      && (s.clients[i].pc == AwaitReply ==> s.sems.clientRead > 0)
  }

  function Step<S>(serve: Service<S>, s: State<S>, a: Actor): State<S>
    requires Enabled(s, a)
  {
    match a
    case Server => ServerStep(serve, s)
    case Client(i) => ClientStep(s, i)
  }

  function ClientStep<S>(s: State<S>, i: nat): State<S>
    requires Enabled(s, Client(i))
  {
    var c := s.clients[i];
    match c.pc
    case Idle =>
      s.(sems := s.sems.(clientWrite := s.sems.clientWrite - 1),
         clients := s.clients[i := c.(pc := PutSender, request := c.todo[0], todo := c.todo[1..])],
         admitted := s.admitted + [Admission(i, c.todo[0])])
    case PutSender =>
      s.(slot := s.slot.(sender := c.id), clients := s.clients[i := c.(pc := PutLength)])
    case PutLength =>
      s.(slot := s.slot.(length := |c.request|), clients := s.clients[i := c.(pc := PutContent)])
    case PutContent =>
      s.(slot := s.slot.(memory := Memcpy(s.slot.memory, c.request)), clients := s.clients[i := c.(pc := PostRequest)])
    case PostRequest =>
      s.(sems := s.sems.(serverRead := s.sems.serverRead + 1), clients := s.clients[i := c.(pc := AwaitReply)])
    case AwaitReply =>
      s.(sems := s.sems.(clientRead := s.sems.clientRead - 1), clients := s.clients[i := c.(pc := GetSender)])
    case GetSender =>
      s.(clients := s.clients[i := c.(pc := GetLength, sender := s.slot.sender)])
    case GetLength =>
      s.(clients := s.clients[i := c.(pc := GetContent, length := s.slot.length)])
    case GetContent =>
      s.(clients := s.clients[i := c.(pc := Release, content := s.slot.memory[..c.length])])
    case Release =>
      s.(sems := s.sems.(clientWrite := s.sems.clientWrite + 1),
         clients := s.clients[i := c.(pc := Idle, received := c.received + [Message(c.sender, c.length, c.content)])])
  }

  function ServerStep<S>(serve: Service<S>, s: State<S>): State<S>
    requires Enabled(s, Server)
  {
    var v := s.server;
    match v.pc
    case Boot =>
      s.(sems := s.sems.(clientWrite := s.sems.clientWrite + 1), server := v.(pc := Listen))
    case Listen =>
      s.(sems := s.sems.(serverRead := s.sems.serverRead - 1), server := v.(pc := TakeSender))
    case TakeSender => s.(server := v.(pc := TakeLength, sender := s.slot.sender))
    case TakeLength => s.(server := v.(pc := TakeContent, length := s.slot.length))
    case TakeContent => s.(server := v.(pc := HandOver, content := s.slot.memory[..v.length]))
    case HandOver =>
      s.(sems := s.sems.(serverWrite := s.sems.serverWrite + 1), server := v.(pc := Dispatch))
    case Dispatch =>
      var served := serve(s.state, v.content);
      if served.Silence? then s.(server := v.(pc := Listen))
      else s.(state := served.state, server := v.(pc := AwaitTurn, response := served.content))
    case AwaitTurn =>
      s.(sems := s.sems.(serverWrite := s.sems.serverWrite - 1), server := v.(pc := GiveSender))
    case GiveSender => s.(slot := s.slot.(sender := v.id), server := v.(pc := GiveLength))
    case GiveLength => s.(slot := s.slot.(length := |v.response|), server := v.(pc := GiveContent))
    case GiveContent =>
      s.(slot := s.slot.(memory := Memcpy(s.slot.memory, v.response)), server := v.(pc := PostReply))
    case PostReply =>
      s.(sems := s.sems.(clientRead := s.sems.clientRead + 1), server := v.(pc := Listen))
  }

  /** A run: whoever the schedule names takes one step, or stays blocked. */
  function After<S>(serve: Service<S>, s: State<S>, schedule: seq<Actor>): State<S> {
    if schedule == [] then s
    else
      var mid := After(serve, s, schedule[..|schedule| - 1]);
      var a := schedule[|schedule| - 1];
      if Enabled(mid, a) then Step(serve, mid, a) else mid
  }

  /** How many of the scheduled steps were taken. */
  function Taken<S>(serve: Service<S>, s: State<S>, schedule: seq<Actor>): nat {
    if schedule == [] then 0
    else
      var before := schedule[..|schedule| - 1];
      Taken(serve, s, before) + if Enabled(After(serve, s, before), schedule[|schedule| - 1]) then 1 else 0
  }

  ghost predicate Quiet<S>(s: State<S>) {
    && s.admitted == []
    && forall i | 0 <= i < |s.clients| :: s.clients[i].pc == Idle && s.clients[i].received == []
  }

  /** The System V `init_mutex` sets the four semaphores to 1, 0, 0, 0. */
  ghost predicate InitialSystemV<S>(s: State<S>) {
    Quiet(s) && s.sems == Semaphores(1, 0, 0, 0) && s.server.pc == Listen
  }

  /** The POSIX `init_mutex` creates four zeros; the server then posts CLIENT_WRITE once. */
  ghost predicate InitialPosix<S>(s: State<S>) {
    Quiet(s) && s.sems == Semaphores(0, 0, 0, 0) && s.server.pc == Boot
  }

  ghost predicate Initial<S>(s: State<S>) {
    InitialSystemV(s) || InitialPosix(s)
  }
}
