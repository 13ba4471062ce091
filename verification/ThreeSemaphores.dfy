/**
 * The shared-memory transport that is built: one slot and three semaphores. A client's write waits for
 * CLIENT_CAN_WRITE, but the server writes its response without waiting for anyone, and re-opens CLIENT_CAN_WRITE at
 * its next receive, whether or not the previous client has read its response.
 */
module ThreeSemaphores {
  import opened Messages
  import opened Service
  import F = FourSemaphores

  datatype Semaphores = Semaphores(clientCanWrite: nat, serverCanRead: nat, clientCanRead: nat)

  /** A receive measures the message first and copies header and content together afterwards. */
  datatype ClientPc =
    | Idle | PutSender | PutLength | PutContent | EmitRequest
    | AwaitReply | MeasureReply | CopyReply

  datatype ClientState = ClientState(
    id: U16, pc: ClientPc, todo: seq<Content>, request: Content, measured: U16, received: seq<Message>)

  datatype ServerPc =
    | EmitWrite | AwaitRequest | MeasureRequest | CopyRequest | Dispatch
    | GiveSender | GiveLength | GiveContent | EmitReply

  datatype ServerState = ServerState(
    id: U16, pc: ServerPc, measured: U16, sender: U16, length: U16, content: Content, response: Content)

  /** `admitted` records, for the theorems only, the requests in the order of passing `await(CLIENT_CAN_WRITE)`. */
  datatype State<S> = State(
    sems: Semaphores, slot: F.Slot, clients: seq<ClientState>, server: ServerState, state: S, admitted: seq<Admission>)

  datatype Actor = Server | Client(index: nat)

  predicate Enabled<S>(s: State<S>, a: Actor) {
    match a
    case Server => s.server.pc == AwaitRequest ==> s.sems.serverCanRead > 0
    case Client(i) =>
      && i < |s.clients|
      && (s.clients[i].pc == Idle ==> s.clients[i].todo != [] && s.sems.clientCanWrite > 0)
      && (s.clients[i].pc == AwaitReply ==> s.sems.clientCanRead > 0)
  }

  function Step<S>(serve: Service<S>, s: State<S>, a: Actor): State<S>
    requires Enabled(s, a)
  {
    match a
    case Server => ServerStep(serve, s)
    case Client(i) => ClientStep(s, i)
  }

  function ClientStep<S>(s: State<S>, i: nat): State<S>
    requires Enabled(s, Client(i))
  {
    var c := s.clients[i];
    match c.pc
    case Idle =>
      s.(sems := s.sems.(clientCanWrite := s.sems.clientCanWrite - 1),
         clients := s.clients[i := c.(pc := PutSender, request := c.todo[0], todo := c.todo[1..])],
         admitted := s.admitted + [Admission(i, c.todo[0])])
    case PutSender => s.(slot := s.slot.(sender := c.id), clients := s.clients[i := c.(pc := PutLength)])
    case PutLength => s.(slot := s.slot.(length := |c.request|), clients := s.clients[i := c.(pc := PutContent)])
    case PutContent =>
      s.(slot := s.slot.(memory := F.Memcpy(s.slot.memory, c.request)),
         clients := s.clients[i := c.(pc := EmitRequest)])
    case EmitRequest =>
      s.(sems := s.sems.(serverCanRead := s.sems.serverCanRead + 1), clients := s.clients[i := c.(pc := AwaitReply)])
    case AwaitReply =>
      s.(sems := s.sems.(clientCanRead := s.sems.clientCanRead - 1), clients := s.clients[i := c.(pc := MeasureReply)])
    case MeasureReply => s.(clients := s.clients[i := c.(pc := CopyReply, measured := s.slot.length)])
    case CopyReply =>
      s.(clients := s.clients[i := c.(pc := Idle, received := c.received + [Copy(s.slot, c.measured)])])
  }

  /** The `memcpy` of a whole message, for a length measured before. */
  function Copy(slot: F.Slot, measured: U16): Message {
    Message(slot.sender, slot.length, slot.memory[..measured])
  }

  function ServerStep<S>(serve: Service<S>, s: State<S>): State<S>
    requires Enabled(s, Server)
  {
    var v := s.server;
    match v.pc
    case EmitWrite =>
      s.(sems := s.sems.(clientCanWrite := s.sems.clientCanWrite + 1), server := v.(pc := AwaitRequest))
    case AwaitRequest =>
      s.(sems := s.sems.(serverCanRead := s.sems.serverCanRead - 1), server := v.(pc := MeasureRequest))
    case MeasureRequest => s.(server := v.(pc := CopyRequest, measured := s.slot.length))
    case CopyRequest =>
      s.(server := v.(pc := Dispatch, sender := s.slot.sender, length := s.slot.length,
                      content := s.slot.memory[..v.measured]))
    case Dispatch =>
      var served := serve(s.state, v.content);
      if served.Silence? then s.(server := v.(pc := EmitWrite))
      else s.(state := served.state, server := v.(pc := GiveSender, response := served.content))
    case GiveSender => s.(slot := s.slot.(sender := v.id), server := v.(pc := GiveLength))
    case GiveLength => s.(slot := s.slot.(length := |v.response|), server := v.(pc := GiveContent))
    case GiveContent =>
      s.(slot := s.slot.(memory := F.Memcpy(s.slot.memory, v.response)), server := v.(pc := EmitReply))
    case EmitReply =>
      s.(sems := s.sems.(clientCanRead := s.sems.clientCanRead + 1), server := v.(pc := EmitWrite))
  }

  function After<S>(serve: Service<S>, s: State<S>, schedule: seq<Actor>): State<S> {
    if schedule == [] then s
    else
      var mid := After(serve, s, schedule[..|schedule| - 1]);
      var a := schedule[|schedule| - 1];
      if Enabled(mid, a) then Step(serve, mid, a) else mid
  }

  ghost predicate Initial<S>(s: State<S>) {
    && s.sems == Semaphores(0, 0, 0) && s.server.pc == EmitWrite && s.admitted == []
    && forall i | 0 <= i < |s.clients| :: s.clients[i].pc == Idle && s.clients[i].received == []
  }
}
