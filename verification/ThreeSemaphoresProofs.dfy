/** What the three-semaphore transport guarantees: requests for any number of clients, responses for one. */
module ThreeSemaphoresProofs {
  import opened Messages
  import opened Service
  import opened ThreeSemaphores
  import F = FourSemaphores
  import P = FourSemaphoresProofs

  // The request side, for any number of clients

  predicate Writing(pc: ClientPc) {
    pc == PutSender || pc == PutLength || pc == PutContent || pc == EmitRequest
  }

  predicate Reading(pc: ServerPc) {
    pc == MeasureRequest || pc == CopyRequest || pc == Dispatch
  }

  predicate Current<S>(s: State<S>, i: int) {
    s.admitted != [] && s.admitted[|s.admitted| - 1].client == i
  }

  /** The client admitted last is still writing its request. */
  predicate BeingWritten<S>(s: State<S>) {
    && s.admitted != []
    && s.admitted[|s.admitted| - 1].client < |s.clients|
    && Writing(s.clients[s.admitted[|s.admitted| - 1].client].pc)
  }

  /** The request admitted last has not been run against the server's state yet. */
  predicate Undispatched<S>(s: State<S>) {
    BeingWritten(s) || s.sems.serverCanRead > 0 || Reading(s.server.pc)
  }

  ghost predicate Tokens<S>(s: State<S>) {
    && (forall i | 0 <= i < |s.clients| && Writing(s.clients[i].pc) :: Current(s, i))
    && (s.admitted != [] ==> s.admitted[|s.admitted| - 1].client < |s.clients|)
    && (Undispatched(s) ==> s.admitted != [])
    && s.sems.clientCanWrite + (if BeingWritten(s) then 1 else 0) + s.sems.serverCanRead
       + (if s.server.pc == AwaitRequest then 0 else 1) == 1
  }

  /** The slot, or the server's copy, holds the request admitted last, as far as it has been written. */
  predicate RequestContents<S>(s: State<S>, c: ClientState, request: Content) {
    var slot, v := s.slot, s.server;
    if Writing(c.pc) then
      && c.request == request
      && (c.pc != PutSender ==> slot.sender == c.id)
      && (c.pc == PutContent || c.pc == EmitRequest ==> slot.length == |request|)
      && (c.pc == EmitRequest ==> slot.memory[..|request|] == request)
    else if v.pc == CopyRequest then P.Holds(slot, c.id, request) && v.measured == |request|
    else if v.pc == Dispatch then v.sender == c.id && v.length == |request| && v.content == request
    else P.Holds(slot, c.id, request)
  }

  ghost predicate Sent<S>(s0: State<S>, s: State<S>) {
    && |s.clients| == |s0.clients|
    && forall i | 0 <= i < |s.clients| ::
      s.clients[i].id == s0.clients[i].id && SentBy(i, s.admitted) + s.clients[i].todo == s0.clients[i].todo
  }

  ghost predicate Serving<S(!new)>(serve: Service<S>, s0: State<S>, s: State<S>)
    requires Tokens(s)
  {
    if Undispatched(s) then
      var n := |s.admitted| - 1;
      && s.state == Replay(serve, s0.server.id, s0.state, s.admitted[..n]).state
      && RequestContents(s, s.clients[s.admitted[n].client], s.admitted[n].request)
    else
      s.state == Replay(serve, s0.server.id, s0.state, s.admitted).state
  }

  ghost predicate Inv<S(!new)>(serve: Service<S>, s0: State<S>, s: State<S>) {
    Tokens(s) && Sent(s0, s) && Serving(serve, s0, s) && s.server.id == s0.server.id
  }

  lemma AdmissionSent<S>(s0: State<S>, s: State<S>, i: nat)
    requires Sent(s0, s) && Enabled(s, Client(i)) && s.clients[i].pc == Idle
    ensures Sent(s0, ClientStep(s, i))
  {
    var todo := s.clients[i].todo;
    forall j | 0 <= j < |s.clients|
      ensures SentBy(j, s.admitted + [Admission(i, todo[0])]) + (if j == i then todo[1..] else s.clients[j].todo)
        == s0.clients[j].todo
    {
      assert SentBy(j, s.admitted) + s.clients[j].todo == s0.clients[j].todo;
      AdmissionSplits(i, s.admitted, todo, j, s.clients[j].todo, s0.clients[j].todo);
    }
  }

  lemma AdmissionTokens<S>(s: State<S>, i: nat)
    requires Tokens(s) && Enabled(s, Client(i)) && s.clients[i].pc == Idle
    ensures Tokens(ClientStep(s, i)) && !Undispatched(s)
    ensures ClientStep(s, i).admitted[..|s.admitted|] == s.admitted
  {
  }

  lemma InnerTokens<S>(s: State<S>, i: nat)
    requires Tokens(s) && Enabled(s, Client(i)) && s.clients[i].pc != Idle
    ensures Tokens(ClientStep(s, i)) && (Undispatched(ClientStep(s, i)) <==> Undispatched(s))
  {
    if Writing(s.clients[i].pc) { assert Current(s, i); }
  }

  lemma ClientStepTokens<S>(s: State<S>, i: nat)
    requires Tokens(s) && Enabled(s, Client(i))
    ensures Tokens(ClientStep(s, i))
    ensures s.clients[i].pc == Idle ==> !Undispatched(s) && ClientStep(s, i).admitted[..|s.admitted|] == s.admitted
    ensures s.clients[i].pc != Idle ==> (Undispatched(ClientStep(s, i)) <==> Undispatched(s))
  {
    if s.clients[i].pc == Idle { AdmissionTokens(s, i); } else { InnerTokens(s, i); }
  }

  lemma AdmissionKeeps<S(!new)>(serve: Service<S>, s0: State<S>, s: State<S>, i: nat)
    requires Inv(serve, s0, s) && Enabled(s, Client(i)) && s.clients[i].pc == Idle
    ensures Inv(serve, s0, ClientStep(s, i))
  {
    ClientStepTokens(s, i);
    AdmissionSent(s0, s, i);
  }

  /** A client inside its send or receive touches only its own record, the slot while it writes, and semaphores. */
  lemma InnerStepFrame<S>(s: State<S>, i: nat)
    requires Enabled(s, Client(i)) && s.clients[i].pc != Idle
    ensures var t := ClientStep(s, i);
      && t.admitted == s.admitted && t.state == s.state && t.server == s.server && |t.clients| == |s.clients|
      && (forall j | 0 <= j < |s.clients| && j != i :: t.clients[j] == s.clients[j])
      && t.clients[i].id == s.clients[i].id && t.clients[i].todo == s.clients[i].todo
      && t.clients[i].request == s.clients[i].request
      && (!Writing(s.clients[i].pc) ==> t.slot == s.slot && !Writing(t.clients[i].pc))
  {
  }

  lemma InnerStepContents<S>(s: State<S>, i: nat, c: ClientState, request: Content)
    requires Enabled(s, Client(i)) && s.clients[i].pc != Idle
    requires Writing(s.clients[i].pc) ==> c == s.clients[i] && s.server.pc == AwaitRequest
    requires !Writing(s.clients[i].pc) && Writing(c.pc) ==> c != s.clients[i]
    requires RequestContents(s, c, request)
    ensures RequestContents(ClientStep(s, i), if c == s.clients[i] then ClientStep(s, i).clients[i] else c, request)
  {
  }

  lemma ClientStepKeeps<S(!new)>(serve: Service<S>, s0: State<S>, s: State<S>, i: nat)
    requires Inv(serve, s0, s) && Enabled(s, Client(i))
    ensures Inv(serve, s0, ClientStep(s, i))
  {
    if s.clients[i].pc == Idle {
      AdmissionKeeps(serve, s0, s, i);
    } else {
      ClientStepTokens(s, i);
      InnerStepFrame(s, i);
      if Writing(s.clients[i].pc) { assert Current(s, i); }
      if Undispatched(s) {
        var a := s.admitted[|s.admitted| - 1];
        InnerStepContents(s, i, s.clients[a.client], a.request);
      }
    }
  }

  lemma ServerStepTokens<S>(serve: Service<S>, s: State<S>)
    requires Tokens(s) && Enabled(s, Server)
    ensures Tokens(ServerStep(serve, s))
    ensures s.server.pc != Dispatch ==> (Undispatched(ServerStep(serve, s)) <==> Undispatched(s))
    ensures s.server.pc == Dispatch ==> Undispatched(s) && !BeingWritten(s) && !Undispatched(ServerStep(serve, s))
  {
  }

  lemma ServerStepContents<S>(serve: Service<S>, s: State<S>, c: ClientState, request: Content)
    requires Enabled(s, Server) && RequestContents(s, c, request) && !Writing(c.pc)
    requires s.server.pc == AwaitRequest || s.server.pc == MeasureRequest || s.server.pc == CopyRequest
    ensures RequestContents(ServerStep(serve, s), c, request)
  {
  }

  lemma TakingServes<S(!new)>(serve: Service<S>, s0: State<S>, s: State<S>)
    requires Inv(serve, s0, s) && Enabled(s, Server) && Undispatched(s) && s.server.pc != Dispatch
    requires Tokens(ServerStep(serve, s)) && Undispatched(ServerStep(serve, s))
    ensures Serving(serve, s0, ServerStep(serve, s))
  {
    var a := s.admitted[|s.admitted| - 1];
    if !Writing(s.clients[a.client].pc) { ServerStepContents(serve, s, s.clients[a.client], a.request); }
  }

  lemma ServerStepKeeps<S(!new)>(serve: Service<S>, s0: State<S>, s: State<S>)
    requires Inv(serve, s0, s) && Enabled(s, Server)
    ensures Inv(serve, s0, ServerStep(serve, s))
  {
    ServerStepTokens(serve, s);
    if s.server.pc != Dispatch && Undispatched(s) { TakingServes(serve, s0, s); }
  }

  lemma {:induction false} AfterInv<S(!new)>(serve: Service<S>, s0: State<S>, schedule: seq<Actor>)
    requires Initial(s0)
    ensures Inv(serve, s0, After(serve, s0, schedule))
  {
    if schedule == [] {
    } else {
      var mid, a := After(serve, s0, schedule[..|schedule| - 1]), schedule[|schedule| - 1];
      AfterInv(serve, s0, schedule[..|schedule| - 1]);
      if Enabled(mid, a) {
        match a
        case Server => ServerStepKeeps(serve, s0, mid);
        case Client(i) => ClientStepKeeps(serve, s0, mid, i);
      }
    }
  }

  function Writers(clients: seq<ClientState>): nat {
    if clients == [] then 0
    else Writers(clients[..|clients| - 1]) + if Writing(clients[|clients| - 1].pc) then 1 else 0
  }

  lemma {:induction false} WritersAlone(clients: seq<ClientState>, i: int)
    requires forall j | 0 <= j < |clients| && j != i :: !Writing(clients[j].pc)
    ensures Writers(clients) == if 0 <= i < |clients| && Writing(clients[i].pc) then 1 else 0
  {
    if clients == [] {
    } else {
      WritersAlone(clients[..|clients| - 1], i);
    }
  }

  /** With any number of clients: the two request semaphores, the writing clients and the server, unless it waits for
      a request, always add up to one. */
  lemma RequestTokens<S(!new)>(serve: Service<S>, s0: State<S>, schedule: seq<Actor>)
    requires Initial(s0)
    ensures var s := After(serve, s0, schedule);
      s.sems.clientCanWrite + Writers(s.clients) + s.sems.serverCanRead
        + (if s.server.pc == AwaitRequest then 0 else 1) == 1
  {
    var s := After(serve, s0, schedule);
    AfterInv(serve, s0, schedule);
    WritersAlone(s.clients, if s.admitted == [] then -1 else s.admitted[|s.admitted| - 1].client);
  }

  /** With any number of clients: requests are served whole, once each, in the order of admission. */
  lemma {:induction false} RequestsInOrder<S(!new)>(serve: Service<S>, s0: State<S>, schedule: seq<Actor>)
    requires Initial(s0)
    ensures var s := After(serve, s0, schedule);
      && Sent(s0, s)
      && (!Undispatched(s) ==> s.state == Replay(serve, s0.server.id, s0.state, s.admitted).state)
      && (Undispatched(s) ==> s.admitted != [])
      && (Undispatched(s) ==> s.state == Replay(serve, s0.server.id, s0.state, s.admitted[..|s.admitted| - 1]).state)
      && (s.server.pc == Dispatch ==>
        var a := s.admitted[|s.admitted| - 1];
        && a.client < |s.clients|
        && Message(s.server.sender, s.server.length, s.server.content) == Letter(s.clients[a.client].id, a.request))
  {
    AfterInv(serve, s0, schedule);
  }

  // The response side, for a single client

  ghost predicate OnlyActive<S>(s: State<S>, i: nat) {
    forall j | 0 <= j < |s.clients| && j != i ::
      s.clients[j].todo == [] && s.clients[j].pc == Idle && s.clients[j].received == []
  }

  /** The server is between two requests. */
  predicate Resting(pc: ServerPc) {
    pc == EmitWrite || pc == AwaitRequest
  }

  predicate ReplyContents<S>(s: State<S>, c: ClientState, served: Served<S>) {
    var slot, v, token := s.slot, s.server, s.sems.clientCanRead;
    match c.pc
    case Idle => token == 0 && Resting(v.pc)
    case AwaitReply =>
      if Undispatched(s) then token == 0
      else if !Resting(v.pc) then
        && token == 0 && served.Answered? && v.response == served.content
        && (v.pc != GiveSender ==> slot.sender == v.id)
        && (v.pc == GiveContent || v.pc == EmitReply ==> slot.length == |served.content|)
        && (v.pc == EmitReply ==> slot.memory[..|served.content|] == served.content)
      else if token == 0 then served.Silence?
      else token == 1 && served.Answered? && P.Holds(slot, v.id, served.content)
    case MeasureReply => token == 0 && Resting(v.pc) && served.Answered? && P.Holds(slot, v.id, served.content)
    case CopyReply =>
      token == 0 && Resting(v.pc) && served.Answered? && P.Holds(slot, v.id, served.content)
      && c.measured == |served.content|
    case _ => token == 0
  }

  ghost predicate Answering<S(!new)>(serve: Service<S>, s0: State<S>, s: State<S>, i: nat) {
    i < |s.clients| &&
    var c := s.clients[i];
    if c.pc == Idle then
      var l := Replay(serve, s0.server.id, s0.state, s.admitted);
      c.received == RepliesTo(i, l.replies) && s.sems.clientCanRead == 0 && Resting(s.server.pc) && !Undispatched(s)
    else
      Current(s, i) &&
      var n := |s.admitted| - 1;
      var before := Replay(serve, s0.server.id, s0.state, s.admitted[..n]);
      && c.received == RepliesTo(i, before.replies)
      && ReplyContents(s, c, serve(before.state, s.admitted[n].request))
      && (c.pc == MeasureReply || c.pc == CopyReply ==> !Undispatched(s))
  }

  ghost predicate Inv1<S(!new)>(serve: Service<S>, s0: State<S>, s: State<S>, i: nat) {
    Inv(serve, s0, s) && OnlyActive(s, i) && Answering(serve, s0, s, i)
  }

  lemma ReplyClientStep<S>(s: State<S>, i: nat, served: Served<S>)
    requires Tokens(s) && Enabled(s, Client(i)) && Current(s, i)
    requires s.clients[i].pc != Idle && s.clients[i].pc != CopyReply
    requires ReplyContents(s, s.clients[i], served)
    ensures var t := ClientStep(s, i);
      && ReplyContents(t, t.clients[i], served) && t.clients[i].pc != Idle
      && t.clients[i].received == s.clients[i].received
  {
    ClientStepTokens(s, i);
  }

  lemma ReplyAdmission<S>(s: State<S>, i: nat, served: Served<S>)
    requires Tokens(s) && Enabled(s, Client(i)) && s.clients[i].pc == Idle && s.sems.clientCanRead == 0
    ensures var t := ClientStep(s, i);
      ReplyContents(t, t.clients[i], served) && Current(t, i) && t.clients[i].received == s.clients[i].received
  {
  }

  lemma ReplyCopied<S(!new)>(serve: Service<S>, s0: State<S>, s: State<S>, i: nat)
    requires Inv1(serve, s0, s, i) && s.clients[i].pc == CopyReply
    ensures var t := ClientStep(s, i);
      t.clients[i].received == RepliesTo(i, Replay(serve, s0.server.id, s0.state, t.admitted).replies)
  {
    var n := |s.admitted| - 1;
    var before := Replay(serve, s0.server.id, s0.state, s.admitted[..n]);
    var served := serve(before.state, s.admitted[n].request);
    RepliesToSnoc(i, before.replies, Reply(i, Letter(s.server.id, served.content)));
  }

  lemma SingleAdmission<S(!new)>(serve: Service<S>, s0: State<S>, s: State<S>, i: nat)
    requires Inv1(serve, s0, s, i) && Enabled(s, Client(i)) && s.clients[i].pc == Idle
    ensures Answering(serve, s0, ClientStep(s, i), i)
  {
    var l := Replay(serve, s0.server.id, s0.state, s.admitted);
    ReplyAdmission(s, i, serve(l.state, s.clients[i].todo[0]));
    assert ClientStep(s, i).admitted[..|s.admitted|] == s.admitted;
  }

  lemma SingleInner<S(!new)>(serve: Service<S>, s0: State<S>, s: State<S>, i: nat)
    requires Inv1(serve, s0, s, i) && Enabled(s, Client(i)) && s.clients[i].pc != Idle
    ensures Answering(serve, s0, ClientStep(s, i), i)
  {
    ClientStepTokens(s, i);
    InnerStepFrame(s, i);
    if s.clients[i].pc == CopyReply {
      ReplyCopied(serve, s0, s, i);
    } else {
      var n := |s.admitted| - 1;
      var before := Replay(serve, s0.server.id, s0.state, s.admitted[..n]);
      ReplyClientStep(s, i, serve(before.state, s.admitted[n].request));
    }
  }

  lemma SingleClientStep<S(!new)>(serve: Service<S>, s0: State<S>, s: State<S>, i: nat)
    requires Inv1(serve, s0, s, i) && Enabled(s, Client(i))
    ensures Inv1(serve, s0, ClientStep(s, i), i)
  {
    ClientStepKeeps(serve, s0, s, i);
    if s.clients[i].pc == Idle { SingleAdmission(serve, s0, s, i); } else { SingleInner(serve, s0, s, i); }
  }

  lemma ServerStepFrame<S>(serve: Service<S>, s: State<S>)
    requires Enabled(s, Server)
    ensures var t := ServerStep(serve, s);
      && t.clients == s.clients && t.admitted == s.admitted && t.server.id == s.server.id
      && (Resting(s.server.pc) ==> t.sems.clientCanRead == s.sems.clientCanRead && t.slot == s.slot)
  {
  }

  lemma ReplyServerStep<S>(serve: Service<S>, s: State<S>, i: nat, before: S, request: Content)
    requires Tokens(s) && Enabled(s, Server) && Current(s, i) && s.clients[i].pc != Idle
    requires ReplyContents(s, s.clients[i], serve(before, request))
    requires Undispatched(s) ==> s.state == before && RequestContents(s, s.clients[i], request)
    requires s.clients[i].pc == MeasureReply || s.clients[i].pc == CopyReply ==> !Undispatched(s)
    ensures var t := ServerStep(serve, s);
      && ReplyContents(t, s.clients[i], serve(before, request))
      && (s.clients[i].pc == MeasureReply || s.clients[i].pc == CopyReply ==> !Undispatched(t))
  {
    ServerStepTokens(serve, s);
    ServerStepFrame(serve, s);
  }

  lemma SingleServerStep<S(!new)>(serve: Service<S>, s0: State<S>, s: State<S>, i: nat)
    requires Inv1(serve, s0, s, i) && Enabled(s, Server)
    ensures Inv1(serve, s0, ServerStep(serve, s), i)
  {
    ServerStepKeeps(serve, s0, s);
    ServerStepTokens(serve, s);
    ServerStepFrame(serve, s);
    if s.clients[i].pc != Idle {
      var n := |s.admitted| - 1;
      var before := Replay(serve, s0.server.id, s0.state, s.admitted[..n]);
      ReplyServerStep(serve, s, i, before.state, s.admitted[n].request);
    }
  }

  lemma {:induction false} AfterInv1<S(!new)>(serve: Service<S>, s0: State<S>, schedule: seq<Actor>, i: nat)
    requires Initial(s0) && i < |s0.clients| && OnlyActive(s0, i)
    ensures Inv1(serve, s0, After(serve, s0, schedule), i)
  {
    if schedule == [] {
    } else {
      var mid, a := After(serve, s0, schedule[..|schedule| - 1]), schedule[|schedule| - 1];
      AfterInv1(serve, s0, schedule[..|schedule| - 1], i);
      if Enabled(mid, a) {
        match a
        case Server => SingleServerStep(serve, s0, mid, i);
        case Client(j) => SingleClientStep(serve, s0, mid, i);
      }
    }
  }

  /** Each client has received a prefix of what a sequential run in the order of admission sends it. */
  ghost predicate Faithful<S(!new)>(serve: Service<S>, s0: State<S>, s: State<S>) {
    forall j | 0 <= j < |s.clients| ::
      s.clients[j].received <= RepliesTo(j, Replay(serve, s0.server.id, s0.state, s.admitted).replies)
  }

  lemma SingleIsFaithful<S(!new)>(serve: Service<S>, s0: State<S>, s: State<S>, i: nat)
    requires Inv1(serve, s0, s, i)
    ensures Faithful(serve, s0, s)
  {
    if s.clients[i].pc != Idle {
      var n := |s.admitted| - 1;
      var before := Replay(serve, s0.server.id, s0.state, s.admitted[..n]);
      var served := serve(before.state, s.admitted[n].request);
      if served.Answered? { RepliesToSnoc(i, before.replies, Reply(i, Letter(s0.server.id, served.content))); }
    }
  }

  /** A single client gets the answers to its own requests, in order; and while it copies one, the slot still holds
      the whole answer to its latest request. */
  lemma SingleClientResponses<S(!new)>(serve: Service<S>, s0: State<S>, schedule: seq<Actor>, i: nat)
    requires Initial(s0) && i < |s0.clients| && OnlyActive(s0, i)
    ensures var s := After(serve, s0, schedule);
      && Faithful(serve, s0, s) && i < |s.clients|
      && (s.clients[i].pc == Idle ==>
        s.clients[i].received == RepliesTo(i, Replay(serve, s0.server.id, s0.state, s.admitted).replies))
      && (s.clients[i].pc == CopyReply ==>
        && Current(s, i)
        && var n := |s.admitted| - 1;
          var served := serve(Replay(serve, s0.server.id, s0.state, s.admitted[..n]).state, s.admitted[n].request);
          served.Answered? && Copy(s.slot, s.clients[i].measured) == Letter(s0.server.id, served.content))
  {
    var s := After(serve, s0, schedule);
    AfterInv1(serve, s0, schedule, i);
    SingleIsFaithful(serve, s0, s, i);
  }

  /** From the emit of its response until its copy is made, no process writes to a single client's slot. */
  lemma SingleClientSlotIsStable<S(!new)>(serve: Service<S>, s0: State<S>, schedule: seq<Actor>, i: nat, a: Actor)
    requires Initial(s0) && i < |s0.clients| && OnlyActive(s0, i)
    requires var s := After(serve, s0, schedule);
      && i < |s.clients| && Enabled(s, a)
      && ((s.clients[i].pc == AwaitReply && s.sems.clientCanRead > 0)
          || s.clients[i].pc == MeasureReply || s.clients[i].pc == CopyReply)
    ensures Step(serve, After(serve, s0, schedule), a).slot == After(serve, s0, schedule).slot
  {
    var s := After(serve, s0, schedule);
    AfterInv1(serve, s0, schedule, i);
    match a
    case Server => assert Resting(s.server.pc);
    case Client(j) => assert j == i;
  }

  // With two clients: a run in which one reads the other's request as its response

  lemma Go<S>(serve: Service<S>, s0: State<S>, schedule: seq<Actor>, a: Actor)
    requires Enabled(After(serve, s0, schedule), a)
    ensures After(serve, s0, schedule + [a]) == Step(serve, After(serve, s0, schedule), a)
  {
    assert (schedule + [a])[..|schedule|] == schedule;
  }

  lemma RunServer<S>(serve: Service<S>, s0: State<S>, schedule: seq<Actor>, pc: ServerPc) returns (r: seq<Actor>)
    requires After(serve, s0, schedule).server.pc == pc && pc != AwaitRequest
    ensures r == schedule + [Server] && After(serve, s0, r) == ServerStep(serve, After(serve, s0, schedule))
  {
    Go(serve, s0, schedule, Server);
    r := schedule + [Server];
  }

  lemma RunClient<S>(serve: Service<S>, s0: State<S>, schedule: seq<Actor>, i: nat) returns (r: seq<Actor>)
    requires Enabled(After(serve, s0, schedule), Client(i))
    ensures r == schedule + [Client(i)] && After(serve, s0, r) == ClientStep(After(serve, s0, schedule), i)
  {
    Go(serve, s0, schedule, Client(i));
    r := schedule + [Client(i)];
  }

  lemma SlotIsFilled(slot: F.Slot, sender: U16, content: Content)
    ensures var t := slot.(sender := sender, length := |content|, memory := F.Memcpy(slot.memory, content));
      P.Holds(t, sender, content) && forall k | |content| <= k < 0xFFFF :: t.memory[k] == slot.memory[k]
  {
  }

  /** An admitted client fills the slot; no other process is involved. */
  lemma ClientFillsSlot<S>(serve: Service<S>, s0: State<S>, schedule: seq<Actor>, i: nat) returns (r: seq<Actor>)
    requires var s := After(serve, s0, schedule);
      i < |s.clients| && s.clients[i].pc == Idle && s.clients[i].todo != [] && s.sems.clientCanWrite == 1
    ensures var s, t := After(serve, s0, schedule), After(serve, s0, r);
      && t.sems == s.sems.(clientCanWrite := 0) && t.server == s.server && t.state == s.state
      && |t.clients| == |s.clients| && (forall j | 0 <= j < |s.clients| && j != i :: t.clients[j] == s.clients[j])
      && t.clients[i].pc == EmitRequest && t.clients[i].received == s.clients[i].received
      && P.Holds(t.slot, s.clients[i].id, s.clients[i].todo[0])
      && forall k | |s.clients[i].todo[0]| <= k < 0xFFFF :: t.slot.memory[k] == s.slot.memory[k]
  {
    var s := After(serve, s0, schedule);
    SlotIsFilled(s.slot, s.clients[i].id, s.clients[i].todo[0]);
    r := RunClient(serve, s0, schedule, i);
    r := RunClient(serve, s0, r, i);
    r := RunClient(serve, s0, r, i);
    r := RunClient(serve, s0, r, i);
  }

  /** The server takes the request and runs it. */
  lemma ServerTakes<S>(serve: Service<S>, s0: State<S>, schedule: seq<Actor>, id: U16, request: Content)
    returns (r: seq<Actor>)
    requires var s := After(serve, s0, schedule);
      && s.server.pc == AwaitRequest && s.sems == Semaphores(0, 1, 0)
      && P.Holds(s.slot, id, request) && serve(s.state, request).Answered?
    ensures var s, t := After(serve, s0, schedule), After(serve, s0, r);
      && t.sems == Semaphores(0, 0, 0) && t.server.pc == GiveSender && t.clients == s.clients
      && t.server.id == s.server.id && t.server.response == serve(s.state, request).content
  {
    Go(serve, s0, schedule, Server);
    r := schedule + [Server];
    r := RunServer(serve, s0, r, MeasureRequest);
    r := RunServer(serve, s0, r, CopyRequest);
    r := RunServer(serve, s0, r, Dispatch);
  }

  /** It answers it and comes back to EmitWrite. */
  lemma ServerAnswers<S>(serve: Service<S>, s0: State<S>, schedule: seq<Actor>, id: U16, request: Content)
    returns (r: seq<Actor>)
    requires var s := After(serve, s0, schedule);
      && s.server.pc == AwaitRequest && s.sems == Semaphores(0, 1, 0)
      && P.Holds(s.slot, id, request) && serve(s.state, request).Answered?
    ensures var s, t := After(serve, s0, schedule), After(serve, s0, r);
      && t.sems == Semaphores(0, 0, 1) && t.server.pc == EmitWrite && t.clients == s.clients
      && P.Holds(t.slot, s.server.id, serve(s.state, request).content)
  {
    r := ServerTakes(serve, s0, schedule, id, request);
    r := RunServer(serve, s0, r, GiveSender);
    r := RunServer(serve, s0, r, GiveLength);
    r := RunServer(serve, s0, r, GiveContent);
    r := RunServer(serve, s0, r, EmitReply);
  }

  lemma ClientTakesReply<S>(serve: Service<S>, s0: State<S>, schedule: seq<Actor>, i: nat) returns (r: seq<Actor>)
    requires var s := After(serve, s0, schedule);
      i < |s.clients| && s.clients[i].pc == AwaitReply && s.sems.clientCanRead == 1
    ensures var s, t := After(serve, s0, schedule), After(serve, s0, r);
      && |t.clients| == |s.clients|
      && t.clients[i].received == s.clients[i].received + [Copy(s.slot, s.slot.length)]
  {
    r := RunClient(serve, s0, schedule, i);
    r := RunClient(serve, s0, r, i);
    r := RunClient(serve, s0, r, i);
  }

  /** Client i has sent its first request and its response is in the slot, not yet read. */
  lemma ResponseWaits<S>(serve: Service<S>, s0: State<S>, i: nat) returns (r: seq<Actor>)
    requires Initial(s0) && i < |s0.clients| && s0.clients[i].todo != []
    requires serve(s0.state, s0.clients[i].todo[0]).Answered?
    ensures var t := After(serve, s0, r);
      && t.sems == Semaphores(1, 0, 1) && |t.clients| == |s0.clients|
      && (forall j | 0 <= j < |s0.clients| && j != i :: t.clients[j] == s0.clients[j])
      && t.clients[i].pc == AwaitReply && t.clients[i].received == []
      && P.Holds(t.slot, s0.server.id, serve(s0.state, s0.clients[i].todo[0]).content)
  {
    r := RunServer(serve, s0, [], EmitWrite);
    r := ClientFillsSlot(serve, s0, r, i);
    r := RunClient(serve, s0, r, i);
    r := ServerAnswers(serve, s0, r, s0.clients[i].id, s0.clients[i].todo[0]);
    r := RunServer(serve, s0, r, EmitWrite);
  }

  /** Client j overwrites the slot after the server has answered client i and before client i has looked. */
  lemma Overtaken<S>(serve: Service<S>, s0: State<S>, i: nat, j: nat) returns (r: seq<Actor>)
    requires Initial(s0) && i < |s0.clients| && j < |s0.clients| && i != j
    requires s0.clients[i].todo != [] && s0.clients[j].todo != []
    requires serve(s0.state, s0.clients[i].todo[0]).Answered?
    ensures var t := After(serve, s0, r);
      && |t.clients| == |s0.clients|
      && t.clients[i].received == [Letter(s0.clients[j].id, s0.clients[j].todo[0])]
  {
    r := ResponseWaits(serve, s0, i);
    r := ClientFillsSlot(serve, s0, r, j);
    r := ClientTakesReply(serve, s0, r, i);
  }

  /** Client j overwrites the slot after client i has measured its response and before it copies it: client i gets the
      header of the request and as many bytes as the response has, the first of them those of the request, and behind
      them what is left of the response. */
  lemma Torn<S>(serve: Service<S>, s0: State<S>, i: nat, j: nat) returns (r: seq<Actor>)
    requires Initial(s0) && i < |s0.clients| && j < |s0.clients| && i != j
    requires s0.clients[i].todo != [] && s0.clients[j].todo != []
    requires serve(s0.state, s0.clients[i].todo[0]).Answered?
    ensures var t, request := After(serve, s0, r), s0.clients[j].todo[0];
      && |t.clients| == |s0.clients| && |t.clients[i].received| == 1
      && var m := t.clients[i].received[0];
        && m.sender == s0.clients[j].id && m.length == |request|
        && |m.content| == |serve(s0.state, s0.clients[i].todo[0]).content|
        && forall k | 0 <= k < |m.content| ::
          m.content[k] == if k < |request| then request[k] else serve(s0.state, s0.clients[i].todo[0]).content[k]
  {
    r := ResponseWaits(serve, s0, i);
    var before := After(serve, s0, r).slot.memory;
    r := ClientMeasures(serve, s0, r, i);
    r := ClientFillsSlot(serve, s0, r, j);
    CopyIsTorn(After(serve, s0, r).slot, s0.clients[j].id, s0.clients[j].todo[0], before,
               serve(s0.state, s0.clients[i].todo[0]).content);
    r := RunClient(serve, s0, r, i);
  }

  lemma ClientMeasures<S>(serve: Service<S>, s0: State<S>, schedule: seq<Actor>, i: nat) returns (r: seq<Actor>)
    requires var s := After(serve, s0, schedule);
      i < |s.clients| && s.clients[i].pc == AwaitReply && s.sems.clientCanRead == 1
    ensures var s, t := After(serve, s0, schedule), After(serve, s0, r);
      && t.sems == s.sems.(clientCanRead := 0) && t.slot == s.slot && |t.clients| == |s.clients|
      && (forall j | 0 <= j < |s.clients| && j != i :: t.clients[j] == s.clients[j])
      && t.clients[i].pc == CopyReply && t.clients[i].measured == s.slot.length
      && t.clients[i].received == s.clients[i].received
  {
    r := RunClient(serve, s0, schedule, i);
    r := RunClient(serve, s0, r, i);
  }

  lemma CopyIsTorn(slot: F.Slot, sender: U16, request: Content, before: F.Memory, response: Content)
    requires P.Holds(slot, sender, request) && before[..|response|] == response
    requires forall k | |request| <= k < 0xFFFF :: slot.memory[k] == before[k]
    ensures var m := Copy(slot, |response|);
      && m.sender == sender && m.length == |request| && |m.content| == |response|
      && forall k | 0 <= k < |response| :: m.content[k] == if k < |request| then request[k] else response[k]
  {
    assert forall k | 0 <= k < |request| :: slot.memory[..|request|][k] == slot.memory[k];
    assert forall k | 0 <= k < |response| :: before[..|response|][k] == before[k];
  }

  lemma {:induction false} RepliesComeFromServer<S>(
    serve: Service<S>, server: U16, initial: S, log: seq<Admission>, p: nat)
    requires p < |Replay(serve, server, initial, log).replies|
    ensures Replay(serve, server, initial, log).replies[p].message.sender == server
  {
    var n := |log| - 1;
    if p == |Replay(serve, server, initial, log[..n]).replies| {
    } else {
      RepliesComeFromServer(serve, server, initial, log[..n], p);
    }
  }

  lemma OvertakenIsUnfaithful<S(!new)>(serve: Service<S>, s0: State<S>, s: State<S>, i: nat, j: nat)
    requires i < |s.clients| && j < |s0.clients| && s0.clients[j].id != s0.server.id && s0.clients[j].todo != []
    requires s.clients[i].received == [Letter(s0.clients[j].id, s0.clients[j].todo[0])]
    ensures !Faithful(serve, s0, s)
  {
    var replies := Replay(serve, s0.server.id, s0.state, s.admitted).replies;
    if |RepliesTo(i, replies)| > 0 {
      var p := RepliesToAt(i, replies, 0);
      RepliesComeFromServer(serve, s0.server.id, s0.state, s.admitted, p);
      assert RepliesTo(i, replies)[0].sender != s.clients[i].received[0].sender;
    }
  }

  ghost predicate EveryRunFaithful<S(!new)>(serve: Service<S>, s0: State<S>) {
    forall schedule :: Faithful(serve, s0, After(serve, s0, schedule))
  }

  ghost predicate AtMostOneAsks<S>(s0: State<S>) {
    forall i, j | 0 <= i < j < |s0.clients| :: s0.clients[i].todo == [] || s0.clients[j].todo == []
  }

  /** Every client's first request would meet silence in the server's initial state. */
  ghost predicate FirstsAreSilenced<S(!new)>(serve: Service<S>, s0: State<S>) {
    forall i | 0 <= i < |s0.clients| && s0.clients[i].todo != [] :: serve(s0.state, s0.clients[i].todo[0]).Silence?
  }

  /** Responses are right in every run exactly when at most one client has anything to ask, or when nobody's first
      request is answered, so that there are no responses at all. */
  lemma ResponsesFaithfulIff<S(!new)>(serve: Service<S>, s0: State<S>)
    requires Initial(s0)
    requires forall i | 0 <= i < |s0.clients| :: s0.clients[i].id != s0.server.id
    ensures EveryRunFaithful(serve, s0) <==> AtMostOneAsks(s0) || FirstsAreSilenced(serve, s0)
  {
    if AtMostOneAsks(s0) {
      forall schedule
        ensures Faithful(serve, s0, After(serve, s0, schedule))
      {
        AtMostOneIsFaithful(serve, s0, schedule);
      }
    } else if FirstsAreSilenced(serve, s0) {
      forall schedule
        ensures Faithful(serve, s0, After(serve, s0, schedule))
      {
        AfterMute(serve, s0, schedule);
      }
    } else {
      var a, b :| 0 <= a < b < |s0.clients| && s0.clients[a].todo != [] && s0.clients[b].todo != [];
      var i :| 0 <= i < |s0.clients| && s0.clients[i].todo != [] && serve(s0.state, s0.clients[i].todo[0]).Answered?;
      var j := if i == a then b else a;
      var r := Overtaken(serve, s0, i, j);
      OvertakenIsUnfaithful(serve, s0, After(serve, s0, r), i, j);
    }
  }

  lemma AtMostOneIsFaithful<S(!new)>(serve: Service<S>, s0: State<S>, schedule: seq<Actor>)
    requires Initial(s0) && AtMostOneAsks(s0)
    ensures Faithful(serve, s0, After(serve, s0, schedule))
  {
    if i :| 0 <= i < |s0.clients| && s0.clients[i].todo != [] {
      SingleClientResponses(serve, s0, schedule, i);
    } else if |s0.clients| > 0 {
      SingleClientResponses(serve, s0, schedule, 0);
    } else {
      AfterInv(serve, s0, schedule);
    }
  }

  /** A run in which no first request is answered: nobody gets to a second one, and no response is ever written. */
  ghost predicate Mute<S>(s0: State<S>, s: State<S>) {
    && s.sems.clientCanRead == 0 && s.state == s0.state && |s.clients| == |s0.clients|
    && (Resting(s.server.pc) || Reading(s.server.pc))
    && (forall i | 0 <= i < |s.clients| ::
         && s.clients[i].received == []
         && (s.clients[i].pc == Idle || Writing(s.clients[i].pc) || s.clients[i].pc == AwaitReply)
         && (s.clients[i].pc == Idle ==> s.clients[i].todo == s0.clients[i].todo))
    && (forall p | 0 <= p < |s.admitted| ::
         && s.admitted[p].client < |s0.clients| && s0.clients[s.admitted[p].client].todo != []
         && s.admitted[p].request == s0.clients[s.admitted[p].client].todo[0])
  }

  lemma ClientStepMute<S>(s0: State<S>, s: State<S>, i: nat)
    requires Mute(s0, s) && Enabled(s, Client(i))
    ensures Mute(s0, ClientStep(s, i))
  {
  }

  lemma ServerStepMute<S(!new)>(serve: Service<S>, s0: State<S>, s: State<S>)
    requires FirstsAreSilenced(serve, s0) && Inv(serve, s0, s) && Mute(s0, s) && Enabled(s, Server)
    ensures Mute(s0, ServerStep(serve, s))
  {
    ServerStepTokens(serve, s);
    if s.server.pc == Dispatch {
      var a := s.admitted[|s.admitted| - 1];
      assert s.server.content == a.request;
      assert serve(s0.state, s0.clients[a.client].todo[0]).Silence?;
    }
  }

  lemma {:induction false} AfterMute<S(!new)>(serve: Service<S>, s0: State<S>, schedule: seq<Actor>)
    requires Initial(s0) && FirstsAreSilenced(serve, s0)
    ensures Mute(s0, After(serve, s0, schedule))
  {
    if schedule == [] {
    } else {
      var before, a := schedule[..|schedule| - 1], schedule[|schedule| - 1];
      var mid := After(serve, s0, before);
      AfterMute(serve, s0, before);
      AfterInv(serve, s0, before);
      if Enabled(mid, a) {
        match a
        case Server => ServerStepMute(serve, s0, mid);
        case Client(i) => ClientStepMute(s0, mid, i);
      }
    }
  }
}
