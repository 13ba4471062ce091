/**
 * One server and any number of clients, each with a mailbox of its own that is a queue or a stack: the abstract form of
 * the transports with inboxes, which `PipeServer`, `QueueServer` and, while no send lands in a receive, `FileServer`
 * refine. A send or a receive is one step here, and a receive accepts contents up to a limit; a longer one stays.
 */
module MailboxServer {
  import opened Messages
  import opened Mailbox
  import S = Service

  type Service<!T> = S.Service<T>

  type Mail = m: Message | m.length == |m.content| witness Message(0, 0, [])

  /** A client sends the head of its list and waits for the response before it sends the next. */
  datatype ClientPc = Idle | Awaiting

  datatype ClientState = ClientState(
    id: U16, pc: ClientPc, todo: seq<Content>, inbox: seq<Mail>, received: seq<Mail>, history: seq<Event>)

  datatype ServerPc = Listening | Dispatching | Replying

  /** `sender` and `request` are those of the message taken last. */
  datatype ServerState = ServerState(
    id: U16, pc: ServerPc, inbox: seq<Mail>, sender: U16, request: Content, response: Content, history: seq<Event>)

  /** `taken` records, for the theorems only, the requests in the server's order of taking them; clients are named by
      their identifiers there. Each `history` records what happened to one mailbox. */
  datatype State<T> = State(
    discipline: Discipline, limit: nat, clients: seq<ClientState>, server: ServerState, state: T,
    taken: seq<S.Admission>)

  datatype Actor = Server | Client(index: nat)

  /** The message that a receive takes: the oldest of a queue, the newest of a stack. */
  function Choice(d: Discipline, box: seq<Mail>): Mail
    requires box != []
  {
    if d == Queue then box[0] else box[|box| - 1]
  }

  function Rest(d: Discipline, box: seq<Mail>): seq<Mail>
    requires box != []
  {
    if d == Queue then box[1..] else box[..|box| - 1]
  }

  /** A receive is possible: there is a message, and the one to be taken is not too long. */
  predicate Ready(d: Discipline, limit: nat, box: seq<Mail>) {
    box != [] && |Choice(d, box).content| <= limit
  }

  /** Whoever has this identifier finds the message in its inbox. */
  function Deliver(clients: seq<ClientState>, id: U16, m: Mail): seq<ClientState> {
    seq(|clients|, i requires 0 <= i < |clients| =>
      if clients[i].id != id then clients[i]
      else clients[i].(inbox := clients[i].inbox + [m], history := clients[i].history + [Posted(m)]))
  }

  predicate Enabled<T>(s: State<T>, a: Actor) {
    match a
    case Server => s.server.pc == Listening ==> Ready(s.discipline, s.limit, s.server.inbox)
    case Client(i) =>
      && i < |s.clients|
      && (if s.clients[i].pc == Idle then s.clients[i].todo != []
          else Ready(s.discipline, s.limit, s.clients[i].inbox))
  }

  function Step<T>(serve: Service<T>, s: State<T>, a: Actor): State<T>
    requires Enabled(s, a)
  {
    match a
    case Server => ServerStep(serve, s)
    case Client(i) => ClientStep(s, i)
  }

  function ClientStep<T>(s: State<T>, i: nat): State<T>
    requires Enabled(s, Client(i))
  {
    var c, v := s.clients[i], s.server;
    match c.pc
    case Idle =>
      var m := Letter(c.id, c.todo[0]);
      s.(clients := s.clients[i := c.(pc := Awaiting, todo := c.todo[1..])],
         server := v.(inbox := v.inbox + [m], history := v.history + [Posted(m)]))
    case Awaiting =>
      var m := Choice(s.discipline, c.inbox);
      s.(clients := s.clients[i := c.(pc := Idle, inbox := Rest(s.discipline, c.inbox), received := c.received + [m],
                                      history := c.history + [TakenOut(m)])])
  }

  function ServerStep<T>(serve: Service<T>, s: State<T>): State<T>
    requires Enabled(s, Server)
  {
    var v := s.server;
    match v.pc
    case Listening =>
      var m := Choice(s.discipline, v.inbox);
      s.(server := v.(pc := Dispatching, inbox := Rest(s.discipline, v.inbox), sender := m.sender,
                      request := m.content, history := v.history + [TakenOut(m)]),
         taken := s.taken + [S.Admission(m.sender, m.content)])
    case Dispatching =>
      var served := serve(s.state, v.request);
      if served.Silence? then s.(server := v.(pc := Listening))
      else s.(state := served.state, server := v.(pc := Replying, response := served.content))
    case Replying =>
      s.(clients := Deliver(s.clients, v.sender, Letter(v.id, v.response)), server := v.(pc := Listening))
  }

  function After<T>(serve: Service<T>, s: State<T>, schedule: seq<Actor>): State<T> {
    if schedule == [] then s
    else
      var mid := After(serve, s, schedule[..|schedule| - 1]);
      var a := schedule[|schedule| - 1];
      if Enabled(mid, a) then Step(serve, mid, a) else mid
  }

  ghost predicate DistinctIds(clients: seq<ClientState>) {
    forall i, j | 0 <= i < |clients| && 0 <= j < |clients| && i != j :: clients[i].id != clients[j].id
  }

  /** Mailboxes are per identifier, so identifiers differ. */
  ghost predicate Initial<T>(s: State<T>) {
    && s.server.pc == Listening && s.server.inbox == [] && s.server.history == [] && s.taken == []
    && DistinctIds(s.clients)
    && forall i | 0 <= i < |s.clients| ::
      && s.clients[i].pc == Idle && s.clients[i].inbox == []
      && s.clients[i].received == [] && s.clients[i].history == []
  }

  // The invariant

  predicate BusyWith(v: ServerState, id: U16) {
    v.pc != Listening && v.sender == id
  }

  /** The requests that have been run against the server's state. */
  function Dispatched<T>(s: State<T>): seq<S.Admission> {
    if s.server.pc == Dispatching && s.taken != [] then s.taken[..|s.taken| - 1] else s.taken
  }

  function Underway(v: ServerState, id: U16): seq<Message> {
    if v.pc == Replying && v.sender == id then [Letter(v.id, v.response)] else []
  }

  /** One client: at most one message of it or for it anywhere; its list is split between taken, waiting and unsent
      requests; and what it received, what waits for it and what is being sent to it are its sequential replies. */
  predicate Served(
    before: ClientState, c: ClientState, v: ServerState, taken: seq<S.Admission>, replies: seq<S.Reply>) {
    && c.id == before.id
    && |From(c.id, v.inbox)| + |c.inbox| + (if BusyWith(v, c.id) then 1 else 0) <= (if c.pc == Awaiting then 1 else 0)
    && S.SentBy(c.id, taken) + From(c.id, v.inbox) + c.todo == before.todo
    && |S.SentBy(c.id, taken)| + |From(c.id, v.inbox)| == |c.received| + (if c.pc == Awaiting then 1 else 0)
    && (c.received + c.inbox) + Underway(v, c.id) == S.RepliesTo(c.id, replies)
  }

  ghost predicate InStep<T>(serve: Service<T>, s0: State<T>, s: State<T>) {
    && s.state == S.Replay(serve, s0.server.id, s0.state, Dispatched(s)).state
    && s.server.id == s0.server.id && s.limit == s0.limit && s.discipline == s0.discipline
    && |s.clients| == |s0.clients|
    && (s.server.pc == Dispatching ==>
         s.taken != [] && s.taken[|s.taken| - 1] == S.Admission(s.server.sender, s.server.request))
  }

  ghost predicate Inv<T>(serve: Service<T>, s0: State<T>, s: State<T>) {
    && InStep(serve, s0, s)
    && var replies := S.Replay(serve, s0.server.id, s0.state, Dispatched(s)).replies;
      forall i | 0 <= i < |s.clients| :: Served(s0.clients[i], s.clients[i], s.server, s.taken, replies)
  }

  lemma PostServed(before: ClientState, c: ClientState, v: ServerState, taken: seq<S.Admission>, replies: seq<S.Reply>)
    requires Served(before, c, v, taken, replies) && c.pc == Idle && c.todo != []
    ensures Served(before, c.(pc := Awaiting, todo := c.todo[1..]), v.(inbox := v.inbox + [Letter(c.id, c.todo[0])]),
                   taken, replies)
  {
    FromSnoc(c.id, v.inbox, Letter(c.id, c.todo[0]));
    assert S.SentBy(c.id, taken) + [] + c.todo == S.SentBy(c.id, taken) + [c.todo[0]] + c.todo[1..];
  }

  lemma PostLeavesOthers(
    before: ClientState, c: ClientState, v: ServerState, taken: seq<S.Admission>, replies: seq<S.Reply>, m: Mail)
    requires Served(before, c, v, taken, replies) && m.sender != c.id
    ensures Served(before, c, v.(inbox := v.inbox + [m]), taken, replies)
  {
    FromSnoc(c.id, v.inbox, m);
  }

  lemma TakeServed(
    d: Discipline, before: ClientState, c: ClientState, v: ServerState, taken: seq<S.Admission>, replies: seq<S.Reply>)
    requires Served(before, c, v, taken, replies) && c.pc == Awaiting && c.inbox != []
    ensures Served(before, c.(pc := Idle, inbox := Rest(d, c.inbox), received := c.received + [Choice(d, c.inbox)]),
                   v, taken, replies)
  {
    assert c.inbox == [Choice(d, c.inbox)] && Rest(d, c.inbox) == [];
    assert c.received + c.inbox == c.received + c.inbox + [];
  }

  /** The only message of a process is its oldest and its newest. */
  lemma FromChoice(d: Discipline, id: U16, box: seq<Mail>)
    requires box != [] && |From(id, box)| <= 1
    ensures From(id, Rest(d, box)) == if Choice(d, box).sender == id then [] else From(id, box)
    ensures Choice(d, box).sender == id ==> From(id, box) == [Choice(d, box).content]
  {
    if d == Queue { FromRest(id, box); }
  }

  lemma ListenServed(
    d: Discipline, before: ClientState, c: ClientState, v: ServerState, taken: seq<S.Admission>, replies: seq<S.Reply>)
    requires Served(before, c, v, taken, replies) && v.pc == Listening && v.inbox != []
    ensures var m := Choice(d, v.inbox);
      Served(before, c, v.(pc := Dispatching, inbox := Rest(d, v.inbox), sender := m.sender, request := m.content),
             taken + [S.Admission(m.sender, m.content)], replies)
  {
    var m := Choice(d, v.inbox);
    FromChoice(d, c.id, v.inbox);
    S.SentBySnoc(c.id, taken, S.Admission(m.sender, m.content));
    assert S.SentBy(c.id, taken) + [m.content] + [] == S.SentBy(c.id, taken) + [m.content];
  }

  lemma SilenceServed(
    before: ClientState, c: ClientState, v: ServerState, taken: seq<S.Admission>, replies: seq<S.Reply>)
    requires Served(before, c, v, taken, replies) && v.pc == Dispatching
    ensures Served(before, c, v.(pc := Listening), taken, replies)
  {
  }

  lemma AnswerServed(
    before: ClientState, c: ClientState, v: ServerState, taken: seq<S.Admission>, replies: seq<S.Reply>,
    response: Content)
    requires Served(before, c, v, taken, replies) && v.pc == Dispatching
    ensures Served(before, c, v.(pc := Replying, response := response), taken,
                   replies + [S.Reply(v.sender, Letter(v.id, response))])
  {
    S.RepliesToSnoc(c.id, replies, S.Reply(v.sender, Letter(v.id, response)));
    assert c.received + c.inbox + [] == c.received + c.inbox;
  }

  lemma ReplyServed(before: ClientState, c: ClientState, v: ServerState, taken: seq<S.Admission>, replies: seq<S.Reply>)
    requires Served(before, c, v, taken, replies) && v.pc == Replying
    ensures var m := Letter(v.id, v.response);
      Served(before, if c.id == v.sender then c.(inbox := c.inbox + [m]) else c, v.(pc := Listening), taken, replies)
  {
    var m := Letter(v.id, v.response);
    assert c.received + (c.inbox + [m]) + [] == c.received + c.inbox + [m];
  }

  /** `Served` does not look at the histories. */
  lemma HistoryFree(
    before: ClientState, c: ClientState, v: ServerState, taken: seq<S.Admission>, replies: seq<S.Reply>,
    h: seq<Event>, g: seq<Event>)
    requires Served(before, c, v, taken, replies)
    ensures Served(before, c.(history := h), v.(history := g), taken, replies)
  {
  }

  lemma ClientStepServed<T>(s: State<T>, i: nat, j: nat, before: ClientState, replies: seq<S.Reply>)
    requires Enabled(s, Client(i)) && j < |s.clients|
    requires s.clients[j].id == s.clients[i].id ==> j == i
    requires Served(before, s.clients[j], s.server, s.taken, replies)
    ensures var t := ClientStep(s, i);
      Served(before, t.clients[j], t.server, t.taken, replies)
  {
    var c, d, v := s.clients[i], s.clients[j], s.server;
    if c.pc == Idle {
      var m := Letter(c.id, c.todo[0]);
      var w, h := v.(inbox := v.inbox + [m]), v.history + [Posted(m)];
      if j == i {
        PostServed(before, c, v, s.taken, replies);
        HistoryFree(before, c.(pc := Awaiting, todo := c.todo[1..]), w, s.taken, replies, c.history, h);
      } else {
        PostLeavesOthers(before, d, v, s.taken, replies, m);
        HistoryFree(before, d, w, s.taken, replies, d.history, h);
      }
    } else if j == i {
      TakeServed(s.discipline, before, c, v, s.taken, replies);
    }
  }

  lemma ClientStepKeeps<T>(serve: Service<T>, s0: State<T>, s: State<T>, i: nat)
    requires Inv(serve, s0, s) && DistinctIds(s.clients) && Enabled(s, Client(i))
    ensures Inv(serve, s0, ClientStep(s, i))
  {
    var t := ClientStep(s, i);
    var replies := S.Replay(serve, s0.server.id, s0.state, Dispatched(s)).replies;
    forall j: nat | j < |t.clients|
      ensures Served(s0.clients[j], t.clients[j], t.server, t.taken, replies)
    {
      assert Served(s0.clients[j], s.clients[j], s.server, s.taken, replies);
      ClientStepServed(s, i, j, s0.clients[j], replies);
    }
  }

  /** What a step of the server adds to the replies of the sequential run. */
  function Grown<T>(serve: Service<T>, s: State<T>, replies: seq<S.Reply>): seq<S.Reply> {
    var served := serve(s.state, s.server.request);
    if s.server.pc != Dispatching || served.Silence? then replies
    else replies + [S.Reply(s.server.sender, Letter(s.server.id, served.content))]
  }

  lemma ServerStepServed<T>(serve: Service<T>, s: State<T>, j: nat, before: ClientState, replies: seq<S.Reply>)
    requires Enabled(s, Server) && j < |s.clients|
    requires Served(before, s.clients[j], s.server, s.taken, replies)
    ensures var t := ServerStep(serve, s);
      Served(before, t.clients[j], t.server, t.taken, Grown(serve, s, replies))
  {
    var c, v := s.clients[j], s.server;
    match v.pc
    case Listening =>
      var m := Choice(s.discipline, v.inbox);
      var w := v.(pc := Dispatching, inbox := Rest(s.discipline, v.inbox), sender := m.sender, request := m.content);
      ListenServed(s.discipline, before, c, v, s.taken, replies);
      HistoryFree(before, c, w, ServerStep(serve, s).taken, replies, c.history, v.history + [TakenOut(m)]);
    case Dispatching =>
      if serve(s.state, v.request).Silence? {
        SilenceServed(before, c, v, s.taken, replies);
      } else {
        AnswerServed(before, c, v, s.taken, replies, serve(s.state, v.request).content);
      }
    case Replying =>
      var m, w := Letter(v.id, v.response), v.(pc := Listening);
      ReplyServed(before, c, v, s.taken, replies);
      if c.id == v.sender {
        HistoryFree(before, c.(inbox := c.inbox + [m]), w, s.taken, replies, c.history + [Posted(m)], v.history);
      }
  }

  lemma ServerStepKeeps<T>(serve: Service<T>, s0: State<T>, s: State<T>)
    requires Inv(serve, s0, s) && Enabled(s, Server)
    ensures Inv(serve, s0, ServerStep(serve, s))
  {
    var t := ServerStep(serve, s);
    var replies := S.Replay(serve, s0.server.id, s0.state, Dispatched(s)).replies;
    DispatchedGrows(serve, s0, s);
    forall j: nat | j < |t.clients|
      ensures Served(s0.clients[j], t.clients[j], t.server, t.taken, Grown(serve, s, replies))
    {
      assert Served(s0.clients[j], s.clients[j], s.server, s.taken, replies);
      ServerStepServed(serve, s, j, s0.clients[j], replies);
    }
  }

  /** Only the dispatch runs a request; it is the one taken last. */
  lemma DispatchedGrows<T>(serve: Service<T>, s0: State<T>, s: State<T>)
    requires InStep(serve, s0, s) && Enabled(s, Server)
    ensures var t := ServerStep(serve, s);
      && InStep(serve, s0, t)
      && S.Replay(serve, s0.server.id, s0.state, Dispatched(t)).replies
         == Grown(serve, s, S.Replay(serve, s0.server.id, s0.state, Dispatched(s)).replies)
  {
    if s.server.pc == Listening {
      var t := ServerStep(serve, s);
      assert Dispatched(t) == s.taken;
    }
  }

  /** Clients keep their identifiers, nothing beyond the limit is received, and requests come from clients. */
  ghost predicate Proper<T>(s: State<T>) {
    && DistinctIds(s.clients)
    && (forall k | 0 <= k < |s.taken| :: |s.taken[k].request| <= s.limit && IsClient(s.clients, s.taken[k].client))
    && (forall i, k | 0 <= i < |s.clients| && 0 <= k < |s.clients[i].received| ::
         |s.clients[i].received[k].content| <= s.limit)
    && (s.server.pc != Listening ==> IsClient(s.clients, s.server.sender))
    && (forall k | 0 <= k < |s.server.inbox| :: IsClient(s.clients, s.server.inbox[k].sender))
  }

  ghost predicate IsClient(clients: seq<ClientState>, id: nat) {
    exists i | 0 <= i < |clients| :: clients[i].id == id
  }

  lemma SameClients<T>(serve: Service<T>, s: State<T>, a: Actor)
    requires Enabled(s, a)
    ensures var t := Step(serve, s, a);
      && |t.clients| == |s.clients| && t.limit == s.limit && t.discipline == s.discipline
      && forall i | 0 <= i < |s.clients| :: t.clients[i].id == s.clients[i].id
  {
  }

  lemma StillClients<T>(serve: Service<T>, s: State<T>, a: Actor)
    requires Enabled(s, a)
    ensures forall id: nat | IsClient(s.clients, id) :: IsClient(Step(serve, s, a).clients, id)
  {
    SameClients(serve, s, a);
    forall id: nat | IsClient(s.clients, id)
      ensures IsClient(Step(serve, s, a).clients, id)
    {
      var i :| 0 <= i < |s.clients| && s.clients[i].id == id;
      assert Step(serve, s, a).clients[i].id == id;
    }
  }

  lemma ClientStepProper<T>(serve: Service<T>, s: State<T>, i: nat)
    requires Proper(s) && Enabled(s, Client(i))
    ensures Proper(ClientStep(s, i))
  {
    SameClients(serve, s, Client(i));
    StillClients(serve, s, Client(i));
    assert IsClient(s.clients, s.clients[i].id);
  }

  lemma ServerStepProper<T>(serve: Service<T>, s: State<T>)
    requires Proper(s) && Enabled(s, Server)
    ensures Proper(ServerStep(serve, s))
  {
    SameClients(serve, s, Server);
    StillClients(serve, s, Server);
  }

  lemma {:induction false} AfterInv<T>(serve: Service<T>, s0: State<T>, schedule: seq<Actor>)
    requires Initial(s0)
    ensures Inv(serve, s0, After(serve, s0, schedule)) && Proper(After(serve, s0, schedule))
  {
    if schedule == [] {
    } else {
      var before, a := schedule[..|schedule| - 1], schedule[|schedule| - 1];
      var mid := After(serve, s0, before);
      AfterInv(serve, s0, before);
      if Enabled(mid, a) {
        match a
        case Server =>
          ServerStepProper(serve, mid);
          ServerStepKeeps(serve, s0, mid);
        case Client(i) =>
          ClientStepProper(serve, mid, i);
          ClientStepKeeps(serve, s0, mid, i);
      }
    }
  }

  // Theorems

  /** What each client has received is a prefix of what a sequential run in the server's order of taking requests sends
      it, all of it but at most one message; each client's requests enter that run in the client's own order; and the
      server's state is the run's. */
  lemma {:induction false} Linearizability<T>(serve: Service<T>, s0: State<T>, schedule: seq<Actor>)
    requires Initial(s0)
    ensures var s := After(serve, s0, schedule);
      && |s.clients| == |s0.clients|
      && s.state == S.Replay(serve, s0.server.id, s0.state, Dispatched(s)).state
      && forall i | 0 <= i < |s.clients| ::
        var id := s0.clients[i].id;
        var replies := S.RepliesTo(id, S.Replay(serve, s0.server.id, s0.state, Dispatched(s)).replies);
        && S.SentBy(id, s.taken) <= s0.clients[i].todo
        && s.clients[i].received <= replies && |replies| <= |s.clients[i].received| + 1
        && (s.clients[i].pc == Idle ==> s.clients[i].received == replies)
  {
    AfterInv(serve, s0, schedule);
    var s := After(serve, s0, schedule);
    var replies := S.Replay(serve, s0.server.id, s0.state, Dispatched(s)).replies;
    forall i | 0 <= i < |s.clients|
      ensures var id := s0.clients[i].id;
        && S.SentBy(id, s.taken) <= s0.clients[i].todo
        && s.clients[i].received <= S.RepliesTo(id, replies)
        && |S.RepliesTo(id, replies)| <= |s.clients[i].received| + 1
        && (s.clients[i].pc == Idle ==> s.clients[i].received == S.RepliesTo(id, replies))
    {
      assert Served(s0.clients[i], s.clients[i], s.server, s.taken, replies);
    }
  }

  /** A mailbox that holds what its discipline leaves of its history. */
  ghost predicate Keeps(d: Discipline, history: seq<Event>, box: seq<Message>) {
    Replay(d, history) == Pending(box)
  }

  ghost predicate AllKeep<T>(s: State<T>) {
    && Keeps(s.discipline, s.server.history, s.server.inbox)
    && forall i | 0 <= i < |s.clients| ::
      && Keeps(s.discipline, s.clients[i].history, s.clients[i].inbox)
      && s.clients[i].received == AllTaken(s.clients[i].history)
  }

  lemma PostKeeps(d: Discipline, history: seq<Event>, box: seq<Message>, m: Message)
    requires Keeps(d, history, box)
    ensures Keeps(d, history + [Posted(m)], box + [m]) && AllTaken(history + [Posted(m)]) == AllTaken(history)
  {
    ReplaySnoc(d, history, Posted(m));
    TakenSnoc(history, Posted(m));
  }

  lemma TakeKeeps(d: Discipline, history: seq<Event>, box: seq<Mail>)
    requires Keeps(d, history, box) && box != []
    ensures var m := Choice(d, box);
      && Keeps(d, history + [TakenOut(m)], Rest(d, box))
      && AllTaken(history + [TakenOut(m)]) == AllTaken(history) + [m]
  {
    ReplaySnoc(d, history, TakenOut(Choice(d, box)));
    TakenSnoc(history, TakenOut(Choice(d, box)));
  }

  lemma StepKeepsBoxes<T>(serve: Service<T>, s: State<T>, a: Actor)
    requires AllKeep(s) && Enabled(s, a)
    ensures AllKeep(Step(serve, s, a))
  {
    match a
    case Server =>
      var v := s.server;
      if v.pc == Listening {
        TakeKeeps(s.discipline, v.history, v.inbox);
      } else if v.pc == Replying {
        forall i | 0 <= i < |s.clients| {
          PostKeeps(s.discipline, s.clients[i].history, s.clients[i].inbox, Letter(v.id, v.response));
        }
      }
    case Client(i) =>
      var c := s.clients[i];
      if c.pc == Idle {
        PostKeeps(s.discipline, s.server.history, s.server.inbox, Letter(c.id, c.todo[0]));
      } else {
        TakeKeeps(s.discipline, c.history, c.inbox);
      }
  }

  /** What a mailbox's discipline says of what was posted, taken and still waits there. */
  ghost predicate Accounted(d: Discipline, history: seq<Event>, taken: seq<Message>, box: seq<Message>) {
    && multiset(taken) + multiset(box) == multiset(AllPosted(history))
    && (d == Queue ==> taken + box == AllPosted(history))
  }

  lemma BoxIsAccounted(d: Discipline, history: seq<Event>, box: seq<Message>)
    requires Keeps(d, history, box)
    ensures Accounted(d, history, AllTaken(history), box)
  {
    NothingLost(d, history);
    if d == Queue { QueueInOrder(history); }
  }

  /** In every run each mailbox keeps its discipline: it holds what its own history of posts and takes leaves, and its
      owner has received what was taken, in order. So nothing is lost, and messages come out of a queue in the order of
      posting. */
  lemma {:induction false} InboxesKeepDiscipline<T>(serve: Service<T>, s0: State<T>, schedule: seq<Actor>)
    requires Initial(s0)
    ensures var s := After(serve, s0, schedule);
      && s.discipline == s0.discipline && AllKeep(s)
      && Accounted(s.discipline, s.server.history, AllTaken(s.server.history), s.server.inbox)
      && forall i | 0 <= i < |s.clients| ::
        Accounted(s.discipline, s.clients[i].history, s.clients[i].received, s.clients[i].inbox)
  {
    if schedule == [] {
    } else {
      var before, a := schedule[..|schedule| - 1], schedule[|schedule| - 1];
      InboxesKeepDiscipline(serve, s0, before);
      if Enabled(After(serve, s0, before), a) {
        SameClients(serve, After(serve, s0, before), a);
        StepKeepsBoxes(serve, After(serve, s0, before), a);
      }
    }
    BoxesAreAccounted(After(serve, s0, schedule));
  }

  lemma BoxesAreAccounted<T>(s: State<T>)
    requires AllKeep(s)
    ensures Accounted(s.discipline, s.server.history, AllTaken(s.server.history), s.server.inbox)
    ensures forall i | 0 <= i < |s.clients| ::
      Accounted(s.discipline, s.clients[i].history, s.clients[i].received, s.clients[i].inbox)
  {
    BoxIsAccounted(s.discipline, s.server.history, s.server.inbox);
    forall i | 0 <= i < |s.clients|
      ensures Accounted(s.discipline, s.clients[i].history, s.clients[i].received, s.clients[i].inbox)
    {
      BoxIsAccounted(s.discipline, s.clients[i].history, s.clients[i].inbox);
    }
  }

  // What a transport that keeps only the histories shows of its mailboxes

  predicate AllMail(ms: seq<Message>) {
    forall k | 0 <= k < |ms| :: ms[k].length == |ms[k].content|
  }

  function AsMail(ms: seq<Message>): seq<Mail> {
    if AllMail(ms) then ms else []
  }

  /** What the discipline leaves of a history. */
  function Pend(d: Discipline, history: seq<Event>): seq<Mail> {
    var p := Replay(d, history);
    if p.Pending? then AsMail(p.messages) else []
  }

  /** A message at the server, and a request that the server has taken, belong to a client that has asked something. */
  lemma SomebodyAsked<T>(serve: Service<T>, s0: State<T>, schedule: seq<Actor>, id: nat) returns (j: nat)
    requires Initial(s0)
    requires var s := After(serve, s0, schedule);
      (exists k | 0 <= k < |s.server.inbox| :: s.server.inbox[k].sender == id)
      || (exists k | 0 <= k < |s.taken| :: s.taken[k].client == id)
    ensures j < |s0.clients| && s0.clients[j].id == id && s0.clients[j].todo != []
  {
    var s := After(serve, s0, schedule);
    AfterInv(serve, s0, schedule);
    assert IsClient(s.clients, id);
    j :| 0 <= j < |s.clients| && s.clients[j].id == id;
    assert Served(s0.clients[j], s.clients[j], s.server, s.taken,
                  S.Replay(serve, s0.server.id, s0.state, Dispatched(s)).replies);
    if k: nat :| k < |s.server.inbox| && s.server.inbox[k].sender == id {
      FromAt(id, s.server.inbox, k);
    } else {
      var p: nat :| p < |s.taken| && s.taken[p].client == id;
      S.SentByPrefix(id, s.taken, p);
    }
  }

  lemma {:induction false} FromAt(id: U16, box: seq<Message>, k: nat)
    requires k < |box| && box[k].sender == id
    ensures From(id, box) != []
  {
    if k < |box| - 1 { FromAt(id, box[..|box| - 1], k); }
  }

  // Progress

  ghost predicate Blocked<T>(s: State<T>) {
    forall a :: !Enabled(s, a)
  }

  predicate Finished(c: ClientState) {
    c.pc == Idle && c.todo == []
  }

  /** When nothing can move, a client has all its responses exactly when none of its own requests met silence, none
      waits at the server, and no response waits for it; what waits then is too long, or left behind what is. */
  lemma FinishedIff<T>(serve: Service<T>, s0: State<T>, schedule: seq<Actor>, i: nat)
    requires Initial(s0) && Blocked(After(serve, s0, schedule)) && i < |s0.clients|
    ensures var s := After(serve, s0, schedule);
      && i < |s.clients| && s.server.pc == Listening
      && (Finished(s.clients[i]) <==>
        && S.AlwaysHeard(serve, s0.server.id, s0.state, s.taken, s0.clients[i].id)
        && From(s0.clients[i].id, s.server.inbox) == [] && s.clients[i].inbox == [])
      && (Finished(s.clients[i]) ==>
        S.SentBy(s0.clients[i].id, s.taken) == s0.clients[i].todo
        && |s.clients[i].received| == |s0.clients[i].todo|)
      && (s.server.inbox != [] ==> |Choice(s0.discipline, s.server.inbox).content| > s0.limit)
      && (s.clients[i].inbox != [] ==> |Choice(s0.discipline, s.clients[i].inbox).content| > s0.limit)
  {
    var s := After(serve, s0, schedule);
    AfterInv(serve, s0, schedule);
    assert !Enabled(s, Server) && !Enabled(s, Client(i));
    assert Served(s0.clients[i], s.clients[i], s.server, s.taken,
                  S.Replay(serve, s0.server.id, s0.state, Dispatched(s)).replies);
    S.ClientHeardIff(serve, s0.server.id, s0.state, s.taken, s0.clients[i].id);
  }

  lemma AsksNothing<T>(serve: Service<T>, s0: State<T>, schedule: seq<Actor>, i: nat)
    requires Initial(s0) && i < |s0.clients| && s0.clients[i].todo == []
    ensures i < |After(serve, s0, schedule).clients| && Finished(After(serve, s0, schedule).clients[i])
  {
    var s := After(serve, s0, schedule);
    AfterInv(serve, s0, schedule);
    assert Served(s0.clients[i], s.clients[i], s.server, s.taken,
                  S.Replay(serve, s0.server.id, s0.state, Dispatched(s)).replies);
  }

  /** Steps to come for a client: five for each request it has not sent, and one for each message it has not taken. */
  function Ahead(c: ClientState): nat {
    5 * |c.todo| + |c.inbox|
  }

  function AllAhead(clients: seq<ClientState>): nat {
    if clients == [] then 0 else AllAhead(clients[..|clients| - 1]) + Ahead(clients[|clients| - 1])
  }

  function Work<T>(s: State<T>): nat {
    AllAhead(s.clients) + 4 * |s.server.inbox| +
    match s.server.pc
    case Listening => 0
    case Dispatching => 3
    case Replying => 2
  }

  lemma {:induction false} AheadUpdate(clients: seq<ClientState>, i: nat, c: ClientState)
    requires i < |clients|
    ensures AllAhead(clients[i := c]) == AllAhead(clients) - Ahead(clients[i]) + Ahead(c)
  {
    var n := |clients| - 1;
    if i == n {
      assert clients[i := c][..n] == clients[..n];
    } else {
      assert clients[i := c][..n] == clients[..n][i := c];
      AheadUpdate(clients[..n], i, c);
    }
  }

  lemma {:induction false} DeliverAhead(clients: seq<ClientState>, id: U16, m: Mail)
    requires DistinctIds(clients)
    ensures AllAhead(Deliver(clients, id, m)) <= AllAhead(clients) + 1
    ensures (forall i | 0 <= i < |clients| :: clients[i].id != id) ==> Deliver(clients, id, m) == clients
  {
    if clients == [] {
    } else {
      var n := |clients| - 1;
      DeliverAhead(clients[..n], id, m);
      assert Deliver(clients, id, m)[..n] == Deliver(clients[..n], id, m);
    }
  }

  lemma StepWorks<T>(serve: Service<T>, s: State<T>, a: Actor)
    requires DistinctIds(s.clients) && Enabled(s, a)
    ensures Work(Step(serve, s, a)) < Work(s)
  {
    match a
    case Server =>
      if s.server.pc == Replying {
        DeliverAhead(s.clients, s.server.sender, Letter(s.server.id, s.server.response));
      }
    case Client(i) => AheadUpdate(s.clients, i, ClientStep(s, i).clients[i]);
  }

  /** Every run can be continued to a state where nothing moves. */
  lemma RunsEnd<T>(serve: Service<T>, s0: State<T>, schedule: seq<Actor>) returns (full: seq<Actor>)
    requires Initial(s0)
    ensures |full| >= |schedule| && full[..|schedule|] == schedule && Blocked(After(serve, s0, full))
    decreases Work(After(serve, s0, schedule))
  {
    var s := After(serve, s0, schedule);
    if Blocked(s) {
      full := schedule;
    } else {
      var a :| Enabled(s, a);
      AfterInv(serve, s0, schedule);
      StepWorks(serve, s, a);
      assert (schedule + [a])[..|schedule|] == schedule;
      full := RunsEnd(serve, s0, schedule + [a]);
    }
  }

  /** A client whose request waits at the server has had all its earlier responses. */
  lemma WaitingIsHeard<T>(serve: Service<T>, s0: State<T>, schedule: seq<Actor>, i: nat)
    requires Initial(s0) && i < |s0.clients| && After(serve, s0, schedule).server.pc == Listening
    requires From(s0.clients[i].id, After(serve, s0, schedule).server.inbox) != []
    ensures var s, id := After(serve, s0, schedule), s0.clients[i].id;
      && i < |s.clients|
      && S.AlwaysHeard(serve, s0.server.id, s0.state, s.taken, id)
      && |s.clients[i].received| == |S.SentBy(id, s.taken)| < |s0.clients[i].todo|
      && From(id, s.server.inbox)[0] == s0.clients[i].todo[|S.SentBy(id, s.taken)|]
  {
    var s, id := After(serve, s0, schedule), s0.clients[i].id;
    AfterInv(serve, s0, schedule);
    assert Served(s0.clients[i], s.clients[i], s.server, s.taken,
                  S.Replay(serve, s0.server.id, s0.state, Dispatched(s)).replies);
    S.ClientHeardIff(serve, s0.server.id, s0.state, s.taken, id);
    assert (S.SentBy(id, s.taken) + From(id, s.server.inbox) + s.clients[i].todo)[|S.SentBy(id, s.taken)|]
      == From(id, s.server.inbox)[0];
  }

  /** While the server listens: which request the k-th message received by a client or waiting for it answers. */
  lemma MessageAnswers<T>(serve: Service<T>, s0: State<T>, schedule: seq<Actor>, i: nat, k: nat)
    returns (log: seq<S.Admission>)
    requires Initial(s0) && i < |s0.clients| == |After(serve, s0, schedule).clients|
    requires var s := After(serve, s0, schedule);
      && s.server.pc == Listening && k < |s.clients[i].received + s.clients[i].inbox|
      && S.AlwaysHeard(serve, s0.server.id, s0.state, s.taken, s0.clients[i].id)
    ensures var s := After(serve, s0, schedule);
      && log <= s.taken && k < |s0.clients[i].todo| && |s0.clients[i].todo[k]| <= s0.limit
      && var served := serve(S.Replay(serve, s0.server.id, s0.state, log).state, s0.clients[i].todo[k]);
        && served.Answered?
        && (s.clients[i].received + s.clients[i].inbox)[k] == Letter(s0.server.id, served.content)
  {
    var s, id := After(serve, s0, schedule), s0.clients[i].id;
    AfterInv(serve, s0, schedule);
    assert Served(s0.clients[i], s.clients[i], s.server, s.taken,
                  S.Replay(serve, s0.server.id, s0.state, Dispatched(s)).replies);
    assert s.clients[i].received + s.clients[i].inbox + [] == s.clients[i].received + s.clients[i].inbox;
    var q := S.ClientReplyAt(serve, s0.server.id, s0.state, s.taken, id, k);
    log := s.taken[..q];
    S.SentByPrefix(id, s.taken, q);
    assert s0.clients[i].todo[k] == S.SentBy(id, s.taken)[k];
  }

  // A request that is too long for the server's receive

  /** The server's next message does not fit its receive, and as the head of a queue it stays the next. */
  predicate Jammed<T>(s: State<T>) {
    && s.discipline == Queue && s.server.pc == Listening
    && s.server.inbox != [] && |s.server.inbox[0].content| > s.limit
  }

  lemma JamStays<T>(serve: Service<T>, s: State<T>, a: Actor)
    requires Jammed(s) && Enabled(s, a)
    ensures Jammed(Step(serve, s, a)) && Step(serve, s, a).taken == s.taken
  {
  }

  /** From then on the server takes nothing, whatever anyone does. */
  lemma {:induction false} JamIsForEver<T>(serve: Service<T>, s0: State<T>, schedule: seq<Actor>, more: seq<Actor>)
    requires Jammed(After(serve, s0, schedule)) && schedule <= more
    ensures Jammed(After(serve, s0, more))
    ensures After(serve, s0, more).taken == After(serve, s0, schedule).taken
  {
    if more == schedule {
    } else {
      var before := more[..|more| - 1];
      JamIsForEver(serve, s0, schedule, before);
      var mid := After(serve, s0, before);
      if Enabled(mid, more[|more| - 1]) { JamStays(serve, mid, more[|more| - 1]); }
    }
  }

  /** Request k of a client that is served alone: it fits, is answered, and the answer fits. */
  predicate RoundWorks<T>(serve: Service<T>, s0: State<T>, id: U16, list: seq<Content>, k: nat)
    requires k < |list|
  {
    var served := serve(S.Replay(serve, s0.server.id, s0.state, S.Own(id, list[..k])).state, list[k]);
    |list[k]| <= s0.limit && served.Answered? && |served.content| <= s0.limit
  }

  /** The server is idle, and so is client i. */
  predicate Calm<T>(s: State<T>, i: nat) {
    && s.server.pc == Listening && s.server.inbox == []
    && i < |s.clients| && s.clients[i].pc == Idle && s.clients[i].inbox == []
  }

  lemma Go<T>(serve: Service<T>, s0: State<T>, schedule: seq<Actor>, a: Actor)
    requires Enabled(After(serve, s0, schedule), a)
    ensures After(serve, s0, schedule + [a]) == Step(serve, After(serve, s0, schedule), a)
  {
    assert (schedule + [a])[..|schedule|] == schedule;
  }

  lemma SoloPost<T>(s: State<T>, i: nat)
    requires Calm(s, i) && s.clients[i].todo != []
    ensures Enabled(s, Client(i))
    ensures var t, c, m := ClientStep(s, i), s.clients[i], Letter(s.clients[i].id, s.clients[i].todo[0]);
      && t == s.(clients := t.clients, server := t.server) && |t.clients| == |s.clients|
      && t.server.pc == Listening && t.server.inbox == [m]
      && t.clients[i] == c.(pc := Awaiting, todo := c.todo[1..])
  {
  }

  lemma SoloListen<T>(serve: Service<T>, s: State<T>, m: Mail)
    requires s.server.pc == Listening && s.server.inbox == [m] && |m.content| <= s.limit
    ensures Enabled(s, Server)
    ensures var t := ServerStep(serve, s);
      && t == s.(server := t.server, taken := s.taken + [S.Admission(m.sender, m.content)])
      && t.server.pc == Dispatching && t.server.inbox == []
      && t.server.sender == m.sender && t.server.request == m.content
  {
  }

  /** The request of one client reaches the server. */
  lemma SoloAsk<T>(serve: Service<T>, s0: State<T>, schedule: seq<Actor>, i: nat) returns (r: seq<Actor>)
    requires var s := After(serve, s0, schedule);
      Calm(s, i) && s.clients[i].todo != [] && |s.clients[i].todo[0]| <= s.limit
    ensures var s, t := After(serve, s0, schedule), After(serve, s0, r);
      && t.discipline == s.discipline && t.limit == s.limit && t.state == s.state && |t.clients| == |s.clients|
      && t.server.pc == Dispatching && t.server.inbox == []
      && t.server.sender == s.clients[i].id == t.clients[i].id && t.server.request == s.clients[i].todo[0]
      && t.clients[i].pc == Awaiting && t.clients[i].inbox == [] && t.clients[i].todo == s.clients[i].todo[1..]
      && t.taken == s.taken + [S.Admission(s.clients[i].id, s.clients[i].todo[0])]
  {
    var s := After(serve, s0, schedule);
    SoloPost(s, i);
    Go(serve, s0, schedule, Client(i));
    r := schedule + [Client(i)];
    SoloListen(serve, After(serve, s0, r), Letter(s.clients[i].id, s.clients[i].todo[0]));
    Go(serve, s0, r, Server);
    r := r + [Server];
  }

  /** The server answers it. */
  lemma SoloAnswer<T>(serve: Service<T>, s0: State<T>, schedule: seq<Actor>, i: nat) returns (r: seq<Actor>)
    requires var s := After(serve, s0, schedule);
      && s.server.pc == Dispatching && s.server.inbox == [] && i < |s.clients|
      && s.clients[i].id == s.server.sender && s.clients[i].pc == Awaiting && s.clients[i].inbox == []
      && serve(s.state, s.server.request).Answered?
    ensures var s, t := After(serve, s0, schedule), After(serve, s0, r);
      && t.server.pc == Listening && t.server.inbox == [] && t.taken == s.taken
      && t.discipline == s.discipline && t.limit == s.limit
      && |t.clients| == |s.clients| && t.clients[i].pc == Awaiting
      && t.clients[i].id == s.clients[i].id && t.clients[i].todo == s.clients[i].todo
      && t.clients[i].inbox == [Letter(s.server.id, serve(s.state, s.server.request).content)]
  {
    Go(serve, s0, schedule, Server);
    r := schedule + [Server];
    Go(serve, s0, r, Server);
    r := r + [Server];
  }

  /** The client takes the response. */
  lemma SoloTake<T>(serve: Service<T>, s0: State<T>, schedule: seq<Actor>, i: nat) returns (r: seq<Actor>)
    requires var s := After(serve, s0, schedule);
      && s.server.pc == Listening && s.server.inbox == [] && i < |s.clients|
      && s.clients[i].pc == Awaiting && |s.clients[i].inbox| == 1 && |s.clients[i].inbox[0].content| <= s.limit
    ensures var s, t := After(serve, s0, schedule), After(serve, s0, r);
      && Calm(t, i) && t.discipline == s.discipline && t.limit == s.limit && t.clients[i].id == s.clients[i].id
      && t.clients[i].todo == s.clients[i].todo && t.taken == s.taken
  {
    Go(serve, s0, schedule, Client(i));
    r := schedule + [Client(i)];
  }

  /** One request of one client, with nobody else moving. */
  lemma SoloRound<T>(serve: Service<T>, s0: State<T>, schedule: seq<Actor>, i: nat) returns (r: seq<Actor>)
    requires var s := After(serve, s0, schedule);
      && Calm(s, i) && s.clients[i].todo != [] && |s.clients[i].todo[0]| <= s.limit
      && var served := serve(s.state, s.clients[i].todo[0]);
        served.Answered? && |served.content| <= s.limit
    ensures var s, t := After(serve, s0, schedule), After(serve, s0, r);
      && Calm(t, i) && t.discipline == s.discipline && t.limit == s.limit && t.clients[i].id == s.clients[i].id
      && t.clients[i].todo == s.clients[i].todo[1..]
      && t.taken == s.taken + [S.Admission(s.clients[i].id, s.clients[i].todo[0])]
  {
    r := SoloAsk(serve, s0, schedule, i);
    r := SoloAnswer(serve, s0, r, i);
    r := SoloTake(serve, s0, r, i);
  }

  lemma {:induction false} SoloRounds<T>(serve: Service<T>, s0: State<T>, i: nat, k: nat) returns (r: seq<Actor>)
    requires Initial(s0) && i < |s0.clients| && k <= |s0.clients[i].todo|
    requires forall q: nat | q < k :: RoundWorks(serve, s0, s0.clients[i].id, s0.clients[i].todo, q)
    ensures var t := After(serve, s0, r);
      && Calm(t, i) && t.discipline == s0.discipline && t.limit == s0.limit && t.clients[i].id == s0.clients[i].id
      && t.clients[i].todo == s0.clients[i].todo[k..]
      && t.taken == S.Own(s0.clients[i].id, s0.clients[i].todo[..k])
  {
    if k == 0 {
      r := [];
    } else {
      var id, list := s0.clients[i].id, s0.clients[i].todo;
      var before := SoloRounds(serve, s0, i, k - 1);
      AfterInv(serve, s0, before);
      assert RoundWorks(serve, s0, id, list, k - 1);
      r := SoloRound(serve, s0, before, i);
      assert S.Own(id, list[..k]) == S.Own(id, list[..k - 1]) + [S.Admission(id, list[k - 1])];
    }
  }

  /** With queues, a client served alone up to a request that is too long blocks the server: no request but those is
      ever taken. */
  lemma JamRun<T>(serve: Service<T>, s0: State<T>, i: nat, k: nat) returns (full: seq<Actor>)
    requires Initial(s0) && s0.discipline == Queue
    requires i < |s0.clients| && k < |s0.clients[i].todo| && |s0.clients[i].todo[k]| > s0.limit
    requires forall q: nat | q < k :: RoundWorks(serve, s0, s0.clients[i].id, s0.clients[i].todo, q)
    ensures Blocked(After(serve, s0, full))
    ensures After(serve, s0, full).taken == S.Own(s0.clients[i].id, s0.clients[i].todo[..k])
  {
    var r := SoloRounds(serve, s0, i, k);
    Go(serve, s0, r, Client(i));
    r := r + [Client(i)];
    full := RunsEnd(serve, s0, r);
    JamIsForEver(serve, s0, r, full);
  }
}
