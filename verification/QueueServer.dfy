/** The server and its clients on one shared message queue; it refines one mailbox per process with a limit. */
module QueueServer {
  import opened Messages
  import opened Mailbox
  import Q = MessageQueue
  import M = MailboxServer
  import S = Service

  type Service<!T> = S.Service<T>

  type Items = items: seq<Q.Item> | forall k | 0 <= k < |items| ::
    items[k].message.length == |items[k].message.content| witness []

  /** The longest content that `msgrcv` accepts. */
  const LIMIT := Q.MESSAGE_BUFFER_SIZE - Q.ITEM_OVERHEAD

  datatype ClientState = ClientState(
    id: U16, pc: M.ClientPc, todo: seq<Content>, received: seq<M.Mail>, history: seq<Event>)

  datatype ServerState = ServerState(
    id: U16, pc: M.ServerPc, sender: U16, request: Content, response: Content, history: seq<Event>)

  /** `taken` and the histories are for the theorems only. */
  datatype State<T> = State(
    items: Items, clients: seq<ClientState>, server: ServerState, state: T, taken: seq<S.Admission>)

  predicate Enabled<T>(s: State<T>, a: M.Actor) {
    match a
    case Server => s.server.pc == M.Listening ==> Q.Take(s.server.id, s.items).received.Got?
    case Client(i) =>
      && i < |s.clients|
      && (if s.clients[i].pc == M.Idle then s.clients[i].todo != []
          else Q.Take(s.clients[i].id, s.items).received.Got?)
  }

  function Step<T>(serve: Service<T>, s: State<T>, a: M.Actor): State<T>
    requires Enabled(s, a)
  {
    match a
    case Server => ServerStep(serve, s)
    case Client(i) => ClientStep(s, i)
  }

  function ClientStep<T>(s: State<T>, i: nat): State<T>
    requires Enabled(s, M.Client(i))
  {
    var c, v := s.clients[i], s.server;
    match c.pc
    case Idle =>
      var m := Letter(c.id, c.todo[0]);
      s.(items := Q.Put(s.items, v.id, m),
         clients := s.clients[i := c.(pc := M.Awaiting, todo := c.todo[1..])],
         server := v.(history := v.history + [Posted(m)]))
    case Awaiting =>
      var o := Q.Take(c.id, s.items);
      var m := o.received.message;
      s.(items := o.items,
         clients := s.clients[i := c.(pc := M.Idle, received := c.received + [m],
                                      history := c.history + [TakenOut(m)])])
  }

  function ServerStep<T>(serve: Service<T>, s: State<T>): State<T>
    requires Enabled(s, M.Server)
  {
    var v := s.server;
    match v.pc
    case Listening =>
      var o := Q.Take(v.id, s.items);
      var m: M.Mail := o.received.message;
      s.(items := o.items,
         server := v.(pc := M.Dispatching, sender := m.sender, request := m.content,
                      history := v.history + [TakenOut(m)]),
         taken := s.taken + [S.Admission(m.sender, m.content)])
    case Dispatching =>
      var served := serve(s.state, v.request);
      if served.Silence? then s.(server := v.(pc := M.Listening))
      else s.(state := served.state, server := v.(pc := M.Replying, response := served.content))
    case Replying =>
      var m := Letter(v.id, v.response);
      s.(items := Q.Put(s.items, v.sender, m),
         clients := Noted(s.clients, v.sender, Posted(m)),
         server := v.(pc := M.Listening))
  }

  function Noted(clients: seq<ClientState>, id: U16, e: Event): seq<ClientState> {
    seq(|clients|, i requires 0 <= i < |clients| =>
      if clients[i].id != id then clients[i] else clients[i].(history := clients[i].history + [e]))
  }

  function After<T>(serve: Service<T>, s: State<T>, schedule: seq<M.Actor>): State<T> {
    if schedule == [] then s
    else
      var mid := After(serve, s, schedule[..|schedule| - 1]);
      var a := schedule[|schedule| - 1];
      if Enabled(mid, a) then Step(serve, mid, a) else mid
  }

  /** Identifiers are message types: positive, and different for all processes. */
  ghost predicate Identified<T>(s: State<T>) {
    && s.server.id != 0
    && (forall i | 0 <= i < |s.clients| :: s.clients[i].id != 0 && s.clients[i].id != s.server.id)
    && forall i, j | 0 <= i < |s.clients| && 0 <= j < |s.clients| && i != j :: s.clients[i].id != s.clients[j].id
  }

  ghost predicate Initial<T>(s: State<T>) {
    && Identified(s) && s.items == [] && s.taken == [] && s.server.pc == M.Listening && s.server.history == []
    && forall i | 0 <= i < |s.clients| ::
      s.clients[i].pc == M.Idle && s.clients[i].received == [] && s.clients[i].history == []
  }

  // The refinement

  lemma {:induction false} BoxIsMail(id: U16, items: Items)
    ensures forall k | 0 <= k < |Q.Box(id, items)| :: Q.Box(id, items)[k].length == |Q.Box(id, items)[k].content|
  {
    if items == [] {
    } else {
      BoxIsMail(id, items[1..]);
    }
  }

  function Inbox(id: U16, items: Items): seq<M.Mail> {
    BoxIsMail(id, items);
    Q.Box(id, items)
  }

  function ViewClient(c: ClientState, items: Items): M.ClientState {
    M.ClientState(c.id, c.pc, c.todo, Inbox(c.id, items), c.received, c.history)
  }

  function ViewClients(clients: seq<ClientState>, items: Items): seq<M.ClientState> {
    seq(|clients|, i requires 0 <= i < |clients| => ViewClient(clients[i], items))
  }

  function ViewServer(v: ServerState, items: Items): M.ServerState {
    M.ServerState(v.id, v.pc, Inbox(v.id, items), v.sender, v.request, v.response, v.history)
  }

  /** Each process's part of the queue as a mailbox of its own. */
  function View<T>(s: State<T>): M.State<T> {
    M.State(Queue, LIMIT, ViewClients(s.clients, s.items), ViewServer(s.server, s.items), s.state, s.taken)
  }

  lemma TakeIsReady(id: U16, items: Items)
    requires id != 0
    ensures Q.Take(id, items).received.Got? <==> M.Ready(Queue, LIMIT, Inbox(id, items))
  {
    Q.TakeIsOwnQueue(id, items);
  }

  /** A receive takes the head of its own mailbox and leaves the others alone. */
  lemma TakeViews(id: U16, items: Items, other: U16)
    requires id != 0 && Q.Take(id, items).received.Got?
    ensures var o := Q.Take(id, items);
      && Inbox(id, items) != [] && o.received.message == Inbox(id, items)[0]
      && Inbox(other, o.items) == if other == id then Inbox(id, items)[1..] else Inbox(other, items)
  {
    Q.TakeIsOwnQueue(id, items);
    Q.SelectIsOldest(id, items);
    Q.TakeIsSomeonesQueue(id, items, other);
  }

  lemma EnabledRefines<T>(s: State<T>, a: M.Actor)
    requires Identified(s)
    ensures Enabled(s, a) <==> M.Enabled(View(s), a)
  {
    match a
    case Server => TakeIsReady(s.server.id, s.items);
    case Client(i) => if i < |s.clients| { TakeIsReady(s.clients[i].id, s.items); }
  }

  lemma PostRefines<T>(s: State<T>, i: nat)
    requires Identified(s) && Enabled(s, M.Client(i)) && s.clients[i].pc == M.Idle
    ensures M.Enabled(View(s), M.Client(i)) && View(ClientStep(s, i)) == M.ClientStep(View(s), i)
  {
    var t, m := ClientStep(s, i), Letter(s.clients[i].id, s.clients[i].todo[0]);
    forall id: U16
      ensures Inbox(id, t.items) == if id == s.server.id then Inbox(id, s.items) + [m] else Inbox(id, s.items)
    {
      Q.BoxSnoc(id, s.items, Q.Item(s.server.id, m));
    }
    assert ViewClients(t.clients, t.items) == M.ClientStep(View(s), i).clients;
  }

  lemma TakeRefines<T>(s: State<T>, i: nat)
    requires Identified(s) && Enabled(s, M.Client(i)) && s.clients[i].pc == M.Awaiting
    ensures M.Enabled(View(s), M.Client(i)) && View(ClientStep(s, i)) == M.ClientStep(View(s), i)
  {
    var t, id := ClientStep(s, i), s.clients[i].id;
    EnabledRefines(s, M.Client(i));
    forall other: U16
      ensures Inbox(other, t.items) == if other == id then Inbox(id, s.items)[1..] else Inbox(other, s.items)
      ensures Q.Take(id, s.items).received.message == Inbox(id, s.items)[0]
    {
      TakeViews(id, s.items, other);
    }
    TakeViews(id, s.items, id);
    assert ViewClients(t.clients, t.items) == M.ClientStep(View(s), i).clients;
  }

  lemma ListenRefines<T>(serve: Service<T>, s: State<T>)
    requires Identified(s) && Enabled(s, M.Server) && s.server.pc == M.Listening
    ensures M.Enabled(View(s), M.Server) && View(ServerStep(serve, s)) == M.ServerStep(serve, View(s))
  {
    var t, id := ServerStep(serve, s), s.server.id;
    EnabledRefines(s, M.Server);
    forall other: U16
      ensures Inbox(other, t.items) == if other == id then Inbox(id, s.items)[1..] else Inbox(other, s.items)
    {
      TakeViews(id, s.items, other);
    }
    TakeViews(id, s.items, id);
    assert ViewClients(t.clients, t.items) == View(s).clients;
  }

  lemma ReplyRefines<T>(serve: Service<T>, s: State<T>)
    requires Identified(s) && s.server.pc == M.Replying && s.server.sender != s.server.id
    ensures View(ServerStep(serve, s)) == M.ServerStep(serve, View(s))
  {
    var t, m := ServerStep(serve, s), Letter(s.server.id, s.server.response);
    forall id: U16 | id != 0
      ensures Inbox(id, t.items) == if id == s.server.sender then Inbox(id, s.items) + [m] else Inbox(id, s.items)
    {
      Q.BoxSnoc(id, s.items, Q.Item(s.server.sender, m));
    }
    assert ViewClients(t.clients, t.items) == M.ServerStep(serve, View(s)).clients;
  }

  /** Messages at the server, and the request that it works on, come from other processes. */
  ghost predicate Foreign<T>(s: State<T>) {
    && (s.server.pc != M.Listening ==> s.server.sender != s.server.id)
    && forall k | 0 <= k < |Inbox(s.server.id, s.items)| :: Inbox(s.server.id, s.items)[k].sender != s.server.id
  }

  lemma StepRefines<T>(serve: Service<T>, s: State<T>, a: M.Actor)
    requires Identified(s) && Foreign(s) && Enabled(s, a)
    ensures M.Enabled(View(s), a) && View(Step(serve, s, a)) == M.Step(serve, View(s), a)
    ensures Identified(Step(serve, s, a)) && Foreign(Step(serve, s, a))
  {
    EnabledRefines(s, a);
    match a
    case Server =>
      match s.server.pc {
        case Listening => ListenRefines(serve, s);
        case Dispatching => assert ViewClients(s.clients, s.items) == M.ServerStep(serve, View(s)).clients;
        case Replying => ReplyRefines(serve, s);
      }
      ForeignServer(serve, s);
    case Client(i) =>
      if s.clients[i].pc == M.Idle { PostRefines(s, i); } else { TakeRefines(s, i); }
      ForeignClient(s, i);
  }

  lemma ForeignServer<T>(serve: Service<T>, s: State<T>)
    requires Identified(s) && Foreign(s) && Enabled(s, M.Server)
    requires M.Enabled(View(s), M.Server) && View(ServerStep(serve, s)) == M.ServerStep(serve, View(s))
    ensures Identified(ServerStep(serve, s)) && Foreign(ServerStep(serve, s))
  {
    assert View(ServerStep(serve, s)).server.inbox == Inbox(s.server.id, ServerStep(serve, s).items);
  }

  lemma ForeignClient<T>(s: State<T>, i: nat)
    requires Identified(s) && Foreign(s) && Enabled(s, M.Client(i))
    requires M.Enabled(View(s), M.Client(i)) && View(ClientStep(s, i)) == M.ClientStep(View(s), i)
    ensures Identified(ClientStep(s, i)) && Foreign(ClientStep(s, i))
  {
    assert View(ClientStep(s, i)).server.inbox == Inbox(s.server.id, ClientStep(s, i).items);
  }

  lemma InitialRefines<T>(s0: State<T>)
    requires Initial(s0)
    ensures M.Initial(View(s0)) && Foreign(s0)
  {
  }

  /** Every run on the shared queue is, step by step, the run of the same schedule on one mailbox per process. */
  lemma {:induction false} AfterRefines<T>(serve: Service<T>, s0: State<T>, schedule: seq<M.Actor>)
    requires Initial(s0)
    ensures View(After(serve, s0, schedule)) == M.After(serve, View(s0), schedule)
    ensures Identified(After(serve, s0, schedule)) && Foreign(After(serve, s0, schedule))
  {
    InitialRefines(s0);
    if schedule == [] {
    } else {
      var before, a := schedule[..|schedule| - 1], schedule[|schedule| - 1];
      AfterRefines(serve, s0, before);
      EnabledRefines(After(serve, s0, before), a);
      if Enabled(After(serve, s0, before), a) { StepRefines(serve, After(serve, s0, before), a); }
    }
  }

  ghost predicate Blocked<T>(s: State<T>) {
    forall a :: !Enabled(s, a)
  }

  lemma BlockedRefines<T>(s: State<T>)
    requires Identified(s)
    ensures Blocked(s) <==> M.Blocked(View(s))
  {
    forall a
      ensures Enabled(s, a) <==> M.Enabled(View(s), a)
    {
      EnabledRefines(s, a);
    }
  }

  predicate Finished(c: ClientState) {
    c.pc == M.Idle && c.todo == []
  }

  /** Over the shared queue: what each client has received is a prefix of what a sequential run in the server's order of
      taking requests sends it, all of it but at most one message; its requests enter that run in its own order; and
      the server's state is the run's. */
  lemma {:induction false} Linearizability<T>(serve: Service<T>, s0: State<T>, schedule: seq<M.Actor>)
    requires Initial(s0)
    ensures var s := After(serve, s0, schedule);
      var l := S.Replay(serve, s0.server.id, s0.state, M.Dispatched(View(s)));
      && |s.clients| == |s0.clients| && s.state == l.state
      && forall i | 0 <= i < |s.clients| ::
        var replies := S.RepliesTo(s0.clients[i].id, l.replies);
        && S.SentBy(s0.clients[i].id, s.taken) <= s0.clients[i].todo
        && s.clients[i].received <= replies && |replies| <= |s.clients[i].received| + 1
  {
    AfterRefines(serve, s0, schedule);
    InitialRefines(s0);
    M.Linearizability(serve, View(s0), schedule);
    var s := After(serve, s0, schedule);
    forall i | 0 <= i < |s.clients|
      ensures View(s).clients[i].received == s.clients[i].received
    {
    }
  }
}
