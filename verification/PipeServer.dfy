/**
 * The server and its clients on pipes, one inbox per process, with every `acquire`, write, read and `release` a step
 * of its own; it refines one mailbox per process.
 */
module PipeServer {
  import opened Messages
  import opened Mailbox
  import F = Fifo
  import M = MailboxServer
  import S = Service

  type Service<!T> = S.Service<T>

  /** No content of a `uint16_t` length is too long for a pipe. */
  const LIMIT := 0xFFFF

  datatype ClientPc = Idle | Sending | Awaiting

  /** An inbox is a pipe with its semaphore, its senders and its receiver; here the only sender is the server. */
  datatype ClientState = ClientState(id: U16, pc: ClientPc, todo: seq<Content>, inbox: F.State)

  datatype ServerPc = Listening | Dispatching | Replying | Writing

  /** The senders of the server's inbox are the clients, in their order. */
  datatype ServerState = ServerState(
    id: U16, pc: ServerPc, inbox: F.State, sender: U16, request: Content, response: Content)

  /** `taken` and the histories of the inboxes are for the theorems only. */
  datatype State<T> = State(clients: seq<ClientState>, server: ServerState, state: T, taken: seq<S.Admission>)

  /** Which client has this identifier, or the number of clients if none has. */
  function Find(clients: seq<ClientState>, id: U16): (j: nat)
    ensures j <= |clients| && (j < |clients| ==> clients[j].id == id)
    ensures j == |clients| ==> forall i | 0 <= i < |clients| :: clients[i].id != id
  {
    if clients == [] then 0
    else
      var n := |clients| - 1;
      var j := Find(clients[..n], id);
      if j < n || clients[n].id == id then j else n + 1
  }

  /** Sender i begins to send: it takes the inbox's semaphore. */
  predicate CanAcquire(box: F.State, i: nat) {
    i < |box.senders| && box.senders[i].pc == F.Outside && box.lock > 0
  }

  function Offer(box: F.State, i: nat, content: Content): F.State
    requires i < |box.senders|
  {
    box.(senders := box.senders[i := box.senders[i].(todo := [content])])
  }

  function Acquire(box: F.State, i: nat, content: Content): F.State
    requires CanAcquire(box, i)
  {
    F.SenderStep(Offer(box, i, content), i)
  }

  predicate Enabled<T>(s: State<T>, a: M.Actor) {
    match a
    case Server =>
      (match s.server.pc
       case Listening => F.Enabled(s.server.inbox, F.Receiver)
       case Dispatching => true
       case Replying =>
         var j := Find(s.clients, s.server.sender);
         j < |s.clients| && CanAcquire(s.clients[j].inbox, 0)
       case Writing =>
         var j := Find(s.clients, s.server.sender);
         && j < |s.clients| && |s.clients[j].inbox.senders| > 0
         && s.clients[j].inbox.senders[0].pc != F.Outside)
    case Client(i) =>
      && i < |s.clients|
      && match s.clients[i].pc
         case Idle => s.clients[i].todo != [] && CanAcquire(s.server.inbox, i)
         case Sending => i < |s.server.inbox.senders| && s.server.inbox.senders[i].pc != F.Outside
         case Awaiting => F.Enabled(s.clients[i].inbox, F.Receiver)
  }

  function Step<T>(serve: Service<T>, s: State<T>, a: M.Actor): State<T>
    requires Enabled(s, a)
  {
    match a
    case Server => ServerStep(serve, s)
    case Client(i) => ClientStep(s, i)
  }

  function ClientStep<T>(s: State<T>, i: nat): State<T>
    requires Enabled(s, M.Client(i))
  {
    var c, v := s.clients[i], s.server;
    match c.pc
    case Idle =>
      s.(clients := s.clients[i := c.(pc := Sending, todo := c.todo[1..])],
         server := v.(inbox := Acquire(v.inbox, i, c.todo[0])))
    case Sending =>
      var box := F.SenderStep(v.inbox, i);
      s.(clients := s.clients[i := c.(pc := if box.senders[i].pc == F.Outside then Awaiting else Sending)],
         server := v.(inbox := box))
    case Awaiting =>
      s.(clients := s.clients[i := c.(
           pc := if c.inbox.receiver.pc == F.ReadContent then Idle else Awaiting, inbox := F.ReceiverStep(c.inbox))])
  }

  function ServerStep<T>(serve: Service<T>, s: State<T>): State<T>
    requires Enabled(s, M.Server)
  {
    var v := s.server;
    match v.pc
    case Listening =>
      var box, r := F.ReceiverStep(v.inbox), v.inbox.receiver;
      if r.pc != F.ReadContent then s.(server := v.(inbox := box))
      else
        var content: Content := v.inbox.pipe[..r.length];
        s.(server := v.(pc := Dispatching, inbox := box, sender := r.sender, request := content),
           taken := s.taken + [S.Admission(r.sender, content)])
    case Dispatching =>
      var served := serve(s.state, v.request);
      if served.Silence? then s.(server := v.(pc := Listening))
      else s.(state := served.state, server := v.(pc := Replying, response := served.content))
    case Replying =>
      var j := Find(s.clients, v.sender);
      var c := s.clients[j];
      s.(clients := s.clients[j := c.(inbox := Acquire(c.inbox, 0, v.response))], server := v.(pc := Writing))
    case Writing =>
      var j := Find(s.clients, v.sender);
      var c := s.clients[j];
      var box := F.SenderStep(c.inbox, 0);
      s.(clients := s.clients[j := c.(inbox := box)],
         server := v.(pc := if box.senders[0].pc == F.Outside then Listening else Writing))
  }

  function After<T>(serve: Service<T>, s: State<T>, schedule: seq<M.Actor>): State<T> {
    if schedule == [] then s
    else
      var mid := After(serve, s, schedule[..|schedule| - 1]);
      var a := schedule[|schedule| - 1];
      if Enabled(mid, a) then Step(serve, mid, a) else mid
  }

  ghost predicate DistinctIds(clients: seq<ClientState>) {
    forall i, j | 0 <= i < |clients| && 0 <= j < |clients| && i != j :: clients[i].id != clients[j].id
  }

  ghost predicate Initial<T>(s: State<T>) {
    && s.server.pc == Listening && s.taken == [] && DistinctIds(s.clients)
    && Fresh(s.server.inbox) && |s.server.inbox.senders| == |s.clients|
    && forall i | 0 <= i < |s.clients| ::
      && s.clients[i].pc == Idle && s.server.inbox.senders[i].id == s.clients[i].id
      && Fresh(s.clients[i].inbox)
      && |s.clients[i].inbox.senders| == 1 && s.clients[i].inbox.senders[0].id == s.server.id
  }

  ghost predicate Fresh(box: F.State) {
    F.Initial(box) && forall i | 0 <= i < |box.senders| :: box.senders[i].todo == []
  }

  // One inbox

  /** The messages whose sender has taken the semaphore and which have not been read to their end. */
  function Pend(box: F.State): seq<M.Mail> {
    M.Pend(Queue, box.history)
  }

  ghost predicate Tidy(box: F.State) {
    M.AllMail(box.receiver.received) && forall i | 0 <= i < |box.senders| :: box.senders[i].todo == []
  }

  ghost predicate Sound(box: F.State) {
    F.Inv(box) && Tidy(box)
  }

  lemma FreshIsSound(box: F.State)
    requires Fresh(box)
    ensures Sound(box) && Pend(box) == []
  {
    F.AfterInv(box, []);
  }

  lemma PendIsPending(box: F.State)
    requires F.Inv(box)
    ensures Replay(Queue, box.history).Pending? && Pend(box) == Replay(Queue, box.history).messages
  {
  }

  lemma OfferKeeps(box: F.State, i: nat, content: Content)
    requires Sound(box) && CanAcquire(box, i)
    ensures var b := Offer(box, i, content);
      && F.Inv(b) && F.Enabled(b, F.Sender(i)) && b.history == box.history && b.receiver == box.receiver
      && F.Work(b) == F.Work(box) + 8
  {
    var b := Offer(box, i, content);
    F.OwedAlone(box.senders, -1);
    F.OwedAlone(b.senders, -1);
    F.UnsentUpdate(box.senders, i, b.senders[i]);
  }

  lemma AcquireSenders(box: F.State, i: nat, content: Content)
    requires CanAcquire(box, i)
    ensures var t := Acquire(box, i, content);
      && t.receiver == box.receiver
      && |t.senders| == |box.senders| && t.senders[i].pc != F.Outside && t.senders[i].id == box.senders[i].id
      && forall j | 0 <= j < |box.senders| && j != i :: t.senders[j] == box.senders[j]
  {
  }

  lemma AcquireKeeps(box: F.State, i: nat, content: Content)
    requires Sound(box) && CanAcquire(box, i)
    ensures Sound(Acquire(box, i, content)) && F.Work(Acquire(box, i, content)) == F.Work(box) + 7
  {
    OfferKeeps(box, i, content);
    F.StepWorks(Offer(box, i, content), F.Sender(i));
    AcquireIsTidy(box, i, content);
  }

  lemma AcquireIsTidy(box: F.State, i: nat, content: Content)
    requires Tidy(box) && CanAcquire(box, i)
    ensures Tidy(Acquire(box, i, content))
  {
  }

  /** Taking the semaphore posts the message. */
  lemma AcquirePosts(box: F.State, i: nat, content: Content)
    requires Sound(box) && CanAcquire(box, i)
    ensures var t, m := Acquire(box, i, content), Letter(box.senders[i].id, content);
      t.history == box.history + [Posted(m)] && Pend(t) == Pend(box) + [m] && t.receiver == box.receiver
  {
    ReplaySnoc(Queue, box.history, Posted(Letter(box.senders[i].id, content)));
    PendIsPending(box);
    AcquireKeeps(box, i, content);
    PendIsPending(Acquire(box, i, content));
  }

  lemma WriteSenders(box: F.State, i: nat)
    requires i < |box.senders| && box.senders[i].pc != F.Outside
    ensures var t := F.SenderStep(box, i);
      && t.history == box.history && Pend(t) == Pend(box) && t.receiver == box.receiver
      && |t.senders| == |box.senders| && t.senders[i].id == box.senders[i].id
      && forall j | 0 <= j < |box.senders| && j != i :: t.senders[j] == box.senders[j]
  {
  }

  lemma WriteIsTidy(box: F.State, i: nat)
    requires Tidy(box) && i < |box.senders| && box.senders[i].pc != F.Outside
    ensures Tidy(F.SenderStep(box, i))
  {
  }

  /** Writing and releasing post nothing more. */
  lemma WriteKeepsPending(box: F.State, i: nat)
    requires Sound(box) && i < |box.senders| && box.senders[i].pc != F.Outside
    ensures Sound(F.SenderStep(box, i)) && F.Work(F.SenderStep(box, i)) == F.Work(box) - 1
  {
    F.StepWorks(box, F.Sender(i));
    WriteIsTidy(box, i);
  }

  /** Reading a header takes nothing. */
  lemma HeaderKeepsPending(box: F.State)
    requires Sound(box) && F.Enabled(box, F.Receiver) && box.receiver.pc != F.ReadContent
    ensures var t := F.ReceiverStep(box);
      && Sound(t) && t.history == box.history && Pend(t) == Pend(box) && t.senders == box.senders
      && t.receiver.pc != F.ReadSender && t.receiver.received == box.receiver.received
      && F.Work(t) == F.Work(box) - 1
  {
    F.StepWorks(box, F.Receiver);
  }

  /** The last read takes the oldest message. */
  lemma ContentTakes(box: F.State)
    requires Sound(box) && F.Enabled(box, F.Receiver) && box.receiver.pc == F.ReadContent
    ensures var t, r := F.ReceiverStep(box), box.receiver;
      && Pend(box) != []
      && var m := Pend(box)[0];
      && Sound(t) && t.history == box.history + [TakenOut(m)] && Pend(t) == Pend(box)[1..]
      && t.senders == box.senders && t.receiver.pc == F.ReadSender && t.receiver.received == r.received + [m]
      && m.sender == r.sender && m.content == box.pipe[..r.length]
      && F.Work(t) == F.Work(box) - 1
  {
    F.StepWorks(box, F.Receiver);
    PendIsPending(box);
    F.TakeOldest(box, Pend(box));
    ReplaySnoc(Queue, box.history, TakenOut(Pend(box)[0]));
    PendIsPending(F.ReceiverStep(box));
  }

  /** When nobody writes, a pending message can be read. */
  lemma QuietIsReadable(box: F.State)
    requires Sound(box) && Pend(box) != []
    requires forall i | 0 <= i < |box.senders| :: box.senders[i].pc == F.Outside
    ensures F.Enabled(box, F.Receiver)
  {
    PendIsPending(box);
    F.OwedAlone(box.senders, -1);
    F.WholeFrameIsReadable(box, Pend(box));
  }

  // The refinement

  function ViewClient(c: ClientState): M.ClientState {
    M.ClientState(c.id, if c.pc == Idle then M.Idle else M.Awaiting, c.todo, Pend(c.inbox),
                  M.AsMail(c.inbox.receiver.received), c.inbox.history)
  }

  function ViewClients(clients: seq<ClientState>): seq<M.ClientState> {
    seq(|clients|, i requires 0 <= i < |clients| => ViewClient(clients[i]))
  }

  /** A response is posted when the server takes the client's semaphore; what it still writes does not show. */
  function ViewServer(v: ServerState): M.ServerState {
    var pc := match v.pc
      case Dispatching => M.Dispatching
      case Replying => M.Replying
      case _ => M.Listening;
    M.ServerState(v.id, pc, Pend(v.inbox), v.sender, v.request, v.response, v.inbox.history)
  }

  function View<T>(s: State<T>): M.State<T> {
    M.State(Queue, LIMIT, ViewClients(s.clients), ViewServer(s.server), s.state, s.taken)
  }

  /** The server is in the middle of sending to this client. */
  predicate WritingTo(v: ServerState, id: U16) {
    v.pc == Writing && v.sender == id
  }

  /** One client, with its place among the senders of the server's inbox. */
  ghost predicate ClientOk(c: ClientState, sender: F.SenderState, server: U16, written: bool) {
    && Sound(c.inbox) && |c.inbox.senders| == 1 && c.inbox.senders[0].id == server && sender.id == c.id
    && (c.pc == Sending <==> sender.pc != F.Outside)
    && (c.inbox.receiver.pc != F.ReadSender ==> c.pc == Awaiting)
    && (c.inbox.senders[0].pc != F.Outside <==> written)
  }

  ghost predicate ServerOk(v: ServerState) {
    Sound(v.inbox) && (v.inbox.receiver.pc != F.ReadSender ==> v.pc == Listening)
  }

  ghost predicate PlaceOk<T>(s: State<T>, i: nat)
    requires i < |s.clients| == |s.server.inbox.senders|
  {
    ClientOk(s.clients[i], s.server.inbox.senders[i], s.server.id, WritingTo(s.server, s.clients[i].id))
  }

  ghost predicate Inv<T>(s: State<T>) {
    && DistinctIds(s.clients) && ServerOk(s.server) && |s.server.inbox.senders| == |s.clients|
    && (s.server.pc == Writing ==> Find(s.clients, s.server.sender) < |s.clients|)
    && forall i: nat | i < |s.clients| :: PlaceOk(s, i)
  }

  lemma SameIdsSameFind(a: seq<ClientState>, b: seq<ClientState>, id: U16)
    requires |a| == |b| && forall i | 0 <= i < |a| :: a[i].id == b[i].id
    ensures Find(a, id) < |a| ==> Find(b, id) < |b|
  {
  }

  lemma FreshPlace(c: ClientState, sender: F.SenderState, server: U16)
    requires c.pc == Idle && sender.id == c.id && sender.pc == F.Outside && Fresh(c.inbox)
    requires |c.inbox.senders| == 1 && c.inbox.senders[0].id == server
    ensures ClientOk(c, sender, server, false)
  {
    FreshIsSound(c.inbox);
  }

  lemma FreshView(c: ClientState)
    requires c.pc == Idle && Fresh(c.inbox)
    ensures var v := ViewClient(c);
      v.id == c.id && v.pc == M.Idle && v.inbox == [] && v.received == [] && v.history == []
  {
    FreshIsSound(c.inbox);
  }

  lemma InitialInv<T>(s0: State<T>)
    requires Initial(s0)
    ensures Inv(s0)
  {
    FreshIsSound(s0.server.inbox);
    forall i: nat | i < |s0.clients|
      ensures PlaceOk(s0, i)
    {
      FreshPlace(s0.clients[i], s0.server.inbox.senders[i], s0.server.id);
    }
  }

  lemma InitialView<T>(s0: State<T>)
    requires Initial(s0)
    ensures M.Initial(View(s0))
  {
    FreshIsSound(s0.server.inbox);
    forall i: nat | i < |s0.clients|
      ensures var v := View(s0).clients[i];
        && v.id == s0.clients[i].id && v.pc == M.Idle
        && v.inbox == [] && v.received == [] && v.history == []
    {
      FreshView(s0.clients[i]);
    }
  }

  lemma InitialRefines<T>(s0: State<T>)
    requires Initial(s0)
    ensures Inv(s0) && M.Initial(View(s0))
  {
    InitialInv(s0);
    InitialView(s0);
  }

  lemma SendView<T>(s: State<T>, i: nat)
    requires Enabled(s, M.Client(i)) && s.clients[i].pc == Idle
    requires Sound(s.server.inbox) && s.server.inbox.senders[i].id == s.clients[i].id
    ensures M.Enabled(View(s), M.Client(i)) && View(ClientStep(s, i)) == M.ClientStep(View(s), i)
  {
    AcquirePosts(s.server.inbox, i, s.clients[i].todo[0]);
    assert ViewClients(ClientStep(s, i).clients) == M.ClientStep(View(s), i).clients;
  }

  lemma WriteView<T>(s: State<T>, i: nat)
    requires Enabled(s, M.Client(i)) && s.clients[i].pc == Sending
    ensures View(ClientStep(s, i)) == View(s)
  {
    WriteSenders(s.server.inbox, i);
    assert ViewClients(ClientStep(s, i).clients) == ViewClients(s.clients);
  }

  lemma HeaderView<T>(s: State<T>, i: nat)
    requires Enabled(s, M.Client(i)) && s.clients[i].pc == Awaiting && Sound(s.clients[i].inbox)
    requires s.clients[i].inbox.receiver.pc != F.ReadContent
    ensures View(ClientStep(s, i)) == View(s)
  {
    HeaderKeepsPending(s.clients[i].inbox);
    assert ViewClients(ClientStep(s, i).clients) == ViewClients(s.clients);
  }

  lemma ContentViewClient(c: ClientState)
    requires c.pc == Awaiting && Sound(c.inbox) && F.Enabled(c.inbox, F.Receiver)
    requires c.inbox.receiver.pc == F.ReadContent
    ensures var v := ViewClient(c);
      && v.inbox != []
      && ViewClient(c.(pc := Idle, inbox := F.ReceiverStep(c.inbox)))
         == v.(pc := M.Idle, inbox := v.inbox[1..], received := v.received + [v.inbox[0]],
               history := v.history + [TakenOut(v.inbox[0])])
  {
    ContentTakes(c.inbox);
  }

  lemma ContentView<T>(s: State<T>, i: nat)
    requires Enabled(s, M.Client(i)) && s.clients[i].pc == Awaiting && Sound(s.clients[i].inbox)
    requires s.clients[i].inbox.receiver.pc == F.ReadContent
    ensures M.Enabled(View(s), M.Client(i)) && View(ClientStep(s, i)) == M.ClientStep(View(s), i)
  {
    ContentViewClient(s.clients[i]);
    assert M.Ready(Queue, LIMIT, View(s).clients[i].inbox);
    assert ViewClients(ClientStep(s, i).clients) == M.ClientStep(View(s), i).clients;
  }

  lemma ListenView<T>(serve: Service<T>, s: State<T>)
    requires Enabled(s, M.Server) && s.server.pc == Listening && Sound(s.server.inbox)
    ensures if s.server.inbox.receiver.pc != F.ReadContent then View(ServerStep(serve, s)) == View(s)
      else M.Enabled(View(s), M.Server) && View(ServerStep(serve, s)) == M.ServerStep(serve, View(s))
  {
    var box := s.server.inbox;
    if box.receiver.pc != F.ReadContent { HeaderKeepsPending(box); } else { ContentTakes(box); }
  }

  lemma ReplyViewClient(c: ClientState, server: U16, content: Content)
    requires Sound(c.inbox) && CanAcquire(c.inbox, 0) && c.inbox.senders[0].id == server
    ensures var v, m := ViewClient(c), Letter(server, content);
      ViewClient(c.(inbox := Acquire(c.inbox, 0, content)))
        == v.(inbox := v.inbox + [m], history := v.history + [Posted(m)])
  {
    AcquirePosts(c.inbox, 0, content);
  }

  lemma ReplyView<T>(serve: Service<T>, s: State<T>)
    requires Enabled(s, M.Server) && s.server.pc == Replying && DistinctIds(s.clients)
    requires Sound(s.clients[Find(s.clients, s.server.sender)].inbox)
    requires s.clients[Find(s.clients, s.server.sender)].inbox.senders[0].id == s.server.id
    ensures View(ServerStep(serve, s)) == M.ServerStep(serve, View(s))
  {
    var t, k := ServerStep(serve, s), Find(s.clients, s.server.sender);
    ReplyViewClient(s.clients[k], s.server.id, s.server.response);
    forall j | 0 <= j < |s.clients|
      ensures ViewClient(t.clients[j]) == M.ServerStep(serve, View(s)).clients[j]
    {
      assert j != k ==> s.clients[j].id != s.clients[k].id;
    }
    assert ViewClients(t.clients) == M.ServerStep(serve, View(s)).clients;
  }

  lemma WritingView<T>(serve: Service<T>, s: State<T>)
    requires Enabled(s, M.Server) && s.server.pc == Writing
    ensures View(ServerStep(serve, s)) == View(s)
  {
    var k := Find(s.clients, s.server.sender);
    WriteSenders(s.clients[k].inbox, 0);
    assert ViewClients(ServerStep(serve, s).clients) == ViewClients(s.clients);
  }

  // What the steps keep

  lemma SendKeepsPlace(c: ClientState, a: F.SenderState, b: F.SenderState, server: U16, written: bool)
    requires ClientOk(c, a, server, written) && a.id == b.id && c.pc == Idle && b.pc != F.Outside && c.todo != []
    ensures ClientOk(c.(pc := Sending, todo := c.todo[1..]), b, server, written)
  {
  }

  lemma WriteKeepsPlace(c: ClientState, a: F.SenderState, b: F.SenderState, server: U16, written: bool)
    requires ClientOk(c, a, server, written) && a.id == b.id && c.pc == Sending
    ensures ClientOk(c.(pc := if b.pc == F.Outside then Awaiting else Sending), b, server, written)
  {
  }

  lemma ReadKeepsPlace(c: ClientState, sender: F.SenderState, server: U16, written: bool)
    requires ClientOk(c, sender, server, written) && c.pc == Awaiting && F.Enabled(c.inbox, F.Receiver)
    ensures var pc := if c.inbox.receiver.pc == F.ReadContent then Idle else Awaiting;
      ClientOk(c.(pc := pc, inbox := F.ReceiverStep(c.inbox)), sender, server, written)
  {
    if c.inbox.receiver.pc != F.ReadContent { HeaderKeepsPending(c.inbox); } else { ContentTakes(c.inbox); }
  }

  lemma ReplyKeepsPlace(c: ClientState, sender: F.SenderState, server: U16, content: Content)
    requires ClientOk(c, sender, server, false) && CanAcquire(c.inbox, 0)
    ensures ClientOk(c.(inbox := Acquire(c.inbox, 0, content)), sender, server, true)
  {
    AcquireKeeps(c.inbox, 0, content);
    AcquireSenders(c.inbox, 0, content);
  }

  lemma WritingKeepsPlace(c: ClientState, sender: F.SenderState, server: U16)
    requires ClientOk(c, sender, server, true)
    ensures var box := F.SenderStep(c.inbox, 0);
      |box.senders| == 1 && ClientOk(c.(inbox := box), sender, server, box.senders[0].pc != F.Outside)
  {
    WriteKeepsPending(c.inbox, 0);
    WriteSenders(c.inbox, 0);
  }

  lemma PlaceStays<T>(s: State<T>, t: State<T>, j: nat)
    requires j < |s.clients| == |s.server.inbox.senders| && PlaceOk(s, j)
    requires j < |t.clients| == |t.server.inbox.senders| && t.server.id == s.server.id
    requires t.clients[j] == s.clients[j] && t.server.inbox.senders[j] == s.server.inbox.senders[j]
    requires WritingTo(t.server, t.clients[j].id) <==> WritingTo(s.server, s.clients[j].id)
    ensures PlaceOk(t, j)
  {
  }

  /** A step that leaves everybody but process i in place keeps the invariant when it keeps i's and the server's. */
  lemma OthersStay<T>(s: State<T>, t: State<T>, i: nat)
    requires Inv(s) && ServerOk(t.server) && i < |s.clients| == |t.clients| == |t.server.inbox.senders|
    requires t.server.id == s.server.id && t.clients[i].id == s.clients[i].id
    requires forall j | 0 <= j < |s.clients| && j != i ::
      && t.clients[j] == s.clients[j] && t.server.inbox.senders[j] == s.server.inbox.senders[j]
      && (WritingTo(t.server, t.clients[j].id) <==> WritingTo(s.server, s.clients[j].id))
    requires t.server.pc == Writing ==> Find(s.clients, t.server.sender) < |s.clients|
    requires PlaceOk(t, i)
    ensures Inv(t)
  {
    SameIdsSameFind(s.clients, t.clients, t.server.sender);
    forall j: nat | j < |t.clients|
      ensures PlaceOk(t, j)
    {
      if j != i { PlaceStays(s, t, j); }
    }
  }

  lemma SendFrame<T>(s: State<T>, i: nat)
    requires Enabled(s, M.Client(i)) && s.clients[i].pc == Idle && |s.server.inbox.senders| == |s.clients|
    ensures var t, c, v := ClientStep(s, i), s.clients[i], s.server;
      && t.server == v.(inbox := Acquire(v.inbox, i, c.todo[0])) && |t.server.inbox.senders| == |s.clients|
      && t.clients == s.clients[i := c.(pc := Sending, todo := c.todo[1..])]
      && t.server.inbox.senders[i].pc != F.Outside && t.server.inbox.senders[i].id == v.inbox.senders[i].id
      && forall j | 0 <= j < |s.clients| && j != i :: t.server.inbox.senders[j] == v.inbox.senders[j]
  {
    AcquireSenders(s.server.inbox, i, s.clients[i].todo[0]);
  }

  lemma SendKeeps<T>(s: State<T>, i: nat)
    requires Inv(s) && Enabled(s, M.Client(i)) && s.clients[i].pc == Idle
    ensures Inv(ClientStep(s, i))
  {
    var t, v := ClientStep(s, i), s.server;
    AcquireKeeps(v.inbox, i, s.clients[i].todo[0]);
    SendFrame(s, i);
    assert PlaceOk(s, i);
    SendKeepsPlace(s.clients[i], v.inbox.senders[i], t.server.inbox.senders[i], v.id,
                   WritingTo(v, s.clients[i].id));
    assert PlaceOk(t, i);
    OthersStay(s, t, i);
  }

  lemma WriteKeeps<T>(s: State<T>, i: nat)
    requires Inv(s) && Enabled(s, M.Client(i)) && s.clients[i].pc == Sending
    ensures Inv(ClientStep(s, i))
  {
    var t, v := ClientStep(s, i), s.server;
    WriteKeepsPending(v.inbox, i);
    WriteSenders(v.inbox, i);
    assert PlaceOk(s, i);
    WriteKeepsPlace(s.clients[i], v.inbox.senders[i], t.server.inbox.senders[i], v.id,
                    WritingTo(v, s.clients[i].id));
    OthersStay(s, t, i);
  }

  lemma ReadKeeps<T>(s: State<T>, i: nat)
    requires Inv(s) && Enabled(s, M.Client(i)) && s.clients[i].pc == Awaiting
    ensures Inv(ClientStep(s, i))
  {
    var t, v := ClientStep(s, i), s.server;
    assert PlaceOk(s, i);
    ReadKeepsPlace(s.clients[i], v.inbox.senders[i], v.id, WritingTo(v, s.clients[i].id));
    OthersStay(s, t, i);
  }

  /** A step of the server on its own inbox. */
  lemma ListenKeeps<T>(serve: Service<T>, s: State<T>)
    requires Inv(s) && Enabled(s, M.Server) && (s.server.pc == Listening || s.server.pc == Dispatching)
    ensures Inv(ServerStep(serve, s))
  {
    var t, box := ServerStep(serve, s), s.server.inbox;
    if s.server.pc == Listening {
      if box.receiver.pc != F.ReadContent { HeaderKeepsPending(box); } else { ContentTakes(box); }
    }
    forall j: nat | j < |t.clients|
      ensures PlaceOk(t, j)
    {
      assert PlaceOk(s, j);
    }
  }

  lemma ReplyFrame<T>(serve: Service<T>, s: State<T>)
    requires Enabled(s, M.Server) && s.server.pc == Replying && DistinctIds(s.clients)
    ensures var t, k := ServerStep(serve, s), Find(s.clients, s.server.sender);
      && k < |s.clients| == |t.clients| && CanAcquire(s.clients[k].inbox, 0)
      && t.server == s.server.(pc := Writing)
      && t.clients[k] == s.clients[k].(inbox := Acquire(s.clients[k].inbox, 0, s.server.response))
      && WritingTo(t.server, s.clients[k].id)
      && forall j | 0 <= j < |s.clients| && j != k ::
        t.clients[j] == s.clients[j] && !WritingTo(t.server, s.clients[j].id)
  {
  }

  lemma ReplyKeeps<T>(serve: Service<T>, s: State<T>)
    requires Inv(s) && Enabled(s, M.Server) && s.server.pc == Replying
    ensures Inv(ServerStep(serve, s))
  {
    var t, v, k := ServerStep(serve, s), s.server, Find(s.clients, s.server.sender);
    ReplyFrame(serve, s);
    assert PlaceOk(s, k);
    ReplyKeepsPlace(s.clients[k], v.inbox.senders[k], v.id, v.response);
    assert PlaceOk(t, k);
    OthersStay(s, t, k);
  }

  lemma WritingKeeps<T>(serve: Service<T>, s: State<T>)
    requires Inv(s) && Enabled(s, M.Server) && s.server.pc == Writing
    ensures Inv(ServerStep(serve, s))
  {
    var t, v, k := ServerStep(serve, s), s.server, Find(s.clients, s.server.sender);
    assert PlaceOk(s, k);
    WritingKeepsPlace(s.clients[k], v.inbox.senders[k], v.id);
    OthersStay(s, t, k);
  }

  lemma StepKeeps<T>(serve: Service<T>, s: State<T>, a: M.Actor)
    requires Inv(s) && Enabled(s, a)
    ensures Inv(Step(serve, s, a))
  {
    match a
    case Server =>
      match s.server.pc {
        case Replying => ReplyKeeps(serve, s);
        case Writing => WritingKeeps(serve, s);
        case _ => ListenKeeps(serve, s);
      }
    case Client(i) =>
      match s.clients[i].pc {
        case Idle => SendKeeps(s, i);
        case Sending => WriteKeeps(s, i);
        case Awaiting => ReadKeeps(s, i);
      }
  }

  lemma ServerStepRefines<T>(serve: Service<T>, s: State<T>)
    requires Inv(s) && Enabled(s, M.Server)
    ensures View(ServerStep(serve, s)) == View(s)
      || (M.Enabled(View(s), M.Server) && View(ServerStep(serve, s)) == M.ServerStep(serve, View(s)))
  {
    match s.server.pc {
      case Listening => ListenView(serve, s);
      case Dispatching =>
      case Replying =>
        var k := Find(s.clients, s.server.sender);
        assert PlaceOk(s, k);
        ReplyView(serve, s);
      case Writing => WritingView(serve, s);
    }
  }

  lemma ClientStepRefines<T>(s: State<T>, i: nat)
    requires Inv(s) && Enabled(s, M.Client(i))
    ensures View(ClientStep(s, i)) == View(s)
      || (M.Enabled(View(s), M.Client(i)) && View(ClientStep(s, i)) == M.ClientStep(View(s), i))
  {
    assert PlaceOk(s, i);
    match s.clients[i].pc {
      case Idle => SendView(s, i);
      case Sending => WriteView(s, i);
      case Awaiting =>
        if s.clients[i].inbox.receiver.pc != F.ReadContent { HeaderView(s, i); } else { ContentView(s, i); }
    }
  }

  /** Every step on the pipes is a step on the mailboxes by the same process, or does not show there. */
  lemma StepRefines<T>(serve: Service<T>, s: State<T>, a: M.Actor)
    requires Inv(s) && Enabled(s, a)
    ensures View(Step(serve, s, a)) == View(s)
      || (M.Enabled(View(s), a) && View(Step(serve, s, a)) == M.Step(serve, View(s), a))
  {
    match a
    case Server => ServerStepRefines(serve, s);
    case Client(i) => ClientStepRefines(s, i);
  }

  /** Every run on the pipes, byte for byte, is a run on one mailbox per process. */
  lemma {:induction false} AfterRefines<T>(serve: Service<T>, s0: State<T>, schedule: seq<M.Actor>)
    returns (r: seq<M.Actor>)
    requires Initial(s0)
    ensures View(After(serve, s0, schedule)) == M.After(serve, View(s0), r)
    ensures Inv(After(serve, s0, schedule)) && M.Initial(View(s0))
  {
    InitialRefines(s0);
    if schedule == [] {
      r := [];
    } else {
      var before, a := schedule[..|schedule| - 1], schedule[|schedule| - 1];
      var mid := After(serve, s0, before);
      r := AfterRefines(serve, s0, before);
      if Enabled(mid, a) {
        StepKeeps(serve, mid, a);
        StepRefines(serve, mid, a);
        if View(Step(serve, mid, a)) != View(mid) {
          assert (r + [a])[..|r|] == r;
          r := r + [a];
        }
      }
    }
  }

  function Received(c: ClientState): seq<Message> {
    c.inbox.receiver.received
  }

  /** Over pipes, in every interleaving of every write and read: what each client has received is a prefix of what a
      sequential run in the server's order of taking requests sends it, all of it but at most one message; its requests
      enter that run in its own order; and the server's state is the run's. */
  lemma {:induction false} Linearizability<T>(serve: Service<T>, s0: State<T>, schedule: seq<M.Actor>)
    requires Initial(s0)
    ensures var s := After(serve, s0, schedule);
      var l := S.Replay(serve, s0.server.id, s0.state, M.Dispatched(View(s)));
      && |s.clients| == |s0.clients| && s.state == l.state
      && forall i | 0 <= i < |s.clients| ::
        var replies := S.RepliesTo(s0.clients[i].id, l.replies);
        && S.SentBy(s0.clients[i].id, s.taken) <= s0.clients[i].todo
        && Received(s.clients[i]) <= replies && |replies| <= |Received(s.clients[i])| + 1
  {
    var s := After(serve, s0, schedule);
    var r := AfterRefines(serve, s0, schedule);
    M.Linearizability(serve, View(s0), r);
    forall i: nat | i < |s.clients|
      ensures View(s).clients[i].received == Received(s.clients[i])
    {
      assert PlaceOk(s, i);
    }
  }

  // Progress

  ghost predicate Blocked<T>(s: State<T>) {
    forall a :: !Enabled(s, a)
  }

  predicate Finished(c: ClientState) {
    c.pc == Idle && c.todo == []
  }

  lemma NotSending<T>(s: State<T>, i: nat)
    requires Inv(s) && i < |s.clients| && !Enabled(s, M.Client(i))
    ensures s.clients[i].pc != Sending && s.server.inbox.senders[i].pc == F.Outside
  {
    assert PlaceOk(s, i);
  }

  lemma NotWriting<T>(s: State<T>)
    requires Inv(s) && !Enabled(s, M.Server)
    ensures s.server.pc != Writing && s.server.pc != Dispatching
  {
    var k := Find(s.clients, s.server.sender);
    if k < |s.clients| { assert PlaceOk(s, k); }
  }

  /** When nothing moves on the pipes, no client is sending. */
  lemma BlockedIsQuiet<T>(s: State<T>)
    requires Inv(s) && Blocked(s)
    ensures forall i | 0 <= i < |s.clients| ::
      s.clients[i].pc != Sending && s.server.inbox.senders[i].pc == F.Outside
    ensures s.server.pc != Writing && s.server.pc != Dispatching && s.server.inbox.lock > 0
  {
    forall i: nat | i < |s.clients|
      ensures s.clients[i].pc != Sending && s.server.inbox.senders[i].pc == F.Outside
    {
      assert !Enabled(s, M.Client(i));
      NotSending(s, i);
    }
    assert !Enabled(s, M.Server);
    NotWriting(s);
  }

  /** An inbox that the server is not writing to: it can be written to, and read if anything is pending. */
  lemma QuietPlace(c: ClientState, sender: F.SenderState, server: U16)
    requires ClientOk(c, sender, server, false)
    ensures CanAcquire(c.inbox, 0)
    ensures F.Enabled(c.inbox, F.Receiver) || Pend(c.inbox) == []
  {
    if Pend(c.inbox) != [] { QuietIsReadable(c.inbox); }
  }

  lemma BlockedPlace(c: ClientState, sender: F.SenderState, server: U16)
    requires ClientOk(c, sender, server, false)
    requires if c.pc == Idle then c.todo == [] else !F.Enabled(c.inbox, F.Receiver)
    ensures CanAcquire(c.inbox, 0)
    ensures if c.pc == Idle then ViewClient(c).todo == [] else ViewClient(c).inbox == []
  {
    QuietPlace(c, sender, server);
  }

  lemma BlockedClient<T>(s: State<T>, i: nat)
    requires Inv(s) && Blocked(s) && i < |s.clients|
    ensures !M.Enabled(View(s), M.Client(i)) && CanAcquire(s.clients[i].inbox, 0)
  {
    BlockedIsQuiet(s);
    assert PlaceOk(s, i) && !Enabled(s, M.Client(i));
    assert CanAcquire(s.server.inbox, i);
    BlockedPlace(s.clients[i], s.server.inbox.senders[i], s.server.id);
  }

  /** Nothing moves on the pipes only when nothing moves on the mailboxes. */
  lemma BlockedRefines<T>(s: State<T>)
    requires Inv(s) && M.Proper(View(s)) && Blocked(s)
    ensures M.Blocked(View(s))
  {
    BlockedIsQuiet(s);
    assert !Enabled(s, M.Server);
    if s.server.pc == Replying {
      assert M.IsClient(View(s).clients, s.server.sender);
      var i: nat :| i < |View(s).clients| && View(s).clients[i].id == s.server.sender;
      assert s.clients[i].id == s.server.sender;
      BlockedClient(s, Find(s.clients, s.server.sender));
    } else if Pend(s.server.inbox) != [] {
      QuietIsReadable(s.server.inbox);
    }
    forall a
      ensures !M.Enabled(View(s), a)
    {
      match a
      case Server =>
      case Client(i) => if i < |s.clients| { BlockedClient(s, i); }
    }
  }

  // Every run ends

  function InboxWork(clients: seq<ClientState>): int {
    if clients == [] then 0
    else InboxWork(clients[..|clients| - 1]) + BoxWork(clients[|clients| - 1].inbox)
  }

  /** Bytes still to move through one inbox. */
  function BoxWork(box: F.State): int {
    if Replay(Queue, box.history).Pending? then F.Work(box) else 0
  }

  function Work<T>(s: State<T>): int {
    8 * M.Work(View(s)) + BoxWork(s.server.inbox) + InboxWork(s.clients)
  }

  lemma {:induction false} InboxUpdate(clients: seq<ClientState>, i: nat, c: ClientState)
    requires i < |clients|
    ensures InboxWork(clients[i := c]) == InboxWork(clients) - BoxWork(clients[i].inbox) + BoxWork(c.inbox)
  {
    var n := |clients| - 1;
    if i == n {
      assert clients[i := c][..n] == clients[..n];
    } else {
      assert clients[i := c][..n] == clients[..n][i := c];
      InboxUpdate(clients[..n], i, c);
    }
  }

  lemma {:induction false} InboxWorkIsLeft(clients: seq<ClientState>)
    requires forall i | 0 <= i < |clients| :: Sound(clients[i].inbox)
    ensures InboxWork(clients) >= 0
  {
    if clients == [] {
    } else {
      InboxWorkIsLeft(clients[..|clients| - 1]);
      F.WorkIsLeft(clients[|clients| - 1].inbox);
    }
  }

  lemma WorkIsLeft<T>(s: State<T>)
    requires Inv(s)
    ensures Work(s) >= 0
  {
    F.WorkIsLeft(s.server.inbox);
    forall i | 0 <= i < |s.clients|
      ensures Sound(s.clients[i].inbox)
    {
      assert PlaceOk(s, i);
    }
    InboxWorkIsLeft(s.clients);
  }

  /** What a step does to the bytes still to move: a message to post adds seven steps, any other step on an inbox is
      one step less, and a dispatch moves no bytes. */
  lemma ClientStepBytes<T>(s: State<T>, i: nat)
    requires Inv(s) && Enabled(s, M.Client(i))
    ensures var t := ClientStep(s, i);
      BoxWork(t.server.inbox) + InboxWork(t.clients)
        == BoxWork(s.server.inbox) + InboxWork(s.clients) + if s.clients[i].pc == Idle then 7 else -1
  {
    assert PlaceOk(s, i);
    InboxUpdate(s.clients, i, ClientStep(s, i).clients[i]);
    match s.clients[i].pc
    case Idle => AcquireKeeps(s.server.inbox, i, s.clients[i].todo[0]);
    case Sending => WriteKeepsPending(s.server.inbox, i);
    case Awaiting => ReadWork(s.clients[i].inbox);
  }

  lemma ReadWork(box: F.State)
    requires Sound(box) && F.Enabled(box, F.Receiver)
    ensures Sound(F.ReceiverStep(box)) && F.Work(F.ReceiverStep(box)) == F.Work(box) - 1
  {
    if box.receiver.pc != F.ReadContent { HeaderKeepsPending(box); } else { ContentTakes(box); }
  }

  lemma ServerStepBytes<T>(serve: Service<T>, s: State<T>)
    requires Inv(s) && Enabled(s, M.Server)
    ensures var t := ServerStep(serve, s);
      BoxWork(t.server.inbox) + InboxWork(t.clients) == BoxWork(s.server.inbox) + InboxWork(s.clients)
        + if s.server.pc == Dispatching then 0 else if s.server.pc == Replying then 7 else -1
  {
    var k := Find(s.clients, s.server.sender);
    match s.server.pc
    case Listening => ReadWork(s.server.inbox);
    case Dispatching =>
    case Replying =>
      assert PlaceOk(s, k);
      InboxUpdate(s.clients, k, ServerStep(serve, s).clients[k]);
      AcquireKeeps(s.clients[k].inbox, 0, s.server.response);
    case Writing =>
      assert PlaceOk(s, k);
      InboxUpdate(s.clients, k, ServerStep(serve, s).clients[k]);
      WriteKeepsPending(s.clients[k].inbox, 0);
  }

  /** A step that posts or dispatches is one of the mailboxes. */
  lemma PostingShows<T>(serve: Service<T>, s: State<T>, a: M.Actor)
    requires Inv(s) && Enabled(s, a)
    requires match a
      case Server => s.server.pc == Dispatching || s.server.pc == Replying
      case Client(i) => s.clients[i].pc == Idle
    ensures M.Enabled(View(s), a) && View(Step(serve, s, a)) == M.Step(serve, View(s), a)
  {
    match a
    case Server =>
      if s.server.pc == Replying {
        assert PlaceOk(s, Find(s.clients, s.server.sender));
        ReplyView(serve, s);
      }
    case Client(i) =>
      assert PlaceOk(s, i);
      SendView(s, i);
  }

  lemma StepWorks<T>(serve: Service<T>, s: State<T>, a: M.Actor)
    requires Inv(s) && Enabled(s, a)
    ensures Work(Step(serve, s, a)) < Work(s)
  {
    var posting := match a
      case Server => s.server.pc == Dispatching || s.server.pc == Replying
      case Client(i) => s.clients[i].pc == Idle;
    if posting { PostingShows(serve, s, a); } else { StepRefines(serve, s, a); }
    if M.Enabled(View(s), a) { M.StepWorks(serve, View(s), a); }
    match a
    case Server => ServerStepBytes(serve, s);
    case Client(i) => ClientStepBytes(s, i);
  }

  /** Every run can be continued to a state where nothing moves. */
  lemma RunsEnd<T>(serve: Service<T>, s0: State<T>, schedule: seq<M.Actor>) returns (full: seq<M.Actor>)
    requires Initial(s0)
    ensures |full| >= |schedule| && full[..|schedule|] == schedule && Blocked(After(serve, s0, full))
    decreases Work(After(serve, s0, schedule))
  {
    var s := After(serve, s0, schedule);
    if Blocked(s) {
      full := schedule;
    } else {
      var a :| Enabled(s, a);
      var r := AfterRefines(serve, s0, schedule);
      WorkIsLeft(s);
      StepWorks(serve, s, a);
      assert (schedule + [a])[..|schedule|] == schedule;
      full := RunsEnd(serve, s0, schedule + [a]);
    }
  }
}
