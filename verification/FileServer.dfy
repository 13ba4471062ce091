/**
 * The server and its clients on inbox files. A send appends in one step; a receive samples the size, reads the header,
 * reads the content and truncates, each a step of its own, so that a send can land between them. While none does, this
 * refines one stack per process.
 */
module FileServer {
  import opened Messages
  import opened Mailbox
  import FI = FileInbox
  import M = MailboxServer
  import S = Service

  type Service<!T> = S.Service<T>

  /** No content of a `uint16_t` length is too long for a file. */
  const LIMIT := 0xFFFF

  datatype ReadPc = Sample | GetHeader | GetContent | Cut

  /** Where a process stands in `ipc_recv`, with its locals. */
  datatype Reader = Reader(pc: ReadPc, size: nat, sender: U16, length: U16, content: Content)

  datatype ClientState = ClientState(
    id: U16, pc: M.ClientPc, todo: seq<Content>, inbox: Bytes, reader: Reader, received: seq<Message>,
    history: seq<Event>)

  /** `sender` and `request` are those of the message taken last. */
  datatype ServerState = ServerState(
    id: U16, pc: M.ServerPc, inbox: Bytes, reader: Reader, sender: U16, request: Content, response: Content,
    history: seq<Event>)

  /** `taken` and the histories are for the theorems only. */
  datatype State<T> = State(clients: seq<ClientState>, server: ServerState, state: T, taken: seq<S.Admission>)

  /** `pause` lasts while the file is empty. A file too short for what is to be read is a state that this model does
      not go on from. */
  predicate CanRead(file: Bytes, r: Reader) {
    match r.pc
    case Sample => file != []
    case GetHeader => |file| >= FI.HEADER
    case GetContent => |file| >= FI.HEADER + r.length
    case Cut => true
  }

  function ReadStep(file: Bytes, r: Reader): Reader
    requires CanRead(file, r)
  {
    match r.pc
    case Sample => r.(pc := GetHeader, size := |file|)
    case GetHeader =>
      var h := FI.ReadHeader(file);
      r.(pc := GetContent, sender := h.sender, length := h.length)
    case GetContent => r.(pc := Cut, content := FI.ReadContent(file, r.length))
    case Cut => r.(pc := Sample)
  }

  function FileStep(file: Bytes, r: Reader): Bytes {
    if r.pc == Cut then FI.Truncate(file, r.size - FI.HEADER - r.length) else file
  }

  /** The message that a receive returns. */
  function Gotten(r: Reader): Message {
    Message(r.sender, r.length, r.content)
  }

  predicate Enabled<T>(s: State<T>, a: M.Actor) {
    match a
    case Server => s.server.pc == M.Listening ==> CanRead(s.server.inbox, s.server.reader)
    case Client(i) =>
      && i < |s.clients|
      && (if s.clients[i].pc == M.Idle then s.clients[i].todo != []
          else CanRead(s.clients[i].inbox, s.clients[i].reader))
  }

  function Step<T>(serve: Service<T>, s: State<T>, a: M.Actor): State<T>
    requires Enabled(s, a)
  {
    match a
    case Server => ServerStep(serve, s)
    case Client(i) => ClientStep(s, i)
  }

  function ClientStep<T>(s: State<T>, i: nat): State<T>
    requires Enabled(s, M.Client(i))
  {
    var c, v := s.clients[i], s.server;
    match c.pc
    case Idle =>
      var m := Letter(c.id, c.todo[0]);
      s.(clients := s.clients[i := c.(pc := M.Awaiting, todo := c.todo[1..])],
         server := v.(inbox := v.inbox + FI.Frame(m), history := v.history + [Posted(m)]))
    case Awaiting =>
      var d := c.(inbox := FileStep(c.inbox, c.reader), reader := ReadStep(c.inbox, c.reader));
      if c.reader.pc != Cut then s.(clients := s.clients[i := d])
      else
        var m := Gotten(c.reader);
        s.(clients := s.clients[i := d.(pc := M.Idle, received := c.received + [m],
                                        history := c.history + [TakenOut(m)])])
  }

  /** Whoever has this identifier finds the frame at the end of its file. */
  function Deliver(clients: seq<ClientState>, id: U16, m: Message): seq<ClientState> {
    seq(|clients|, i requires 0 <= i < |clients| =>
      if clients[i].id != id then clients[i]
      else clients[i].(inbox := clients[i].inbox + FI.Frame(m), history := clients[i].history + [Posted(m)]))
  }

  function ServerStep<T>(serve: Service<T>, s: State<T>): State<T>
    requires Enabled(s, M.Server)
  {
    var v := s.server;
    var r := v.reader;
    match v.pc
    case Listening =>
      var w := v.(inbox := FileStep(v.inbox, r), reader := ReadStep(v.inbox, r));
      if r.pc != Cut then s.(server := w)
      else
        s.(server := w.(pc := M.Dispatching, sender := r.sender, request := r.content,
                        history := v.history + [TakenOut(Gotten(r))]),
           taken := s.taken + [S.Admission(r.sender, r.content)])
    case Dispatching =>
      var served := serve(s.state, v.request);
      if served.Silence? then s.(server := v.(pc := M.Listening))
      else s.(state := served.state, server := v.(pc := M.Replying, response := served.content))
    case Replying =>
      s.(clients := Deliver(s.clients, v.sender, Letter(v.id, v.response)), server := v.(pc := M.Listening))
  }

  function After<T>(serve: Service<T>, s: State<T>, schedule: seq<M.Actor>): State<T> {
    if schedule == [] then s
    else
      var mid := After(serve, s, schedule[..|schedule| - 1]);
      var a := schedule[|schedule| - 1];
      if Enabled(mid, a) then Step(serve, mid, a) else mid
  }

  lemma Go<T>(serve: Service<T>, s0: State<T>, schedule: seq<M.Actor>, a: M.Actor)
    requires Enabled(After(serve, s0, schedule), a)
    ensures After(serve, s0, schedule + [a]) == Step(serve, After(serve, s0, schedule), a)
  {
    assert (schedule + [a])[..|schedule|] == schedule;
  }

  predicate Empty(file: Bytes, r: Reader) {
    file == [] && r.pc == Sample
  }

  ghost predicate DistinctIds(clients: seq<ClientState>) {
    forall i, j | 0 <= i < |clients| && 0 <= j < |clients| && i != j :: clients[i].id != clients[j].id
  }

  /** The server is at the head of its loop with nothing in its file. */
  predicate AtRest<T>(s: State<T>) {
    s.server.pc == M.Listening && Empty(s.server.inbox, s.server.reader)
  }

  ghost predicate Initial<T>(s: State<T>) {
    && AtRest(s) && s.server.history == [] && s.taken == [] && DistinctIds(s.clients)
    && forall i | 0 <= i < |s.clients| ::
      && s.clients[i].pc == M.Idle && s.clients[i].received == [] && s.clients[i].history == []
      && Empty(s.clients[i].inbox, s.clients[i].reader)
  }

  ghost predicate Blocked<T>(s: State<T>) {
    forall a :: !Enabled(s, a)
  }

  predicate Finished(c: ClientState) {
    c.pc == M.Idle && c.todo == []
  }

  /** A send into the server's file while a receive is between its size sample and its truncation. */
  predicate Lands<T>(s: State<T>, a: M.Actor) {
    a.Client? && Enabled(s, a) && s.clients[a.index].pc == M.Idle && s.server.reader.pc != Sample
  }

  /** No send ever lands in the middle of a receive of the server. */
  ghost predicate Undisturbed<T>(serve: Service<T>, s0: State<T>, schedule: seq<M.Actor>) {
    forall n | 0 <= n < |schedule| :: !Lands(After(serve, s0, schedule[..n]), schedule[n])
  }

  lemma UndisturbedSnoc<T>(serve: Service<T>, s0: State<T>, schedule: seq<M.Actor>, a: M.Actor)
    ensures Undisturbed(serve, s0, schedule + [a])
      <==> Undisturbed(serve, s0, schedule) && !Lands(After(serve, s0, schedule), a)
  {
    var longer := schedule + [a];
    assert longer[..|schedule|] == schedule;
    forall n | 0 <= n < |schedule|
      ensures longer[n] == schedule[n] && longer[..n] == schedule[..n]
    {
    }
    if Undisturbed(serve, s0, longer) { assert !Lands(After(serve, s0, longer[..|schedule|]), longer[|schedule|]); }
  }

  // One file

  /** What the reader has of the message that it is taking. */
  predicate HasRead(r: Reader, m: Message) {
    && (r.pc == GetContent || r.pc == Cut ==> r.sender == m.sender && r.length == m.length)
    && (r.pc == Cut ==> r.content == m.content)
  }

  /** The file is the frames of `box`, and a receive under way is at the newest of them. */
  predicate Holds(file: Bytes, r: Reader, box: seq<Message>) {
    && M.AllMail(box) && file == FI.Frames(box)
    && (r.pc != Sample ==> box != [] && r.size == |file| && HasRead(r, box[|box| - 1]))
  }

  lemma HoldsReads(file: Bytes, r: Reader, box: seq<Message>)
    requires Holds(file, r, box)
    ensures CanRead(file, r) <==> box != []
  {
    FI.NoFramesNoBytes(box);
    if box != [] { FI.NewestFrame(box); }
  }

  lemma HoldsGoesOn(file: Bytes, r: Reader, box: seq<Message>)
    requires Holds(file, r, box) && CanRead(file, r)
    ensures r.pc != Cut ==> FileStep(file, r) == file && Holds(file, ReadStep(file, r), box)
    ensures r.pc == Cut ==>
      && box != [] && Gotten(r) == box[|box| - 1]
      && Holds(FileStep(file, r), ReadStep(file, r), box[..|box| - 1])
  {
    HoldsReads(file, r, box);
    FI.NewestFrame(box);
  }

  lemma HoldsMore(file: Bytes, r: Reader, box: seq<Message>, m: Message)
    requires Holds(file, r, box) && r.pc == Sample && m.length == |m.content|
    ensures Holds(file + FI.Frame(m), r, box + [m])
  {
    FI.FramesSnoc(box, m);
  }

  /** The file holds what a stack leaves of the history. */
  ghost predicate IsStack(file: Bytes, r: Reader, history: seq<Event>) {
    var p := Replay(Stack, history);
    p.Pending? && Holds(file, r, p.messages)
  }

  lemma PendHolds(file: Bytes, r: Reader, history: seq<Event>)
    requires IsStack(file, r, history)
    ensures Holds(file, r, M.Pend(Stack, history)) && Replay(Stack, history) == Pending(M.Pend(Stack, history))
  {
  }

  lemma PostOnFile(file: Bytes, r: Reader, history: seq<Event>, m: M.Mail)
    requires IsStack(file, r, history) && r.pc == Sample
    ensures IsStack(file + FI.Frame(m), r, history + [Posted(m)])
    ensures M.Pend(Stack, history + [Posted(m)]) == M.Pend(Stack, history) + [m]
  {
    PendHolds(file, r, history);
    ReplaySnoc(Stack, history, Posted(m));
    HoldsMore(file, r, M.Pend(Stack, history), m);
  }

  lemma ReadOnFile(file: Bytes, r: Reader, history: seq<Event>)
    requires IsStack(file, r, history) && CanRead(file, r) && r.pc != Cut
    ensures FileStep(file, r) == file && IsStack(file, ReadStep(file, r), history)
  {
    HoldsGoesOn(file, r, Replay(Stack, history).messages);
  }

  lemma CutOnFile(file: Bytes, r: Reader, history: seq<Event>)
    requires IsStack(file, r, history) && r.pc == Cut
    ensures var box, m := M.Pend(Stack, history), Gotten(r);
      && box != [] && m == M.Choice(Stack, box)
      && IsStack(FileStep(file, r), ReadStep(file, r), history + [TakenOut(m)])
      && M.Pend(Stack, history + [TakenOut(m)]) == M.Rest(Stack, box)
  {
    PendHolds(file, r, history);
    HoldsGoesOn(file, r, M.Pend(Stack, history));
    ReplaySnoc(Stack, history, TakenOut(Gotten(r)));
  }

  // The refinement, while no send lands in a receive

  function ViewClient(c: ClientState): M.ClientState {
    M.ClientState(c.id, c.pc, c.todo, M.Pend(Stack, c.history), M.AsMail(c.received), c.history)
  }

  function ViewClients(clients: seq<ClientState>): seq<M.ClientState> {
    seq(|clients|, i requires 0 <= i < |clients| => ViewClient(clients[i]))
  }

  function ViewServer(v: ServerState): M.ServerState {
    M.ServerState(v.id, v.pc, M.Pend(Stack, v.history), v.sender, v.request, v.response, v.history)
  }

  function View<T>(s: State<T>): M.State<T> {
    M.State(Stack, LIMIT, ViewClients(s.clients), ViewServer(s.server), s.state, s.taken)
  }

  ghost predicate ClientOk(c: ClientState) {
    && IsStack(c.inbox, c.reader, c.history) && M.AllMail(c.received)
    && (c.reader.pc != Sample ==> c.pc == M.Awaiting)
  }

  ghost predicate ServerOk(v: ServerState) {
    IsStack(v.inbox, v.reader, v.history) && (v.reader.pc != Sample ==> v.pc == M.Listening)
  }

  /** Each file is a stack of messages. */
  ghost predicate FilesOk<T>(s: State<T>) {
    ServerOk(s.server) && forall i | 0 <= i < |s.clients| :: ClientOk(s.clients[i])
  }

  lemma InitialRefines<T>(s0: State<T>)
    requires Initial(s0)
    ensures M.Initial(View(s0)) && FilesOk(s0)
  {
  }

  lemma PostRefines<T>(s: State<T>, i: nat)
    requires FilesOk(s) && Enabled(s, M.Client(i)) && s.clients[i].pc == M.Idle && s.server.reader.pc == Sample
    ensures FilesOk(ClientStep(s, i))
    ensures M.Enabled(View(s), M.Client(i)) && View(ClientStep(s, i)) == M.ClientStep(View(s), i)
  {
    var t, c := ClientStep(s, i), s.clients[i];
    PostOnFile(s.server.inbox, s.server.reader, s.server.history, Letter(c.id, c.todo[0]));
    assert ClientOk(c);
    assert ViewClients(t.clients) == M.ClientStep(View(s), i).clients;
  }

  /** A step of a receive before the truncation does not show. */
  lemma ReadRefines<T>(s: State<T>, i: nat)
    requires FilesOk(s) && Enabled(s, M.Client(i)) && s.clients[i].pc == M.Awaiting && s.clients[i].reader.pc != Cut
    ensures FilesOk(ClientStep(s, i)) && View(ClientStep(s, i)) == View(s)
  {
    var t, c := ClientStep(s, i), s.clients[i];
    ReadOnFile(c.inbox, c.reader, c.history);
    assert ViewClients(t.clients) == View(s).clients;
  }

  lemma CutPlace(c: ClientState)
    requires ClientOk(c) && c.pc == M.Awaiting && c.reader.pc == Cut
    ensures var m := Gotten(c.reader);
      var d := c.(inbox := FileStep(c.inbox, c.reader), reader := ReadStep(c.inbox, c.reader), pc := M.Idle,
                  received := c.received + [m], history := c.history + [TakenOut(m)]);
      var v := ViewClient(c);
      && ClientOk(d) && v.inbox != [] && m == M.Choice(Stack, v.inbox)
      && ViewClient(d) == v.(pc := M.Idle, inbox := M.Rest(Stack, v.inbox), received := v.received + [m],
                             history := v.history + [TakenOut(m)])
  {
    CutOnFile(c.inbox, c.reader, c.history);
  }

  lemma TakeRefines<T>(s: State<T>, i: nat)
    requires FilesOk(s) && Enabled(s, M.Client(i)) && s.clients[i].pc == M.Awaiting && s.clients[i].reader.pc == Cut
    ensures FilesOk(ClientStep(s, i))
    ensures M.Enabled(View(s), M.Client(i)) && View(ClientStep(s, i)) == M.ClientStep(View(s), i)
  {
    CutPlace(s.clients[i]);
    assert ViewClients(ClientStep(s, i).clients) == M.ClientStep(View(s), i).clients;
  }

  lemma ListenRefines<T>(serve: Service<T>, s: State<T>)
    requires FilesOk(s) && Enabled(s, M.Server) && s.server.pc == M.Listening
    ensures FilesOk(ServerStep(serve, s))
    ensures if s.server.reader.pc != Cut then View(ServerStep(serve, s)) == View(s)
      else M.Enabled(View(s), M.Server) && View(ServerStep(serve, s)) == M.ServerStep(serve, View(s))
  {
    var v := s.server;
    if v.reader.pc != Cut {
      ReadOnFile(v.inbox, v.reader, v.history);
    } else {
      CutOnFile(v.inbox, v.reader, v.history);
    }
  }

  lemma DispatchRefines<T>(serve: Service<T>, s: State<T>)
    requires FilesOk(s) && s.server.pc == M.Dispatching
    ensures FilesOk(ServerStep(serve, s)) && View(ServerStep(serve, s)) == M.ServerStep(serve, View(s))
  {
  }

  /** Whoever the server replies to is not in the middle of a receive. */
  ghost predicate ReaderWaits<T>(s: State<T>) {
    s.server.pc == M.Replying ==>
      forall i | 0 <= i < |s.clients| && s.clients[i].id == s.server.sender :: s.clients[i].reader.pc == Sample
  }

  lemma DeliverPlace(c: ClientState, m: M.Mail)
    requires ClientOk(c) && c.reader.pc == Sample
    ensures var d, v := c.(inbox := c.inbox + FI.Frame(m), history := c.history + [Posted(m)]), ViewClient(c);
      ClientOk(d) && ViewClient(d) == v.(inbox := v.inbox + [m], history := v.history + [Posted(m)])
  {
    PostOnFile(c.inbox, c.reader, c.history, m);
  }

  lemma ReplyRefines<T>(serve: Service<T>, s: State<T>)
    requires FilesOk(s) && ReaderWaits(s) && s.server.pc == M.Replying
    ensures FilesOk(ServerStep(serve, s)) && View(ServerStep(serve, s)) == M.ServerStep(serve, View(s))
  {
    var t, m := ServerStep(serve, s), Letter(s.server.id, s.server.response);
    forall i | 0 <= i < |s.clients|
      ensures ClientOk(t.clients[i]) && ViewClient(t.clients[i]) == M.ServerStep(serve, View(s)).clients[i]
    {
      if s.clients[i].id == s.server.sender { DeliverPlace(s.clients[i], m); }
    }
    assert ViewClients(t.clients) == M.ServerStep(serve, View(s)).clients;
  }

  /** A step that does not land in a receive is a step on the stacks by the same process, or does not show there. */
  lemma StepRefines<T>(serve: Service<T>, s: State<T>, a: M.Actor)
    requires FilesOk(s) && ReaderWaits(s) && Enabled(s, a) && !Lands(s, a)
    ensures FilesOk(Step(serve, s, a))
    ensures View(Step(serve, s, a)) == View(s)
      || (M.Enabled(View(s), a) && View(Step(serve, s, a)) == M.Step(serve, View(s), a))
  {
    match a
    case Server =>
      match s.server.pc {
        case Listening => ListenRefines(serve, s);
        case Dispatching => DispatchRefines(serve, s);
        case Replying => ReplyRefines(serve, s);
      }
    case Client(i) =>
      if s.clients[i].pc == M.Idle {
        PostRefines(s, i);
      } else if s.clients[i].reader.pc != Cut {
        ReadRefines(s, i);
      } else {
        TakeRefines(s, i);
      }
  }

  /** A client has nothing in its file while the server works on its request. */
  lemma InvReaderWaits<T>(serve: Service<T>, s0: M.State<T>, s: State<T>)
    requires FilesOk(s) && M.Inv(serve, s0, View(s))
    ensures ReaderWaits(s)
  {
    var v := View(s);
    forall i | 0 <= i < |s.clients| && s.server.pc == M.Replying && s.clients[i].id == s.server.sender
      ensures s.clients[i].reader.pc == Sample
    {
      assert M.Served(s0.clients[i], v.clients[i], v.server, v.taken,
                      S.Replay(serve, s0.server.id, s0.state, M.Dispatched(v)).replies);
      assert ClientOk(s.clients[i]) && v.clients[i].inbox == [];
    }
  }

  /** Every run in which no send lands in a receive of the server is, byte for byte, a run on one stack per process;
      each file is the frames of its stack. */
  lemma {:induction false} AfterRefines<T>(serve: Service<T>, s0: State<T>, schedule: seq<M.Actor>)
    returns (r: seq<M.Actor>)
    requires Initial(s0) && Undisturbed(serve, s0, schedule)
    ensures View(After(serve, s0, schedule)) == M.After(serve, View(s0), r)
    ensures FilesOk(After(serve, s0, schedule)) && ReaderWaits(After(serve, s0, schedule)) && M.Initial(View(s0))
  {
    InitialRefines(s0);
    if schedule == [] {
      r := [];
    } else {
      var before, a := schedule[..|schedule| - 1], schedule[|schedule| - 1];
      var mid := After(serve, s0, before);
      assert schedule == before + [a];
      UndisturbedSnoc(serve, s0, before, a);
      r := AfterRefines(serve, s0, before);
      if Enabled(mid, a) {
        StepRefines(serve, mid, a);
        if View(Step(serve, mid, a)) != View(mid) {
          assert (r + [a])[..|r|] == r;
          r := r + [a];
        }
      }
      M.AfterInv(serve, View(s0), r);
      InvReaderWaits(serve, View(s0), After(serve, s0, schedule));
    }
  }

  /** In such a run each file holds the frames of what a stack leaves of what was posted to it and taken from it, and a
      receive under way is at the newest message; its owner has received what was taken; nothing is lost. */
  lemma FilesAreStacks<T>(serve: Service<T>, s0: State<T>, schedule: seq<M.Actor>)
    requires Initial(s0) && Undisturbed(serve, s0, schedule)
    ensures var s := After(serve, s0, schedule);
      && IsStack(s.server.inbox, s.server.reader, s.server.history)
      && M.Accounted(Stack, s.server.history, AllTaken(s.server.history), M.Pend(Stack, s.server.history))
      && forall i | 0 <= i < |s.clients| ::
        var c := s.clients[i];
        && IsStack(c.inbox, c.reader, c.history) && c.received == AllTaken(c.history)
        && M.Accounted(Stack, c.history, c.received, M.Pend(Stack, c.history))
  {
    var r := AfterRefines(serve, s0, schedule);
    M.InboxesKeepDiscipline(serve, View(s0), r);
    var s := After(serve, s0, schedule);
    forall i | 0 <= i < |s.clients|
      ensures ClientOk(s.clients[i]) && View(s).clients[i] == ViewClient(s.clients[i])
    {
    }
  }

  /** In such a run, with any number of clients: what each client has received is a prefix of what a sequential run in
      the server's order of taking requests sends it, all of it but at most one message; its requests enter that run in
      its own order; and the server's state is the run's. */
  lemma {:induction false} Linearizability<T>(serve: Service<T>, s0: State<T>, schedule: seq<M.Actor>)
    requires Initial(s0) && Undisturbed(serve, s0, schedule)
    ensures var s := After(serve, s0, schedule);
      var l := S.Replay(serve, s0.server.id, s0.state, M.Dispatched(View(s)));
      && |s.clients| == |s0.clients| && s.state == l.state
      && forall i | 0 <= i < |s.clients| ::
        var replies := S.RepliesTo(s0.clients[i].id, l.replies);
        && S.SentBy(s0.clients[i].id, s.taken) <= s0.clients[i].todo
        && s.clients[i].received <= replies && |replies| <= |s.clients[i].received| + 1
        && (s.clients[i].pc == M.Idle ==> s.clients[i].received == replies)
  {
    var r := AfterRefines(serve, s0, schedule);
    M.Linearizability(serve, View(s0), r);
    var s := After(serve, s0, schedule);
    forall i | 0 <= i < |s.clients|
      ensures View(s).clients[i].received == s.clients[i].received && View(s).clients[i].pc == s.clients[i].pc
    {
      assert ClientOk(s.clients[i]);
    }
  }

  lemma ReadableIff(file: Bytes, r: Reader, history: seq<Event>)
    requires IsStack(file, r, history)
    ensures CanRead(file, r) <==> M.Ready(Stack, LIMIT, M.Pend(Stack, history))
    ensures file == [] <==> M.Pend(Stack, history) == []
  {
    PendHolds(file, r, history);
    HoldsReads(file, r, M.Pend(Stack, history));
    FI.NoFramesNoBytes(M.Pend(Stack, history));
  }

  /** A process can move on the files exactly when it can move on the stacks. */
  lemma EnabledRefines<T>(s: State<T>, a: M.Actor)
    requires FilesOk(s)
    ensures Enabled(s, a) <==> M.Enabled(View(s), a)
  {
    match a
    case Server => ReadableIff(s.server.inbox, s.server.reader, s.server.history);
    case Client(i) =>
      if i < |s.clients| {
        var c := s.clients[i];
        assert ClientOk(c);
        ReadableIff(c.inbox, c.reader, c.history);
      }
  }

  lemma BlockedRefines<T>(s: State<T>)
    requires FilesOk(s)
    ensures Blocked(s) <==> M.Blocked(View(s))
    ensures Blocked(s) ==> s.server.inbox == [] && M.Pend(Stack, s.server.history) == []
  {
    forall a
      ensures Enabled(s, a) <==> M.Enabled(View(s), a)
    {
      EnabledRefines(s, a);
    }
    ReadableIff(s.server.inbox, s.server.reader, s.server.history);
    if Blocked(s) { assert !Enabled(s, M.Server); }
  }

  /** When nothing can move at the end of such a run, a client has all its responses exactly when none of its own
      requests met silence. */
  lemma FinishedIff<T>(serve: Service<T>, s0: State<T>, schedule: seq<M.Actor>, i: nat)
    requires Initial(s0) && Undisturbed(serve, s0, schedule) && i < |s0.clients|
    requires Blocked(After(serve, s0, schedule))
    ensures var s, id := After(serve, s0, schedule), s0.clients[i].id;
      && i < |s.clients| && s.server.pc == M.Listening && s.server.inbox == []
      && (Finished(s.clients[i]) <==> S.AlwaysHeard(serve, s0.server.id, s0.state, s.taken, id))
      && (Finished(s.clients[i]) ==>
        S.SentBy(id, s.taken) == s0.clients[i].todo && |s.clients[i].received| == |s0.clients[i].todo|)
  {
    var s := After(serve, s0, schedule);
    var r := AfterRefines(serve, s0, schedule);
    BlockedRefines(s);
    M.FinishedIff(serve, View(s0), r, i);
    assert ClientOk(s.clients[i]);
  }

  // Such runs end

  /** Reads left before the truncation. */
  function Left(r: Reader): nat {
    match r.pc
    case Sample => 3
    case GetHeader => 2
    case GetContent => 1
    case Cut => 0
  }

  function AllLeft(clients: seq<ClientState>): nat {
    if clients == [] then 0 else AllLeft(clients[..|clients| - 1]) + Left(clients[|clients| - 1].reader)
  }

  lemma {:induction false} LeftUpdate(clients: seq<ClientState>, i: nat, c: ClientState)
    requires i < |clients|
    ensures AllLeft(clients[i := c]) == AllLeft(clients) - Left(clients[i].reader) + Left(c.reader)
  {
    var n := |clients| - 1;
    if i == n {
      assert clients[i := c][..n] == clients[..n];
    } else {
      assert clients[i := c][..n] == clients[..n][i := c];
      LeftUpdate(clients[..n], i, c);
    }
  }

  function Reads<T>(s: State<T>): nat {
    Left(s.server.reader) + AllLeft(s.clients)
  }

  lemma StepWorks<T>(serve: Service<T>, s: State<T>, a: M.Actor)
    requires FilesOk(s) && ReaderWaits(s) && Enabled(s, a) && !Lands(s, a) && M.DistinctIds(View(s).clients)
    ensures var t := Step(serve, s, a);
      M.Work(View(t)) < M.Work(View(s)) || (View(t) == View(s) && Reads(t) < Reads(s))
  {
    StepRefines(serve, s, a);
    if M.Enabled(View(s), a) && View(Step(serve, s, a)) == M.Step(serve, View(s), a) {
      M.StepWorks(serve, View(s), a);
    } else {
      HiddenStep(serve, s, a);
    }
  }

  /** A step that does not show is one of the three reads. */
  lemma HiddenStep<T>(serve: Service<T>, s: State<T>, a: M.Actor)
    requires FilesOk(s) && ReaderWaits(s) && Enabled(s, a) && !Lands(s, a)
    requires !(M.Enabled(View(s), a) && View(Step(serve, s, a)) == M.Step(serve, View(s), a))
    ensures Reads(Step(serve, s, a)) < Reads(s)
  {
    match a
    case Server => HiddenServerStep(serve, s);
    case Client(i) => HiddenClientStep(s, i);
  }

  lemma HiddenServerStep<T>(serve: Service<T>, s: State<T>)
    requires FilesOk(s) && ReaderWaits(s) && Enabled(s, M.Server)
    requires !(M.Enabled(View(s), M.Server) && View(ServerStep(serve, s)) == M.ServerStep(serve, View(s)))
    ensures Reads(ServerStep(serve, s)) < Reads(s)
  {
    match s.server.pc {
      case Listening => ListenRefines(serve, s);
      case Dispatching => DispatchRefines(serve, s);
      case Replying => ReplyRefines(serve, s);
    }
  }

  lemma HiddenClientStep<T>(s: State<T>, i: nat)
    requires FilesOk(s) && Enabled(s, M.Client(i)) && !Lands(s, M.Client(i))
    requires !(M.Enabled(View(s), M.Client(i)) && View(ClientStep(s, i)) == M.ClientStep(View(s), i))
    ensures Reads(ClientStep(s, i)) < Reads(s)
  {
    LeftUpdate(s.clients, i, ClientStep(s, i).clients[i]);
    if s.clients[i].pc == M.Idle {
      PostRefines(s, i);
    } else if s.clients[i].reader.pc == Cut {
      TakeRefines(s, i);
    }
  }

  /** Somebody who can move without disturbing a receive: the server, if it is in the middle of one. */
  lemma SomeoneMoves<T>(s: State<T>) returns (a: M.Actor)
    requires FilesOk(s) && !Blocked(s)
    ensures Enabled(s, a) && !Lands(s, a)
  {
    if s.server.reader.pc != Sample {
      a := M.Server;
      HoldsReads(s.server.inbox, s.server.reader, Replay(Stack, s.server.history).messages);
    } else {
      a :| Enabled(s, a);
    }
  }

  /** One more step that does not land in a receive. */
  lemma OneMoreStep<T>(serve: Service<T>, s0: State<T>, schedule: seq<M.Actor>) returns (longer: seq<M.Actor>)
    requires Initial(s0) && Undisturbed(serve, s0, schedule) && !Blocked(After(serve, s0, schedule))
    ensures |longer| == |schedule| + 1 && longer[..|schedule|] == schedule && Undisturbed(serve, s0, longer)
    ensures var s, t := After(serve, s0, schedule), After(serve, s0, longer);
      M.Work(View(t)) < M.Work(View(s)) || (View(t) == View(s) && Reads(t) < Reads(s))
  {
    var s := After(serve, s0, schedule);
    var r := AfterRefines(serve, s0, schedule);
    M.AfterInv(serve, View(s0), r);
    var a := SomeoneMoves(s);
    longer := schedule + [a];
    StepWorks(serve, s, a);
    Go(serve, s0, schedule, a);
    UndisturbedSnoc(serve, s0, schedule, a);
  }

  /** Every run in which no send lands in a receive can be continued, so, to a state where nothing moves. */
  lemma UndisturbedRunsEnd<T>(serve: Service<T>, s0: State<T>, schedule: seq<M.Actor>) returns (full: seq<M.Actor>)
    requires Initial(s0) && Undisturbed(serve, s0, schedule)
    ensures |full| >= |schedule| && full[..|schedule|] == schedule
    ensures Undisturbed(serve, s0, full) && Blocked(After(serve, s0, full))
    decreases M.Work(View(After(serve, s0, schedule))), Reads(After(serve, s0, schedule))
  {
    if Blocked(After(serve, s0, schedule)) {
      full := schedule;
    } else {
      var longer := OneMoreStep(serve, s0, schedule);
      full := UndisturbedRunsEnd(serve, s0, longer);
      assert full[..|schedule|] == full[..|longer|][..|schedule|];
    }
  }

  // When one client asks, no send ever lands in a receive

  ghost predicate OnlyAsks<T>(s0: State<T>, i: nat) {
    forall j | 0 <= j < |s0.clients| && j != i :: s0.clients[j].todo == []
  }

  /** The others have not moved. */
  ghost predicate OthersStay<T>(s0: State<T>, s: State<T>, i: nat) {
    && |s.clients| == |s0.clients| && i < |s.clients| && s.clients[i].id == s0.clients[i].id
    && forall j | 0 <= j < |s.clients| && j != i :: s.clients[j] == s0.clients[j]
  }

  lemma StepStays<T>(serve: Service<T>, s0: State<T>, s: State<T>, i: nat, a: M.Actor)
    requires Initial(s0) && OnlyAsks(s0, i) && OthersStay(s0, s, i) && Enabled(s, a)
    requires s.server.pc == M.Replying ==> s.server.sender == s.clients[i].id
    ensures OthersStay(s0, Step(serve, s, a), i)
    ensures a.Client? ==> a.index == i
  {
    match a
    case Server =>
      if s.server.pc == M.Replying {
        var t := ServerStep(serve, s);
        forall j | 0 <= j < |s.clients| && j != i
          ensures t.clients[j] == s0.clients[j]
        {
          assert s0.clients[j].id != s0.clients[i].id;
        }
      }
    case Client(j) =>
  }

  lemma OnlyOneIsServed<T>(serve: Service<T>, s0: State<T>, schedule: seq<M.Actor>, i: nat)
    requires Initial(s0) && i < |s0.clients| && OnlyAsks(s0, i) && Undisturbed(serve, s0, schedule)
    ensures var s := After(serve, s0, schedule);
      && |s.clients| == |s0.clients|
      && (s.server.pc == M.Replying ==> s.server.sender == s0.clients[i].id)
      && (forall k | 0 <= k < |s.taken| :: s.taken[k].client == s0.clients[i].id)
      && (s.clients[i].pc == M.Idle ==> s.server.reader.pc == Sample)
  {
    var s := After(serve, s0, schedule);
    var r := AfterRefines(serve, s0, schedule);
    M.AfterInv(serve, View(s0), r);
    AllFromAsker(serve, s0, r, i);
    if s.server.pc == M.Replying { ReplyIsToAsker(serve, s0, schedule, r, i); }
    if s.clients[i].pc == M.Idle { IdleMeansEmpty(serve, s0, s, i); }
  }

  lemma AllFromAsker<T>(serve: Service<T>, s0: State<T>, r: seq<M.Actor>, i: nat)
    requires Initial(s0) && M.Initial(View(s0)) && i < |s0.clients| && OnlyAsks(s0, i)
    ensures var v, id := M.After(serve, View(s0), r), s0.clients[i].id;
      && (forall k | 0 <= k < |v.taken| :: v.taken[k].client == id)
      && forall k | 0 <= k < |v.server.inbox| :: v.server.inbox[k].sender == id
  {
    var v, id := M.After(serve, View(s0), r), s0.clients[i].id;
    forall k | 0 <= k < |v.taken|
      ensures v.taken[k].client == id
    {
      var j := M.SomebodyAsked(serve, View(s0), r, v.taken[k].client);
    }
    forall k | 0 <= k < |v.server.inbox|
      ensures v.server.inbox[k].sender == id
    {
      var j := M.SomebodyAsked(serve, View(s0), r, v.server.inbox[k].sender);
    }
  }

  /** The server replies to somebody who waits. */
  lemma ReplyIsToAsker<T>(serve: Service<T>, s0: State<T>, schedule: seq<M.Actor>, r: seq<M.Actor>, i: nat)
    requires Initial(s0) && i < |s0.clients| && OnlyAsks(s0, i) && After(serve, s0, schedule).server.pc == M.Replying
    requires M.Initial(View(s0)) && View(After(serve, s0, schedule)) == M.After(serve, View(s0), r)
    ensures After(serve, s0, schedule).server.sender == s0.clients[i].id
  {
    var v := M.After(serve, View(s0), r);
    M.AfterInv(serve, View(s0), r);
    assert M.IsClient(v.clients, v.server.sender);
    var j :| 0 <= j < |v.clients| && v.clients[j].id == v.server.sender;
    assert M.Served(View(s0).clients[j], v.clients[j], v.server, v.taken,
                    S.Replay(serve, s0.server.id, s0.state, M.Dispatched(v)).replies);
    assert View(s0).clients[j].todo == s0.clients[j].todo;
  }

  lemma IdleMeansEmpty<T>(serve: Service<T>, s0: State<T>, s: State<T>, i: nat)
    requires FilesOk(s) && M.Inv(serve, View(s0), View(s)) && i < |s.clients| && s.clients[i].pc == M.Idle
    requires forall k | 0 <= k < |View(s).server.inbox| :: View(s).server.inbox[k].sender == s.clients[i].id
    ensures s.server.reader.pc == Sample
  {
    var v := View(s);
    assert M.Served(View(s0).clients[i], v.clients[i], v.server, v.taken,
                    S.Replay(serve, s0.server.id, s0.state, M.Dispatched(v)).replies);
    if v.server.inbox != [] { M.FromAt(s.clients[i].id, v.server.inbox, 0); }
  }

  lemma {:induction false} AloneIsUndisturbed<T>(serve: Service<T>, s0: State<T>, schedule: seq<M.Actor>, i: nat)
    requires Initial(s0) && i < |s0.clients| && OnlyAsks(s0, i)
    ensures Undisturbed(serve, s0, schedule) && OthersStay(s0, After(serve, s0, schedule), i)
  {
    if schedule == [] {
    } else {
      var before, a := schedule[..|schedule| - 1], schedule[|schedule| - 1];
      var mid := After(serve, s0, before);
      AloneIsUndisturbed(serve, s0, before, i);
      OnlyOneIsServed(serve, s0, before, i);
      if Enabled(mid, a) { StepStays(serve, s0, mid, i, a); }
      assert schedule == before + [a];
      UndisturbedSnoc(serve, s0, before, a);
    }
  }

  /** A client that alone asks anything: it receives, in order, what a sequential run of its requests sends it; and
      when nothing can move it has all its responses, unless one of its requests met silence. */
  lemma AloneIsServed<T>(serve: Service<T>, s0: State<T>, schedule: seq<M.Actor>, i: nat)
    requires Initial(s0) && i < |s0.clients| && OnlyAsks(s0, i)
    ensures var s, id, list := After(serve, s0, schedule), s0.clients[i].id, s0.clients[i].todo;
      var l := S.Replay(serve, s0.server.id, s0.state, M.Dispatched(View(s)));
      && |s.clients| == |s0.clients| && s.state == l.state
      && |s.taken| <= |list| && s.taken == S.Own(id, list[..|s.taken|])
      && s.clients[i].received <= S.RepliesTo(id, l.replies)
      && (forall j | 0 <= j < |s.clients| && j != i :: s.clients[j] == s0.clients[j])
      && (Blocked(s) ==>
        && s.server.pc == M.Listening
        && (Finished(s.clients[i]) <==> |l.replies| == |s.taken|)
        && (Finished(s.clients[i]) ==> |s.taken| == |list|))
  {
    var s, id, list := After(serve, s0, schedule), s0.clients[i].id, s0.clients[i].todo;
    AloneIsUndisturbed(serve, s0, schedule, i);
    OnlyOneIsServed(serve, s0, schedule, i);
    Linearizability(serve, s0, schedule);
    S.LogIsOwn(id, s.taken);
    assert S.SentBy(id, s.taken) == list[..|s.taken|];
    if Blocked(s) {
      FinishedIff(serve, s0, schedule, i);
      S.RepliesCount(serve, s0.server.id, s0.state, s.taken);
    }
  }

  /** Every run of a lone asker can be continued to a state where nothing moves. */
  lemma RunsEnd<T>(serve: Service<T>, s0: State<T>, schedule: seq<M.Actor>, i: nat) returns (full: seq<M.Actor>)
    requires Initial(s0) && i < |s0.clients| && OnlyAsks(s0, i)
    ensures |full| >= |schedule| && full[..|schedule|] == schedule && Blocked(After(serve, s0, full))
  {
    AloneIsUndisturbed(serve, s0, schedule, i);
    full := UndisturbedRunsEnd(serve, s0, schedule);
  }

  // When two clients ask: a request is lost

  /** The file holds just the frame of m, and what the reader has of it is right. */
  predicate Reading(file: Bytes, r: Reader, m: Message) {
    Holds(file, r, [m])
  }

  lemma ReadingGoesOn(file: Bytes, r: Reader, m: Message)
    requires Reading(file, r, m)
    ensures CanRead(file, r)
    ensures r.pc != Cut ==> FileStep(file, r) == file && Reading(file, ReadStep(file, r), m)
    ensures r.pc == Cut ==> Empty(FileStep(file, r), ReadStep(file, r)) && Gotten(r) == m
  {
    HoldsReads(file, r, [m]);
    HoldsGoesOn(file, r, [m]);
  }

  lemma FrameArrives(file: Bytes, r: Reader, m: Message)
    requires Empty(file, r) && m.length == |m.content|
    ensures file + FI.Frame(m) == FI.Frame(m) && Reading(FI.Frame(m), r, m)
  {
    assert [] + FI.Frame(m) == FI.Frame(m);
    HoldsMore(file, r, [], m);
    assert [] + [m] == [m];
  }

  predicate Ready(c: ClientState) {
    c.pc == M.Idle && Empty(c.inbox, c.reader)
  }

  /** Waits for a response with nothing in its file. */
  predicate Stuck(c: ClientState) {
    c.pc == M.Awaiting && Empty(c.inbox, c.reader)
  }

  predicate Quiet(c: ClientState) {
    Stuck(c) || (Ready(c) && c.todo == [])
  }

  /** The server reads a message that is alone in its file, up to the truncation. */
  lemma ServerReads<T>(serve: Service<T>, s0: State<T>, schedule: seq<M.Actor>, m: Message) returns (r: seq<M.Actor>)
    requires var v := After(serve, s0, schedule).server;
      v.pc == M.Listening && v.reader.pc == Sample && Reading(v.inbox, v.reader, m)
    ensures var s, t := After(serve, s0, schedule), After(serve, s0, r);
      && t == s.(server := t.server) && t.server == s.server.(reader := t.server.reader)
      && t.server.reader.pc == Cut && Reading(t.server.inbox, t.server.reader, m)
  {
    r := ServerReadsOn(serve, s0, schedule, m);
    r := ServerReadsOn(serve, s0, r, m);
    r := ServerReadsOn(serve, s0, r, m);
  }

  lemma ServerReadsOn<T>(serve: Service<T>, s0: State<T>, schedule: seq<M.Actor>, m: Message) returns (r: seq<M.Actor>)
    requires var v := After(serve, s0, schedule).server;
      v.pc == M.Listening && v.reader.pc != Cut && Reading(v.inbox, v.reader, m)
    ensures var s, t := After(serve, s0, schedule), After(serve, s0, r);
      && t == s.(server := t.server)
      && t.server == s.server.(reader := ReadStep(s.server.inbox, s.server.reader))
      && Reading(t.server.inbox, t.server.reader, m)
  {
    var v := After(serve, s0, schedule).server;
    ReadingGoesOn(v.inbox, v.reader, m);
    Go(serve, s0, schedule, M.Server);
    r := schedule + [M.Server];
  }

  lemma ClientReadsOn<T>(serve: Service<T>, s0: State<T>, schedule: seq<M.Actor>, i: nat, m: Message)
    returns (r: seq<M.Actor>)
    requires var s := After(serve, s0, schedule);
      i < |s.clients| && s.clients[i].pc == M.Awaiting && Reading(s.clients[i].inbox, s.clients[i].reader, m)
    ensures var s, t := After(serve, s0, schedule), After(serve, s0, r);
      && |t.clients| == |s.clients| && t == s.(clients := s.clients[i := t.clients[i]])
      && t.clients[i].id == s.clients[i].id && t.clients[i].todo == s.clients[i].todo
      && if s.clients[i].reader.pc == Cut then Ready(t.clients[i])
         else
           && t.clients[i] == s.clients[i].(reader := t.clients[i].reader)
           && t.clients[i].reader.pc == ReadStep(s.clients[i].inbox, s.clients[i].reader).pc
           && Reading(t.clients[i].inbox, t.clients[i].reader, m)
  {
    var c := After(serve, s0, schedule).clients[i];
    ReadingGoesOn(c.inbox, c.reader, m);
    Go(serve, s0, schedule, M.Client(i));
    r := schedule + [M.Client(i)];
  }

  lemma ClientReads<T>(serve: Service<T>, s0: State<T>, schedule: seq<M.Actor>, i: nat, m: Message)
    returns (r: seq<M.Actor>)
    requires var s := After(serve, s0, schedule);
      && i < |s.clients| && s.clients[i].pc == M.Awaiting && s.clients[i].reader.pc == Sample
      && Reading(s.clients[i].inbox, s.clients[i].reader, m)
    ensures var s, t := After(serve, s0, schedule), After(serve, s0, r);
      && |t.clients| == |s.clients| && t == s.(clients := s.clients[i := t.clients[i]])
      && t.clients[i].id == s.clients[i].id && t.clients[i].todo == s.clients[i].todo && Ready(t.clients[i])
  {
    r := ClientReadsOn(serve, s0, schedule, i, m);
    r := ClientReadsOn(serve, s0, r, i, m);
    r := ClientReadsOn(serve, s0, r, i, m);
    r := ClientReadsOn(serve, s0, r, i, m);
  }

  /** The server answers the request that it holds. */
  lemma ServerAnswers<T>(serve: Service<T>, s0: State<T>, schedule: seq<M.Actor>, i: nat, m: Message)
    returns (r: seq<M.Actor>)
    requires var s := After(serve, s0, schedule);
      && DistinctIds(s.clients) && i < |s.clients| && s.clients[i].inbox == []
      && s.server.pc == M.Dispatching && s.server.sender == s.clients[i].id
      && var served := serve(s.state, s.server.request);
        served.Answered? && m == Letter(s.server.id, served.content)
    ensures var s, t := After(serve, s0, schedule), After(serve, s0, r);
      && |t.clients| == |s.clients|
      && (forall j | 0 <= j < |s.clients| && j != i :: t.clients[j] == s.clients[j])
      && t.clients[i] == s.clients[i].(inbox := FI.Frame(m), history := s.clients[i].history + [Posted(m)])
      && t.server.pc == M.Listening && t.server.inbox == s.server.inbox && t.server.reader == s.server.reader
  {
    var s := After(serve, s0, schedule);
    Go(serve, s0, schedule, M.Server);
    r := schedule + [M.Server];
    Go(serve, s0, r, M.Server);
    r := r + [M.Server];
    assert [] + FI.Frame(m) == FI.Frame(m);
  }

  /** The second half of a round: the server runs the request that it holds and client i takes the response, if any. */
  lemma RoundEnds<T>(serve: Service<T>, s0: State<T>, schedule: seq<M.Actor>, i: nat) returns (r: seq<M.Actor>)
    requires var s := After(serve, s0, schedule);
      && DistinctIds(s.clients) && i < |s.clients| && Stuck(s.clients[i])
      && s.server.pc == M.Dispatching && Empty(s.server.inbox, s.server.reader)
      && s.server.sender == s.clients[i].id
    ensures var s, t := After(serve, s0, schedule), After(serve, s0, r);
      && AtRest(t) && |t.clients| == |s.clients|
      && (forall j | 0 <= j < |s.clients| && j != i :: t.clients[j] == s.clients[j])
      && t.clients[i].id == s.clients[i].id && t.clients[i].todo == s.clients[i].todo
      && (Ready(t.clients[i]) || Stuck(t.clients[i]))
  {
    var s := After(serve, s0, schedule);
    var served := serve(s.state, s.server.request);
    if served.Answered? {
      var m := Letter(s.server.id, served.content);
      r := ServerAnswers(serve, s0, schedule, i, m);
      FrameArrives(s.clients[i].inbox, s.clients[i].reader, m);
      r := ClientReads(serve, s0, r, i, m);
    } else {
      Go(serve, s0, schedule, M.Server);
      r := schedule + [M.Server];
    }
  }

  /** The first half: client i's request is sent to a server at rest and read up to the truncation. */
  lemma RoundBegins<T>(serve: Service<T>, s0: State<T>, schedule: seq<M.Actor>, i: nat, m: Message)
    returns (r: seq<M.Actor>)
    requires var s := After(serve, s0, schedule);
      && AtRest(s) && i < |s.clients| && Ready(s.clients[i]) && s.clients[i].todo != []
      && m == Letter(s.clients[i].id, s.clients[i].todo[0])
    ensures var s, t := After(serve, s0, schedule), After(serve, s0, r);
      && |t.clients| == |s.clients|
      && (forall j | 0 <= j < |s.clients| && j != i :: t.clients[j] == s.clients[j])
      && Stuck(t.clients[i])
      && t.clients[i].id == s.clients[i].id && t.clients[i].todo == s.clients[i].todo[1..]
      && t.server.pc == M.Listening && t.server.reader.pc == Cut && Reading(t.server.inbox, t.server.reader, m)
  {
    Go(serve, s0, schedule, M.Client(i));
    r := schedule + [M.Client(i)];
    FrameArrives(After(serve, s0, schedule).server.inbox, After(serve, s0, schedule).server.reader, m);
    r := ServerReads(serve, s0, r, m);
  }

  /** One request of one client, with nobody else moving. */
  lemma Round<T>(serve: Service<T>, s0: State<T>, schedule: seq<M.Actor>, i: nat) returns (r: seq<M.Actor>)
    requires var s := After(serve, s0, schedule);
      AtRest(s) && DistinctIds(s.clients) && i < |s.clients| && Ready(s.clients[i]) && s.clients[i].todo != []
    ensures var s, t := After(serve, s0, schedule), After(serve, s0, r);
      && AtRest(t) && |t.clients| == |s.clients|
      && (forall j | 0 <= j < |s.clients| && j != i :: t.clients[j] == s.clients[j])
      && t.clients[i].id == s.clients[i].id && t.clients[i].todo == s.clients[i].todo[1..]
      && (Ready(t.clients[i]) || Stuck(t.clients[i]))
  {
    var c := After(serve, s0, schedule).clients[i];
    var m := Letter(c.id, c.todo[0]);
    r := RoundBegins(serve, s0, schedule, i, m);
    var v := After(serve, s0, r).server;
    ReadingGoesOn(v.inbox, v.reader, m);
    Go(serve, s0, r, M.Server);
    r := r + [M.Server];
    r := RoundEnds(serve, s0, r, i);
  }

  lemma Drain<T>(serve: Service<T>, s0: State<T>, schedule: seq<M.Actor>, i: nat) returns (r: seq<M.Actor>)
    requires var s := After(serve, s0, schedule);
      AtRest(s) && DistinctIds(s.clients) && i < |s.clients| && (Ready(s.clients[i]) || Stuck(s.clients[i]))
    ensures var s, t := After(serve, s0, schedule), After(serve, s0, r);
      && AtRest(t) && |t.clients| == |s.clients|
      && (forall j | 0 <= j < |s.clients| && j != i :: t.clients[j] == s.clients[j])
      && t.clients[i].id == s.clients[i].id && Quiet(t.clients[i])
    decreases |After(serve, s0, schedule).clients[i].todo|
  {
    if Quiet(After(serve, s0, schedule).clients[i]) {
      r := schedule;
    } else {
      r := Round(serve, s0, schedule, i);
      r := Drain(serve, s0, r, i);
    }
  }

  /** Serving one client after the other leads to a state where nothing moves; who is quiet stays as it is. */
  lemma DrainAll<T>(serve: Service<T>, s0: State<T>, schedule: seq<M.Actor>, n: nat) returns (r: seq<M.Actor>)
    requires var s := After(serve, s0, schedule);
      && AtRest(s) && DistinctIds(s.clients) && n <= |s.clients|
      && (forall i | 0 <= i < |s.clients| :: Ready(s.clients[i]) || Stuck(s.clients[i]))
      && (forall i | 0 <= i < n :: Quiet(s.clients[i]))
    ensures var s, t := After(serve, s0, schedule), After(serve, s0, r);
      && Blocked(t) && |t.clients| == |s.clients|
      && forall i | 0 <= i < |s.clients| && Quiet(s.clients[i]) :: t.clients[i] == s.clients[i]
    decreases |After(serve, s0, schedule).clients| - n
  {
    var s := After(serve, s0, schedule);
    if n == |s.clients| {
      r := schedule;
    } else if Quiet(s.clients[n]) {
      r := DrainAll(serve, s0, schedule, n + 1);
    } else {
      r := Drain(serve, s0, schedule, n);
      r := DrainAll(serve, s0, r, n + 1);
    }
  }

  /** With another frame behind the one that is read, the truncation takes both. */
  lemma CutTakesBoth(file: Bytes, r: Reader, m: Message, other: Bytes)
    requires Reading(file, r, m) && r.pc == Cut
    ensures Empty(FileStep(file + other, r), ReadStep(file + other, r))
  {
    assert FI.Frames([m]) == FI.Frames([]) + FI.Frame(m);
  }

  /** A send lands in a receive that has come to its truncation, and goes with it. */
  lemma LandsAndGoes<T>(serve: Service<T>, s0: State<T>, schedule: seq<M.Actor>, b: nat, m: Message)
    returns (r: seq<M.Actor>)
    requires var s := After(serve, s0, schedule);
      && b < |s.clients| && Ready(s.clients[b]) && s.clients[b].todo != []
      && s.server.pc == M.Listening && s.server.reader.pc == Cut && Reading(s.server.inbox, s.server.reader, m)
    ensures var s, t := After(serve, s0, schedule), After(serve, s0, r);
      && |t.clients| == |s.clients| && Stuck(t.clients[b]) && t.clients[b].id == s.clients[b].id
      && (forall j | 0 <= j < |s.clients| && j != b :: t.clients[j] == s.clients[j])
      && t.server.pc == M.Dispatching && Empty(t.server.inbox, t.server.reader) && t.server.sender == m.sender
  {
    var s := After(serve, s0, schedule);
    var v, other := s.server, Letter(s.clients[b].id, s.clients[b].todo[0]);
    Go(serve, s0, schedule, M.Client(b));
    r := schedule + [M.Client(b)];
    CutTakesBoth(v.inbox, v.reader, m, FI.Frame(other));
    Go(serve, s0, r, M.Server);
    r := r + [M.Server];
  }

  /** Client b's request lands between the server's read of client a's and its truncation, and is gone. */
  lemma Lost<T>(serve: Service<T>, s0: State<T>, a: nat, b: nat) returns (r: seq<M.Actor>)
    requires Initial(s0) && a < |s0.clients| && b < |s0.clients| && a != b
    requires s0.clients[a].todo != [] && s0.clients[b].todo != []
    ensures var t := After(serve, s0, r);
      && AtRest(t) && DistinctIds(t.clients) && |t.clients| == |s0.clients| && Stuck(t.clients[b])
      && forall i | 0 <= i < |t.clients| :: Ready(t.clients[i]) || Stuck(t.clients[i])
  {
    var m := Letter(s0.clients[a].id, s0.clients[a].todo[0]);
    r := RoundBegins(serve, s0, [], a, m);
    r := LandsAndGoes(serve, s0, r, b, m);
    SameClients(serve, s0, r);
    r := RoundEnds(serve, s0, r, a);
    SameClients(serve, s0, r);
  }

  // The condition

  ghost predicate AtMostOneAsks<T>(s0: State<T>) {
    forall i, j | 0 <= i < j < |s0.clients| :: s0.clients[i].todo == [] || s0.clients[j].todo == []
  }

  /** Clients have received what the sequential run sends them, and if nothing can move everybody has all responses. */
  ghost predicate Served<T>(serve: Service<T>, s0: State<T>, s: State<T>) {
    && (Blocked(s) ==> forall i | 0 <= i < |s.clients| :: Finished(s.clients[i]))
    && forall i | 0 <= i < |s.clients| ::
      s.clients[i].received
        <= S.RepliesTo(s.clients[i].id, S.Replay(serve, s0.server.id, s0.state, M.Dispatched(View(s))).replies)
  }

  /** In every run clients receive what the sequential run sends them, and a run that can go no further has given
      everybody all responses. */
  ghost predicate EveryRunServes<T(!new)>(serve: Service<T>, s0: State<T>) {
    forall schedule :: Served(serve, s0, After(serve, s0, schedule))
  }

  ghost predicate AllHeard<T>(serve: Service<T>, s0: State<T>) {
    forall i | 0 <= i < |s0.clients| ::
      S.NoSilence(serve, s0.server.id, s0.state, S.Own(s0.clients[i].id, s0.clients[i].todo))
  }

  /** Everybody is served in every run exactly when at most one client asks anything and none of its requests meets
      silence. */
  lemma EveryRunServesIff<T(!new)>(serve: Service<T>, s0: State<T>)
    requires Initial(s0)
    ensures EveryRunServes(serve, s0) <==> AtMostOneAsks(s0) && AllHeard(serve, s0)
  {
    if !AtMostOneAsks(s0) {
      TwoAskersFail(serve, s0);
    } else if AllHeard(serve, s0) {
      forall schedule
        ensures Served(serve, s0, After(serve, s0, schedule))
      {
        OneAskerIsServed(serve, s0, schedule);
      }
    } else if EveryRunServes(serve, s0) {
      ServedIsHeard(serve, s0);
    }
  }

  lemma TwoAskersFail<T(!new)>(serve: Service<T>, s0: State<T>)
    requires Initial(s0) && !AtMostOneAsks(s0)
    ensures !EveryRunServes(serve, s0)
  {
    var a: nat, b: nat :| a < b < |s0.clients| && s0.clients[a].todo != [] && s0.clients[b].todo != [];
    var r := Lost(serve, s0, a, b);
    r := DrainAll(serve, s0, r, 0);
    assert !Finished(After(serve, s0, r).clients[b]);
  }

  lemma {:induction false} SameClients<T>(serve: Service<T>, s0: State<T>, schedule: seq<M.Actor>)
    ensures var s := After(serve, s0, schedule);
      |s.clients| == |s0.clients| && forall i | 0 <= i < |s.clients| :: s.clients[i].id == s0.clients[i].id
  {
    if schedule == [] {
    } else {
      SameClients(serve, s0, schedule[..|schedule| - 1]);
    }
  }

  lemma OneAskerIsServed<T>(serve: Service<T>, s0: State<T>, schedule: seq<M.Actor>)
    requires Initial(s0) && AtMostOneAsks(s0) && AllHeard(serve, s0)
    ensures Served(serve, s0, After(serve, s0, schedule))
  {
    SameClients(serve, s0, schedule);
    if i: nat :| i < |s0.clients| && s0.clients[i].todo != [] {
      AskerIsServed(serve, s0, schedule, i);
    } else if |s0.clients| > 0 {
      AskerIsServed(serve, s0, schedule, 0);
    }
  }

  /** When nothing moves, a lone asker whose requests do not meet silence has all its responses. */
  lemma AskerFinishes<T>(serve: Service<T>, s0: State<T>, schedule: seq<M.Actor>, i: nat)
    requires Initial(s0) && i < |s0.clients| && OnlyAsks(s0, i) && Blocked(After(serve, s0, schedule))
    requires S.NoSilence(serve, s0.server.id, s0.state, S.Own(s0.clients[i].id, s0.clients[i].todo))
    ensures i < |After(serve, s0, schedule).clients| && Finished(After(serve, s0, schedule).clients[i])
  {
    var id, list, log := s0.clients[i].id, s0.clients[i].todo, After(serve, s0, schedule).taken;
    AloneIsServed(serve, s0, schedule, i);
    assert S.Own(id, list[..|log|]) == S.Own(id, list)[..|log|];
    S.NoSilencePrefix(serve, s0.server.id, s0.state, S.Own(id, list), |log|);
    S.RepliesCount(serve, s0.server.id, s0.state, log);
  }

  lemma AskerIsServed<T>(serve: Service<T>, s0: State<T>, schedule: seq<M.Actor>, i: nat)
    requires Initial(s0) && i < |s0.clients| && OnlyAsks(s0, i) && AllHeard(serve, s0)
    ensures Served(serve, s0, After(serve, s0, schedule))
  {
    var s := After(serve, s0, schedule);
    SameClients(serve, s0, schedule);
    AloneIsServed(serve, s0, schedule, i);
    if Blocked(s) { AskerFinishes(serve, s0, schedule, i); }
    var replies := S.Replay(serve, s0.server.id, s0.state, M.Dispatched(View(s))).replies;
    forall j | 0 <= j < |s.clients|
      ensures s.clients[j].received <= S.RepliesTo(s.clients[j].id, replies)
      ensures Blocked(s) ==> Finished(s.clients[j])
    {
      if j != i { assert s.clients[j] == s0.clients[j]; }
    }
  }

  lemma ServedIsHeard<T(!new)>(serve: Service<T>, s0: State<T>)
    requires Initial(s0) && AtMostOneAsks(s0) && EveryRunServes(serve, s0)
    ensures AllHeard(serve, s0)
  {
    var r := DrainAll(serve, s0, [], 0);
    assert Served(serve, s0, After(serve, s0, r));
    forall i | 0 <= i < |s0.clients|
      ensures S.NoSilence(serve, s0.server.id, s0.state, S.Own(s0.clients[i].id, s0.clients[i].todo))
    {
      if s0.clients[i].todo != [] {
        AloneIsServed(serve, s0, r, i);
        var log := After(serve, s0, r).taken;
        S.RepliesCount(serve, s0.server.id, s0.state, log);
        assert log == S.Own(s0.clients[i].id, s0.clients[i].todo);
      }
    }
  }
}
