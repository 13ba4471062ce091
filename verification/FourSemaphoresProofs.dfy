/** What every run of the four-semaphore transport keeps, and the theorems that follow. */
module FourSemaphoresProofs {
  import opened Messages
  import opened Service
  import opened FourSemaphores

  // The invariant

  predicate Current<S>(s: State<S>, i: int) {
    s.admitted != [] && s.admitted[|s.admitted| - 1].client == i
  }

  /** Some client is between `dec(CLIENT_WRITE)` and `inc(CLIENT_WRITE)`; it is the last one admitted. */
  predicate InFlight<S>(s: State<S>) {
    && s.admitted != []
    && s.admitted[|s.admitted| - 1].client < |s.clients|
    && s.clients[s.admitted[|s.admitted| - 1].client].pc != Idle
  }

  const NONE := Semaphores(0, 0, 0, 0)
  const CLIENT_MAY_WRITE := Semaphores(1, 0, 0, 0)
  const SERVER_MAY_READ := Semaphores(0, 1, 0, 0)
  const CLIENT_MAY_READ := Semaphores(0, 0, 1, 0)
  const SERVER_MAY_WRITE := Semaphores(0, 0, 0, 1)

  /** Where the baton can be, given the two program counters. */
  predicate Control(c: ClientPc, v: ServerPc, sems: Semaphores) {
    match c
    case Idle => (v == Listen && sems == CLIENT_MAY_WRITE) || (v == Boot && sems == NONE)
    case AwaitReply =>
      (match v
       case Boot => false
       case Listen => sems == SERVER_MAY_READ || sems == CLIENT_MAY_READ || sems == SERVER_MAY_WRITE
       case Dispatch => sems == SERVER_MAY_WRITE
       case AwaitTurn => sems == SERVER_MAY_WRITE
       case _ => sems == NONE)
    case _ => v == Listen && sems == NONE
  }

  ghost predicate Baton<S>(s: State<S>) {
    && (forall i | 0 <= i < |s.clients| && !Current(s, i) :: s.clients[i].pc == Idle)
    && (s.admitted != [] ==> s.admitted[|s.admitted| - 1].client < |s.clients|)
    && Control(if s.admitted == [] then Idle else s.clients[s.admitted[|s.admitted| - 1].client].pc,
               s.server.pc, s.sems)
    && (s.server.pc == Boot ==> s.admitted == [])
  }

  /** The server has run the current request against its state. */
  predicate Performed(c: ClientPc, v: ServerPc, sems: Semaphores) {
    || c in {GetSender, GetLength, GetContent, Release}
    || (c == AwaitReply && v in {AwaitTurn, GiveSender, GiveLength, GiveContent, PostReply})
    || (c == AwaitReply && v == Listen && sems != SERVER_MAY_READ)
  }

  predicate Holds(slot: Slot, sender: U16, content: Content) {
    slot.sender == sender && slot.length == |content| && slot.memory[..|content|] == content
  }

  /** What the slot and the locals hold at each place, given how the current request is served. */
  predicate Contents<S>(s: State<S>, c: ClientState, served: Served<S>) {
    var slot, v := s.slot, s.server;
    match c.pc
    case Idle => true
    case PutSender => true
    case PutLength => slot.sender == c.id
    case PutContent => slot.sender == c.id && slot.length == |c.request|
    case PostRequest => Holds(slot, c.id, c.request)
    case AwaitReply =>
      (match v.pc
       case Boot => false
       case Listen =>
         if s.sems == SERVER_MAY_READ then Holds(slot, c.id, c.request)
         else if s.sems == CLIENT_MAY_READ then served.Answered? && Holds(slot, v.id, served.content)
         else served.Silence?
       case TakeSender => Holds(slot, c.id, c.request)
       case TakeLength => Holds(slot, c.id, c.request) && v.sender == c.id
       case TakeContent => Holds(slot, c.id, c.request) && v.sender == c.id && v.length == |c.request|
       case HandOver => v.sender == c.id && v.length == |c.request| && v.content == c.request
       case Dispatch => v.sender == c.id && v.length == |c.request| && v.content == c.request
       case AwaitTurn => served.Answered? && v.response == served.content
       case GiveSender => served.Answered? && v.response == served.content
       case GiveLength => served.Answered? && v.response == served.content && slot.sender == v.id
       case GiveContent =>
         served.Answered? && v.response == served.content && slot.sender == v.id && slot.length == |served.content|
       case PostReply => served.Answered? && Holds(slot, v.id, served.content))
    case GetSender => served.Answered? && Holds(slot, v.id, served.content)
    case GetLength => served.Answered? && Holds(slot, v.id, served.content) && c.sender == v.id
    case GetContent =>
      served.Answered? && Holds(slot, v.id, served.content) && c.sender == v.id && c.length == |served.content|
    case Release =>
      served.Answered? && c.sender == v.id && c.length == |served.content| && c.content == served.content
  }

  ghost predicate Received<S>(s: State<S>, replies: seq<Reply>) {
    forall i | 0 <= i < |s.clients| :: s.clients[i].received == RepliesTo(i, replies)
  }

  /** Each client has sent a prefix of its list, in its own order. */
  ghost predicate Sent<S>(s0: State<S>, s: State<S>) {
    && |s.clients| == |s0.clients|
    && (forall p | 0 <= p < |s.admitted| :: s.admitted[p].client < |s0.clients|)
    && forall i | 0 <= i < |s.clients| :: SentBy(i, s.admitted) + s.clients[i].todo == s0.clients[i].todo
  }

  /** Mid-request: the server's state is the one before or the one after, and nothing is torn. */
  ghost predicate UnderWay<S>(s: State<S>, c: ClientState, before: S, served: Served<S>) {
    && s.state == (if Performed(c.pc, s.server.pc, s.sems) && served.Answered? then served.state else before)
    && Contents(s, c, served)
  }

  ghost predicate Agrees<S(!new)>(serve: Service<S>, s0: State<S>, s: State<S>) {
    if InFlight(s) then
      var n := |s.admitted| - 1;
      var before := Replay(serve, s0.server.id, s0.state, s.admitted[..n]);
      var c := s.clients[s.admitted[n].client];
      var served := serve(before.state, s.admitted[n].request);
      && |before.replies| == n
      && Received(s, before.replies)
      && c.request == s.admitted[n].request
      && UnderWay(s, c, before.state, served)
    else
      var l := Replay(serve, s0.server.id, s0.state, s.admitted);
      |l.replies| == |s.admitted| && Received(s, l.replies) && s.state == l.state
  }

  ghost predicate Inv<S(!new)>(serve: Service<S>, s0: State<S>, s: State<S>) {
    Baton(s) && Sent(s0, s) && s.server.id == s0.server.id && Agrees(serve, s0, s)
  }

  lemma InitialInv<S(!new)>(serve: Service<S>, s0: State<S>)
    requires Initial(s0)
    ensures Inv(serve, s0, s0)
  {
  }

  lemma AdmissionSent<S>(s0: State<S>, s: State<S>, i: nat)
    requires Sent(s0, s) && Enabled(s, Client(i)) && s.clients[i].pc == Idle
    ensures Sent(s0, ClientStep(s, i))
  {
    var todo := s.clients[i].todo;
    forall j | 0 <= j < |s.clients|
      ensures SentBy(j, s.admitted + [Admission(i, todo[0])]) + (if j == i then todo[1..] else s.clients[j].todo)
        == s0.clients[j].todo
    {
      assert SentBy(j, s.admitted) + s.clients[j].todo == s0.clients[j].todo;
      AdmissionSplits(i, s.admitted, todo, j, s.clients[j].todo, s0.clients[j].todo);
    }
  }

  lemma AdmissionBaton<S>(s: State<S>, i: nat)
    requires Baton(s) && Enabled(s, Client(i)) && s.clients[i].pc == Idle
    ensures !InFlight(s)
    ensures var t := ClientStep(s, i);
      Baton(t) && InFlight(t) && t.admitted[..|s.admitted|] == s.admitted
  {
  }

  lemma AdmissionKeeps<S(!new)>(serve: Service<S>, s0: State<S>, s: State<S>, i: nat)
    requires Inv(serve, s0, s) && Enabled(s, Client(i)) && s.clients[i].pc == Idle
    ensures Inv(serve, s0, ClientStep(s, i))
  {
    AdmissionSent(s0, s, i);
    AdmissionBaton(s, i);
  }

  lemma ReleaseKeeps<S(!new)>(serve: Service<S>, s0: State<S>, s: State<S>, i: nat)
    requires Inv(serve, s0, s) && Enabled(s, Client(i)) && s.clients[i].pc == Release
    ensures Inv(serve, s0, ClientStep(s, i))
  {
    var t := ClientStep(s, i);
    var n := |s.admitted| - 1;
    var before := Replay(serve, s0.server.id, s0.state, s.admitted[..n]);
    var served := serve(before.state, s.admitted[n].request);
    forall j | 0 <= j < |t.clients|
      ensures t.clients[j].received == RepliesTo(j, Replay(serve, s0.server.id, s0.state, t.admitted).replies)
    {
      RepliesToSnoc(j, before.replies, Reply(i, Letter(s.server.id, served.content)));
    }
  }

  /** The copies and the hand-overs of a client that is under way. */
  lemma MiddleStepBaton<S(!new)>(s: State<S>, i: nat)
    requires Baton(s) && Enabled(s, Client(i)) && s.clients[i].pc != Idle && s.clients[i].pc != Release
    ensures var t := ClientStep(s, i);
      Baton(t) && InFlight(t) && Current(t, i)
  {
    assert Current(s, i);
  }

  lemma MiddleStepFrame<S>(s: State<S>, i: nat)
    requires Enabled(s, Client(i)) && s.clients[i].pc != Idle && s.clients[i].pc != Release
    ensures var t := ClientStep(s, i);
      && t.admitted == s.admitted && t.server == s.server && t.state == s.state && |t.clients| == |s.clients|
      && (forall j | 0 <= j < |s.clients| && j != i :: t.clients[j] == s.clients[j])
      && t.clients[i].todo == s.clients[i].todo && t.clients[i].request == s.clients[i].request
      && t.clients[i].received == s.clients[i].received
  {
  }

  lemma MiddleStepUnderWay<S>(s: State<S>, i: nat, before: S, served: Served<S>)
    requires Enabled(s, Client(i)) && s.clients[i].pc != Idle && s.clients[i].pc != Release
    requires Control(s.clients[i].pc, s.server.pc, s.sems) && UnderWay(s, s.clients[i], before, served)
    ensures UnderWay(ClientStep(s, i), ClientStep(s, i).clients[i], before, served)
  {
  }

  lemma MiddleStepAgrees<S(!new)>(serve: Service<S>, s0: State<S>, s: State<S>, i: nat)
    requires Inv(serve, s0, s) && Enabled(s, Client(i)) && s.clients[i].pc != Idle && s.clients[i].pc != Release
    ensures Sent(s0, ClientStep(s, i)) && Agrees(serve, s0, ClientStep(s, i))
  {
    var t, n := ClientStep(s, i), |s.admitted| - 1;
    assert Current(s, i);
    MiddleStepFrame(s, i);
    var before := Replay(serve, s0.server.id, s0.state, s.admitted[..n]);
    MiddleStepUnderWay(s, i, before.state, serve(before.state, s.admitted[n].request));
    MiddleStepBaton(s, i);
  }

  lemma ClientStepKeeps<S(!new)>(serve: Service<S>, s0: State<S>, s: State<S>, i: nat)
    requires Inv(serve, s0, s) && Enabled(s, Client(i))
    ensures Inv(serve, s0, ClientStep(s, i))
  {
    match s.clients[i].pc
    case Idle => AdmissionKeeps(serve, s0, s, i);
    case Release => ReleaseKeeps(serve, s0, s, i);
    case _ =>
      MiddleStepBaton(s, i);
      MiddleStepAgrees(serve, s0, s, i);
  }

  lemma ServerStepBaton<S>(serve: Service<S>, s: State<S>)
    requires Baton(s) && Enabled(s, Server)
    ensures Baton(ServerStep(serve, s)) && (s.server.pc != Boot ==> InFlight(s))
  {
  }

  lemma ServerStepUnderWay<S>(serve: Service<S>, s: State<S>, c: ClientState, before: S)
    requires Control(c.pc, s.server.pc, s.sems) && Enabled(s, Server) && c.pc != Idle
    requires UnderWay(s, c, before, serve(before, c.request))
    ensures UnderWay(ServerStep(serve, s), c, before, serve(before, c.request))
  {
  }

  lemma ServerStepFrame<S>(serve: Service<S>, s: State<S>)
    requires Enabled(s, Server)
    ensures var t := ServerStep(serve, s);
      && t.clients == s.clients && t.admitted == s.admitted && t.server.id == s.server.id
      && (s.server.pc == Boot ==> t.state == s.state)
  {
  }

  lemma SameBooks<S(!new)>(serve: Service<S>, s0: State<S>, s: State<S>, t: State<S>)
    requires Inv(serve, s0, s) && InFlight(s)
    requires t.clients == s.clients && t.admitted == s.admitted && t.server.id == s.server.id && Baton(t)
    requires var n := |s.admitted| - 1;
      var before := Replay(serve, s0.server.id, s0.state, s.admitted[..n]).state;
      UnderWay(t, s.clients[s.admitted[n].client], before, serve(before, s.admitted[n].request))
    ensures Inv(serve, s0, t)
  {
  }

  lemma ServerStepKeeps<S(!new)>(serve: Service<S>, s0: State<S>, s: State<S>)
    requires Inv(serve, s0, s) && Enabled(s, Server)
    ensures Inv(serve, s0, ServerStep(serve, s))
  {
    var t := ServerStep(serve, s);
    ServerStepBaton(serve, s);
    ServerStepFrame(serve, s);
    if InFlight(s) {
      var n := |s.admitted| - 1;
      var before := Replay(serve, s0.server.id, s0.state, s.admitted[..n]).state;
      ServerStepUnderWay(serve, s, s.clients[s.admitted[n].client], before);
      SameBooks(serve, s0, s, t);
    }
  }

  lemma {:induction false} AfterInv<S(!new)>(serve: Service<S>, s0: State<S>, schedule: seq<Actor>)
    requires Initial(s0)
    ensures Inv(serve, s0, After(serve, s0, schedule))
  {
    if schedule == [] {
      InitialInv(serve, s0);
    } else {
      var before, a := schedule[..|schedule| - 1], schedule[|schedule| - 1];
      AfterInv(serve, s0, before);
      var mid := After(serve, s0, before);
      if Enabled(mid, a) {
        match a
        case Server => ServerStepKeeps(serve, s0, mid);
        case Client(i) => ClientStepKeeps(serve, s0, mid, i);
      }
    }
  }

  // Theorems

  /** What the sequential run of the requests, in the order of admission, says each client has received. */
  ghost predicate Linearized<S(!new)>(serve: Service<S>, s0: State<S>, s: State<S>, log: seq<Admission>) {
    var l := Replay(serve, s0.server.id, s0.state, log);
    && (forall i | 0 <= i < |s.clients| :: s.clients[i].received == RepliesTo(i, l.replies))
    && |l.replies| == |log|
  }

  /** Every interleaving answers as a sequential run does, in the order of passing `dec(CLIENT_WRITE)`. */
  lemma {:induction false} Linearizability<S(!new)>(serve: Service<S>, s0: State<S>, schedule: seq<Actor>)
    requires Initial(s0)
    ensures var s := After(serve, s0, schedule);
      && Sent(s0, s)
      && (!InFlight(s) ==>
        && Linearized(serve, s0, s, s.admitted)
        && s.state == Replay(serve, s0.server.id, s0.state, s.admitted).state)
      && (InFlight(s) ==>
        && Linearized(serve, s0, s, s.admitted[..|s.admitted| - 1])
        && (s.state == Replay(serve, s0.server.id, s0.state, s.admitted[..|s.admitted| - 1]).state
            || s.state == Replay(serve, s0.server.id, s0.state, s.admitted).state))
  {
    AfterInv(serve, s0, schedule);
  }

  /** The requests that have been answered in full at this point of a run. */
  function Completed<S>(s: State<S>): seq<Admission> {
    if InFlight(s) then s.admitted[..|s.admitted| - 1] else s.admitted
  }

  /** Where the sequential run produced a client's k-th response. */
  lemma ResponseAt<S(!new)>(serve: Service<S>, s0: State<S>, schedule: seq<Actor>, i: nat, k: nat) returns (p: nat)
    requires Initial(s0)
    requires i < |After(serve, s0, schedule).clients| && k < |After(serve, s0, schedule).clients[i].received|
    ensures var s := After(serve, s0, schedule);
      var replies := Replay(serve, s0.server.id, s0.state, Completed(s)).replies;
      && p < |replies| == |Completed(s)| && replies[p] == Reply(i, s.clients[i].received[k])
      && |RepliesTo(i, replies[..p])| == k
  {
    AfterInv(serve, s0, schedule);
    p := RepliesToAt(i, Replay(serve, s0.server.id, s0.state, Completed(After(serve, s0, schedule))).replies, k);
  }

  /** A client's k-th response answers the k-th request of its list, from the state that the requests admitted
      before it leave. */
  lemma {:induction false} NthResponse<S(!new)>(serve: Service<S>, s0: State<S>, schedule: seq<Actor>, i: nat, k: nat)
    returns (log: seq<Admission>)
    requires Initial(s0)
    requires i < |After(serve, s0, schedule).clients| && k < |After(serve, s0, schedule).clients[i].received|
    ensures var s := After(serve, s0, schedule);
      && |s.clients| == |s0.clients| && k < |s0.clients[i].todo|
      && log < s.admitted && s.admitted[|log|] == Admission(i, s0.clients[i].todo[k]) && |SentBy(i, log)| == k
      && var served := serve(Replay(serve, s0.server.id, s0.state, log).state, s0.clients[i].todo[k]);
        served.Answered? && s.clients[i].received[k] == Letter(s0.server.id, served.content)
  {
    var s := After(serve, s0, schedule);
    AfterInv(serve, s0, schedule);
    var all := Completed(s);
    var p := ResponseAt(serve, s0, schedule, i, k);
    log := all[..p];
    var q := ReplayAt(serve, s0.server.id, s0.state, all, p);
    ReplayPrefix(serve, s0.server.id, s0.state, all, q);
    RepliesMatchRequests(serve, s0.server.id, s0.state, log, i);
    assert s.admitted[..p] == log;
    SentByPrefix(i, s.admitted, p);
    assert SentBy(i, s.admitted) + s.clients[i].todo == s0.clients[i].todo;
  }

  /** A client about to leave `ipc_recv` holds the untorn answer to its own latest request. */
  lemma {:induction false} ResponseMatching<S(!new)>(serve: Service<S>, s0: State<S>, schedule: seq<Actor>, i: nat)
    requires Initial(s0)
    requires i < |After(serve, s0, schedule).clients| && After(serve, s0, schedule).clients[i].pc == Release
    ensures var s := After(serve, s0, schedule);
      var c, n := s.clients[i], |s.admitted| - 1;
      && |s.clients| == |s0.clients|
      && s.admitted != [] && s.admitted[n] == Admission(i, c.request)
      && SentBy(i, s.admitted) + c.todo == s0.clients[i].todo
      && var served := serve(Replay(serve, s0.server.id, s0.state, s.admitted[..n]).state, c.request);
        served.Answered? && Message(c.sender, c.length, c.content) == Letter(s0.server.id, served.content)
  {
    AfterInv(serve, s0, schedule);
    assert Current(After(serve, s0, schedule), i);
  }

  predicate ClientInside(pc: ClientPc) {
    pc != Idle && pc != AwaitReply
  }

  predicate ServerInside(pc: ServerPc) {
    pc != Listen && pc != Dispatch && pc != AwaitTurn
  }

  function Inside(clients: seq<ClientState>): nat {
    if clients == [] then 0
    else Inside(clients[..|clients| - 1]) + if ClientInside(clients[|clients| - 1].pc) then 1 else 0
  }

  lemma {:induction false} InsideAlone(clients: seq<ClientState>, i: int)
    requires forall j | 0 <= j < |clients| && j != i :: !ClientInside(clients[j].pc)
    ensures Inside(clients) == if 0 <= i < |clients| && ClientInside(clients[i].pc) then 1 else 0
  {
    if clients == [] {
    } else {
      InsideAlone(clients[..|clients| - 1], i);
    }
  }

  lemma BatonIsOne<S>(s: State<S>)
    requires Baton(s)
    ensures s.sems.clientWrite + s.sems.serverRead + s.sems.clientRead + s.sems.serverWrite
      + Inside(s.clients) + (if ServerInside(s.server.pc) then 1 else 0) == 1
  {
    InsideAlone(s.clients, if s.admitted == [] then -1 else s.admitted[|s.admitted| - 1].client);
  }

  /** The four semaphores and the processes between a `dec` and the next `inc` always add up to one. */
  lemma BatonConservation<S(!new)>(serve: Service<S>, s0: State<S>, schedule: seq<Actor>)
    requires Initial(s0)
    ensures var s := After(serve, s0, schedule);
      s.sems.clientWrite + s.sems.serverRead + s.sems.clientRead + s.sems.serverWrite
        + Inside(s.clients) + (if ServerInside(s.server.pc) then 1 else 0) == 1
  {
    AfterInv(serve, s0, schedule);
    BatonIsOne(After(serve, s0, schedule));
  }

  /** At most one client is between its request and the end of its reply. */
  lemma OneOutstanding<S(!new)>(serve: Service<S>, s0: State<S>, schedule: seq<Actor>, i: nat, j: nat)
    requires Initial(s0)
    requires i < j < |After(serve, s0, schedule).clients|
    ensures var s := After(serve, s0, schedule);
      s.clients[i].pc == Idle || s.clients[j].pc == Idle
  {
    AfterInv(serve, s0, schedule);
  }

  // Progress

  ghost predicate Blocked<S>(s: State<S>) {
    forall a :: !Enabled(s, a)
  }

  ghost predicate Finished<S>(s: State<S>) {
    s.server.pc == Listen && forall i | 0 <= i < |s.clients| :: s.clients[i].pc == Idle && s.clients[i].todo == []
  }

  /** The server has dropped a request and waits for SERVER_READ while the baton is at SERVER_WRITE. */
  predicate Dropped<S>(s: State<S>) {
    InFlight(s) && s.server.pc == Listen && s.sems == SERVER_MAY_WRITE
  }

  /** Nothing can move exactly when everything is answered, or when a request was dropped. */
  lemma BlockedIff<S(!new)>(serve: Service<S>, s0: State<S>, schedule: seq<Actor>)
    requires Initial(s0)
    ensures var s := After(serve, s0, schedule);
      && (Blocked(s) <==> Finished(s) || Dropped(s))
      && (Dropped(s) ==> var n := |s.admitted| - 1;
           serve(Replay(serve, s0.server.id, s0.state, s.admitted[..n]).state, s.admitted[n].request).Silence?)
  {
    AfterInv(serve, s0, schedule);
    BlockedIffInv(serve, s0, After(serve, s0, schedule));
  }

  lemma BlockedIffInv<S(!new)>(serve: Service<S>, s0: State<S>, s: State<S>)
    requires Inv(serve, s0, s)
    ensures Blocked(s) <==> Finished(s) || Dropped(s)
  {
    if InFlight(s) {
      var i := s.admitted[|s.admitted| - 1].client;
      if !Dropped(s) { assert Enabled(s, Client(i)) || Enabled(s, Server); }
    } else if s.server.pc == Boot {
      assert Enabled(s, Server);
    } else if !Finished(s) {
      var i :| 0 <= i < |s.clients| && (s.clients[i].pc != Idle || s.clients[i].todo != []);
      assert Enabled(s, Client(i));
    }
  }

  /** Steps still to come for the request in flight, out of the 21 that each request takes. */
  function Left(c: ClientPc, v: ServerPc, sems: Semaphores): nat {
    match c
    case Idle => 0
    case PutSender => 20
    case PutLength => 19
    case PutContent => 18
    case PostRequest => 17
    case AwaitReply =>
      (match v
       case Boot => 0
       case Listen => if sems == SERVER_MAY_READ then 16 else if sems == CLIENT_MAY_READ then 5 else 10
       case TakeSender => 15
       case TakeLength => 14
       case TakeContent => 13
       case HandOver => 12
       case Dispatch => 11
       case AwaitTurn => 10
       case GiveSender => 9
       case GiveLength => 8
       case GiveContent => 7
       case PostReply => 6)
    case GetSender => 4
    case GetLength => 3
    case GetContent => 2
    case Release => 1
  }

  function Queued(clients: seq<ClientState>): nat {
    if clients == [] then 0 else Queued(clients[..|clients| - 1]) + |clients[|clients| - 1].todo|
  }

  function Work<S>(s: State<S>): nat {
    21 * Queued(s.clients)
      + (if InFlight(s) then Left(s.clients[s.admitted[|s.admitted| - 1].client].pc, s.server.pc, s.sems) else 0)
      + (if s.server.pc == Boot then 1 else 0)
  }

  lemma {:induction false} QueuedUpdate(clients: seq<ClientState>, i: nat, c: ClientState)
    requires i < |clients|
    ensures Queued(clients[i := c]) == Queued(clients) - |clients[i].todo| + |c.todo|
  {
    var n := |clients| - 1;
    if i == n {
      assert clients[i := c][..n] == clients[..n];
    } else {
      assert clients[i := c][..n] == clients[..n][i := c];
      QueuedUpdate(clients[..n], i, c);
    }
  }

  lemma ServerStepWorks<S>(serve: Service<S>, s: State<S>, c: ClientPc)
    requires Control(c, s.server.pc, s.sems) && Enabled(s, Server) && c != Idle
    ensures var t := ServerStep(serve, s);
      Left(c, s.server.pc, s.sems) == Left(c, t.server.pc, t.sems) + 1
  {
  }

  lemma ClientStepWorks<S(!new)>(s: State<S>, i: nat)
    requires Baton(s) && Enabled(s, Client(i))
    ensures Work(s) == Work(ClientStep(s, i)) + 1
  {
    var t := ClientStep(s, i);
    QueuedUpdate(s.clients, i, t.clients[i]);
    match s.clients[i].pc
    case Idle => assert InFlight(t) && !InFlight(s);
    case Release => assert Current(s, i) && !InFlight(t);
    case _ => MiddleStepBaton(s, i);
  }

  lemma StepWorks<S(!new)>(serve: Service<S>, s: State<S>, a: Actor)
    requires Baton(s) && Enabled(s, a)
    ensures Work(s) == Work(Step(serve, s, a)) + 1
  {
    match a
    case Server =>
      ServerStepBaton(serve, s);
      ServerStepFrame(serve, s);
      if InFlight(s) { ServerStepWorks(serve, s, s.clients[s.admitted[|s.admitted| - 1].client].pc); }
    case Client(i) => ClientStepWorks(s, i);
  }

  /** Every step taken is one unit of work less; so no run goes on for ever. */
  lemma {:induction false} RunLength<S(!new)>(serve: Service<S>, s0: State<S>, schedule: seq<Actor>)
    requires Initial(s0)
    ensures Taken(serve, s0, schedule) + Work(After(serve, s0, schedule)) == Work(s0)
  {
    if schedule == [] {
    } else {
      var before, a := schedule[..|schedule| - 1], schedule[|schedule| - 1];
      RunLength(serve, s0, before);
      AfterInv(serve, s0, before);
      if Enabled(After(serve, s0, before), a) { StepWorks(serve, After(serve, s0, before), a); }
    }
  }

  lemma {:induction false} FinishedIsNoWork(clients: seq<ClientState>)
    requires forall i | 0 <= i < |clients| :: clients[i].todo == []
    ensures Queued(clients) == 0
  {
    if clients == [] {
    } else {
      FinishedIsNoWork(clients[..|clients| - 1]);
    }
  }

  /** A run that ends with everything answered took 21 steps for each request, and one more for POSIX. */
  lemma TwentyOneStepsEach<S(!new)>(serve: Service<S>, s0: State<S>, schedule: seq<Actor>)
    requires Initial(s0) && Finished(After(serve, s0, schedule))
    ensures Taken(serve, s0, schedule) == 21 * Queued(s0.clients) + if s0.server.pc == Boot then 1 else 0
  {
    RunLength(serve, s0, schedule);
    FinishedIsNoWork(After(serve, s0, schedule).clients);
  }

  /** Every run can be continued to a state where nothing moves. */
  lemma RunsEnd<S(!new)>(serve: Service<S>, s0: State<S>, schedule: seq<Actor>) returns (full: seq<Actor>)
    requires Initial(s0)
    ensures |full| >= |schedule| && full[..|schedule|] == schedule && Blocked(After(serve, s0, full))
    decreases Work(After(serve, s0, schedule))
  {
    var s := After(serve, s0, schedule);
    if Blocked(s) {
      full := schedule;
    } else {
      var a :| Enabled(s, a);
      AfterInv(serve, s0, schedule);
      StepWorks(serve, s, a);
      assert (schedule + [a])[..|schedule|] == schedule;
      full := RunsEnd(serve, s0, schedule + [a]);
    }
  }
}
