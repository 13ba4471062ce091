/** How long the runs of the three-semaphore transport are, and where they can come to rest. */
module ThreeSemaphoresProgress {
  import opened Service
  import opened ThreeSemaphores
  import opened ThreeSemaphoresProofs

  /** The requests that the server has run against its state, in order. */
  function Dispatched<S>(s: State<S>): seq<Admission> {
    if Undispatched(s) && s.admitted != [] then s.admitted[..|s.admitted| - 1] else s.admitted
  }

  /** How many of them met silence. */
  function Silenced<S>(serve: Service<S>, s0: State<S>, s: State<S>): int {
    |Dispatched(s)| - |Replay(serve, s0.server.id, s0.state, Dispatched(s)).replies|
  }

  function Waiting(clients: seq<ClientState>): nat {
    if clients == [] then 0
    else Waiting(clients[..|clients| - 1]) + if clients[|clients| - 1].pc == AwaitReply then 1 else 0
  }

  lemma {:induction false} WaitingUpdate(clients: seq<ClientState>, i: nat, c: ClientState)
    requires i < |clients|
    ensures Waiting(clients[i := c]) == Waiting(clients)
      - (if clients[i].pc == AwaitReply then 1 else 0) + (if c.pc == AwaitReply then 1 else 0)
  {
    var n := |clients| - 1;
    if i == n {
      assert clients[i := c][..n] == clients[..n];
    } else {
      assert clients[i := c][..n] == clients[..n][i := c];
      WaitingUpdate(clients[..n], i, c);
    }
  }

  lemma {:induction false} NobodyWaitsIff(clients: seq<ClientState>)
    ensures Waiting(clients) == 0 <==> forall i | 0 <= i < |clients| :: clients[i].pc != AwaitReply
  {
    if clients == [] {
    } else {
      NobodyWaitsIff(clients[..|clients| - 1]);
    }
  }

  /** Every waiting client is matched by a response that is ready or in the making, by a request on its way, or by
      a request that met silence. */
  predicate Matched<S>(serve: Service<S>, s0: State<S>, s: State<S>) {
    Waiting(s.clients) == s.sems.clientCanRead + s.sems.serverCanRead
      + (if Resting(s.server.pc) then 0 else 1) + Silenced(serve, s0, s)
  }

  /** Every client has had a response for each request it sent, but for the one it is busy with. */
  ghost predicate Counted<S>(s: State<S>) {
    && (forall p | 0 <= p < |s.admitted| :: s.admitted[p].client < |s.clients|)
    && forall i | 0 <= i < |s.clients| ::
      |SentBy(i, s.admitted)| == |s.clients[i].received| + if s.clients[i].pc == Idle then 0 else 1
  }

  ghost predicate Tally<S>(serve: Service<S>, s0: State<S>, s: State<S>) {
    Matched(serve, s0, s) && Counted(s)
  }

  lemma ClientStepDispatched<S>(s: State<S>, i: nat)
    requires Tokens(s) && Enabled(s, Client(i))
    ensures Dispatched(ClientStep(s, i)) == Dispatched(s)
  {
    ClientStepTokens(s, i);
  }

  lemma ClientStepMatched<S>(serve: Service<S>, s0: State<S>, s: State<S>, i: nat)
    requires Tokens(s) && Matched(serve, s0, s) && Enabled(s, Client(i))
    ensures Matched(serve, s0, ClientStep(s, i))
  {
    ClientStepDispatched(s, i);
    WaitingUpdate(s.clients, i, ClientStep(s, i).clients[i]);
  }

  lemma ClientStepCounted<S>(s: State<S>, i: nat)
    requires Counted(s) && Enabled(s, Client(i))
    ensures Counted(ClientStep(s, i))
  {
    var t := ClientStep(s, i);
    if s.clients[i].pc == Idle {
      forall j | 0 <= j < |s.clients|
        ensures |SentBy(j, t.admitted)| == |SentBy(j, s.admitted)| + if j == i then 1 else 0
      {
        SentBySnoc(j, s.admitted, Admission(i, s.clients[i].todo[0]));
      }
    }
  }

  /** Running a request is one more reply or one more silence. */
  lemma DispatchCounts<S(!new)>(serve: Service<S>, s0: State<S>, s: State<S>)
    requires Inv(serve, s0, s) && s.server.pc == Dispatch
    ensures Silenced(serve, s0, ServerStep(serve, s))
      == Silenced(serve, s0, s) + if serve(s.state, s.server.content).Silence? then 1 else 0
  {
    ServerStepTokens(serve, s);
    var n := |s.admitted| - 1;
    assert s.server.content == s.admitted[n].request;
    assert Dispatched(s) == s.admitted[..n] && Dispatched(ServerStep(serve, s)) == s.admitted;
  }

  lemma OtherStepsDispatchNothing<S(!new)>(serve: Service<S>, s0: State<S>, s: State<S>)
    requires Tokens(s) && Enabled(s, Server) && s.server.pc != Dispatch
    ensures Silenced(serve, s0, ServerStep(serve, s)) == Silenced(serve, s0, s)
  {
    ServerStepTokens(serve, s);
    ServerStepFrame(serve, s);
  }

  lemma ServerStepMatched<S(!new)>(serve: Service<S>, s0: State<S>, s: State<S>)
    requires Inv(serve, s0, s) && Matched(serve, s0, s) && Enabled(s, Server)
    ensures Matched(serve, s0, ServerStep(serve, s))
  {
    ServerStepFrame(serve, s);
    if s.server.pc == Dispatch { DispatchCounts(serve, s0, s); } else { OtherStepsDispatchNothing(serve, s0, s); }
  }

  lemma InitialTally<S(!new)>(serve: Service<S>, s0: State<S>)
    requires Initial(s0)
    ensures Tally(serve, s0, s0)
  {
    NobodyWaitsIff(s0.clients);
  }

  lemma {:induction false} AfterTally<S(!new)>(serve: Service<S>, s0: State<S>, schedule: seq<Actor>)
    requires Initial(s0)
    ensures Inv(serve, s0, After(serve, s0, schedule)) && Tally(serve, s0, After(serve, s0, schedule))
  {
    AfterInv(serve, s0, schedule);
    if schedule == [] {
      InitialTally(serve, s0);
    } else {
      var before, a := schedule[..|schedule| - 1], schedule[|schedule| - 1];
      var mid := After(serve, s0, before);
      AfterTally(serve, s0, before);
      if Enabled(mid, a) {
        match a
        case Server =>
          ServerStepMatched(serve, s0, mid);
          ServerStepFrame(serve, mid);
        case Client(i) =>
          ClientStepMatched(serve, s0, mid, i);
          ClientStepCounted(mid, i);
      }
    }
  }

  // Where runs come to rest

  ghost predicate Blocked<S>(s: State<S>) {
    forall a :: !Enabled(s, a)
  }

  ghost predicate Finished<S>(s: State<S>) {
    && s.server.pc == AwaitRequest && s.sems.serverCanRead == 0
    && forall i | 0 <= i < |s.clients| :: s.clients[i].pc == Idle && s.clients[i].todo == []
  }

  /** Some clients wait for a response that will not come, and the others have nothing left to ask. */
  ghost predicate Starved<S>(s: State<S>) {
    && s.server.pc == AwaitRequest && s.sems.serverCanRead == 0 && s.sems.clientCanRead == 0
    && Waiting(s.clients) > 0
    && forall i | 0 <= i < |s.clients| ::
      s.clients[i].pc == AwaitReply || (s.clients[i].pc == Idle && s.clients[i].todo == [])
  }

  lemma BlockedIsOne<S(!new)>(s: State<S>)
    requires Tokens(s) && Blocked(s)
    ensures Finished(s) || Starved(s)
  {
    assert !Enabled(s, Server);
    forall i: nat | i < |s.clients|
      ensures s.clients[i].pc == AwaitReply || (s.clients[i].pc == Idle && s.clients[i].todo == [])
      ensures s.clients[i].pc == AwaitReply ==> s.sems.clientCanRead == 0
    {
      assert !Enabled(s, Client(i));
      if BeingWritten(s) { assert !Enabled(s, Client(s.admitted[|s.admitted| - 1].client)); }
    }
    NobodyWaitsIff(s.clients);
  }

  /** Nothing can move exactly when every client has as many responses as requests, or when as many clients starve as
      requests met silence. */
  lemma BlockedIff<S(!new)>(serve: Service<S>, s0: State<S>, schedule: seq<Actor>)
    requires Initial(s0)
    ensures var s := After(serve, s0, schedule);
      && |s.clients| == |s0.clients|
      && (Blocked(s) <==> Finished(s) || Starved(s))
      && (Starved(s) ==> Waiting(s.clients) == Silenced(serve, s0, s) > 0)
      && (Finished(s) ==>
        && Silenced(serve, s0, s) == 0 == s.sems.clientCanRead && Dispatched(s) == s.admitted
        && forall i | 0 <= i < |s.clients| :: |s.clients[i].received| == |s0.clients[i].todo|)
  {
    var s := After(serve, s0, schedule);
    AfterTally(serve, s0, schedule);
    if Blocked(s) { BlockedIsOne(s); }
    if Finished(s) || Starved(s) { OneIsBlocked(s); }
    if Starved(s) { StarvedIsSilenced(serve, s0, s); }
    if Finished(s) { FinishedIsAnswered(serve, s0, s); }
  }

  lemma OneIsBlocked<S>(s: State<S>)
    requires Finished(s) || Starved(s)
    ensures Blocked(s)
  {
    NobodyWaitsIff(s.clients);
  }

  lemma StarvedIsSilenced<S>(serve: Service<S>, s0: State<S>, s: State<S>)
    requires Matched(serve, s0, s) && Starved(s)
    ensures Waiting(s.clients) == Silenced(serve, s0, s) > 0
  {
  }

  lemma FinishedIsAnswered<S(!new)>(serve: Service<S>, s0: State<S>, s: State<S>)
    requires Inv(serve, s0, s) && Tally(serve, s0, s) && Finished(s)
    ensures Silenced(serve, s0, s) == 0 == s.sems.clientCanRead && Dispatched(s) == s.admitted
    ensures forall i | 0 <= i < |s.clients| :: |s.clients[i].received| == |s0.clients[i].todo|
  {
    NobodyWaitsIff(s.clients);
    RepliesCount(serve, s0.server.id, s0.state, Dispatched(s));
    forall i | 0 <= i < |s.clients|
      ensures |s.clients[i].received| == |s0.clients[i].todo|
    {
      assert SentBy(i, s.admitted) + s.clients[i].todo == s0.clients[i].todo;
    }
  }

  // How long runs are

  /** A client's steps still to come, with the server's nine for each request that it has not emitted yet. */
  function Ahead(c: ClientState): nat {
    17 * |c.todo| +
    match c.pc
    case Idle => 0
    case PutSender => 16
    case PutLength => 15
    case PutContent => 14
    case EmitRequest => 13
    case AwaitReply => 3
    case MeasureReply => 2
    case CopyReply => 1
  }

  function AllAhead(clients: seq<ClientState>): nat {
    if clients == [] then 0 else AllAhead(clients[..|clients| - 1]) + Ahead(clients[|clients| - 1])
  }

  function ServerAhead(pc: ServerPc): nat {
    match pc
    case AwaitRequest => 0
    case MeasureRequest => 8
    case CopyRequest => 7
    case Dispatch => 6
    case GiveSender => 5
    case GiveLength => 4
    case GiveContent => 3
    case EmitReply => 2
    case EmitWrite => 1
  }

  function Work<S>(s: State<S>): nat {
    AllAhead(s.clients) + 9 * s.sems.serverCanRead + ServerAhead(s.server.pc)
  }

  lemma {:induction false} AheadUpdate(clients: seq<ClientState>, i: nat, c: ClientState)
    requires i < |clients|
    ensures AllAhead(clients[i := c]) == AllAhead(clients) - Ahead(clients[i]) + Ahead(c)
  {
    var n := |clients| - 1;
    if i == n {
      assert clients[i := c][..n] == clients[..n];
    } else {
      assert clients[i := c][..n] == clients[..n][i := c];
      AheadUpdate(clients[..n], i, c);
    }
  }

  lemma ClientStepWorks<S>(s: State<S>, i: nat)
    requires Enabled(s, Client(i))
    ensures Work(ClientStep(s, i)) == Work(s) - 1
  {
    AheadUpdate(s.clients, i, ClientStep(s, i).clients[i]);
  }

  lemma ServerStepWorks<S>(serve: Service<S>, s: State<S>)
    requires Enabled(s, Server)
    ensures var silence := s.server.pc == Dispatch && serve(s.state, s.server.content).Silence?;
      Work(ServerStep(serve, s)) == Work(s) - if silence then 5 else 1
  {
  }

  /** How many of the scheduled steps were taken. */
  function Taken<S>(serve: Service<S>, s: State<S>, schedule: seq<Actor>): nat {
    if schedule == [] then 0
    else
      var before := schedule[..|schedule| - 1];
      Taken(serve, s, before) + if Enabled(After(serve, s, before), schedule[|schedule| - 1]) then 1 else 0
  }

  lemma StepWorks<S(!new)>(serve: Service<S>, s0: State<S>, s: State<S>, a: Actor)
    requires Inv(serve, s0, s) && Enabled(s, a)
    ensures var t := Step(serve, s, a);
      1 + Work(t) + 4 * Silenced(serve, s0, t) == Work(s) + 4 * Silenced(serve, s0, s)
  {
    match a
    case Server =>
      ServerStepWorks(serve, s);
      if s.server.pc == Dispatch { DispatchCounts(serve, s0, s); } else { OtherStepsDispatchNothing(serve, s0, s); }
    case Client(i) =>
      ClientStepWorks(s, i);
      ClientStepDispatched(s, i);
  }

  /** Steps taken, work left and the four server steps that each silence saves always add up to the initial work. */
  lemma {:induction false} RunLength<S(!new)>(serve: Service<S>, s0: State<S>, schedule: seq<Actor>)
    requires Initial(s0)
    ensures var s := After(serve, s0, schedule);
      Taken(serve, s0, schedule) + Work(s) + 4 * Silenced(serve, s0, s) == 17 * Queued(s0.clients) + 1
  {
    if schedule == [] {
      AheadIsQueued(s0.clients);
    } else {
      var before, a := schedule[..|schedule| - 1], schedule[|schedule| - 1];
      var mid := After(serve, s0, before);
      RunLength(serve, s0, before);
      AfterInv(serve, s0, before);
      if Enabled(mid, a) { StepWorks(serve, s0, mid, a); }
    }
  }

  function Queued(clients: seq<ClientState>): nat {
    if clients == [] then 0 else Queued(clients[..|clients| - 1]) + |clients[|clients| - 1].todo|
  }

  lemma {:induction false} AheadIsQueued(clients: seq<ClientState>)
    requires forall i | 0 <= i < |clients| :: clients[i].pc == Idle
    ensures AllAhead(clients) == 17 * Queued(clients)
  {
    if clients == [] {
    } else {
      AheadIsQueued(clients[..|clients| - 1]);
    }
  }

  /** Every run can be continued to a state where nothing moves. */
  lemma RunsEnd<S(!new)>(serve: Service<S>, s0: State<S>, schedule: seq<Actor>) returns (full: seq<Actor>)
    requires Initial(s0)
    ensures |full| >= |schedule| && full[..|schedule|] == schedule && Blocked(After(serve, s0, full))
    decreases Work(After(serve, s0, schedule))
  {
    var s := After(serve, s0, schedule);
    if Blocked(s) {
      full := schedule;
    } else {
      var a :| Enabled(s, a);
      match a {
        case Server => ServerStepWorks(serve, s);
        case Client(i) => ClientStepWorks(s, i);
      }
      assert (schedule + [a])[..|schedule|] == schedule;
      full := RunsEnd(serve, s0, schedule + [a]);
    }
  }
}
