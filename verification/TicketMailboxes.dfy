/** The ticket server with one mailbox per process: tickets, and who gets all its responses. */
module TicketMailboxes {
  import opened Messages
  import opened Movies
  import opened Sales
  import opened Wire
  import opened Service
  import opened TicketService
  import B = Mailbox
  import M = MailboxServer
  import P = PipeServer
  import Q = QueueServer
  import FS = FileServer

  /** No two responses received by any clients sell the same ticket, whatever else is requested. */
  lemma {:induction false} NoTicketSoldTwice(
    s0: M.State<Catalog>, schedule: seq<M.Actor>, i: nat, k: nat, j: nat, m: nat, t: int, u: int)
    requires M.Initial(s0) && Numbered(s0.state) && (i != j || k != m)
    requires var s := M.After(Serve, s0, schedule);
      && i < |s.clients| && k < |s.clients[i].received| && j < |s.clients| && m < |s.clients[j].received|
      && GetResponse(s.clients[i].received[k].content) == Some(Sold(t))
      && GetResponse(s.clients[j].received[m].content) == Some(Sold(u))
    ensures t != u
  {
    var s := M.After(Serve, s0, schedule);
    M.Linearizability(Serve, s0, schedule);
    var log := M.Dispatched(s);
    var replies := Replay(Serve, s0.server.id, s0.state, log).replies;
    var p := RepliesToAt(s0.clients[i].id, replies, k);
    var q := RepliesToAt(s0.clients[j].id, replies, m);
    RepliesNeverShareTickets(s0.server.id, s0.state, log, p, q, t, u);
  }

  /** The length that the response to a listing of so many movies has in its message. */
  function ListingLength(movies: nat): nat {
    (4 + MOVIE_SIZE * movies) % 0x1_0000
  }

  /** The request is short enough for the server to receive, is of known type, and its response is short enough for
      the client to receive. */
  predicate Good(limit: nat, movies: nat, request: Content) {
    && |request| <= limit && Known(request)
    && (GetRequest(request).ListMovies? ==> ListingLength(movies) <= limit)
  }

  lemma ResponseLength(db: Catalog, request: Content)
    requires Known(request)
    ensures var served := Serve(db, request);
      && served.Answered? && |served.state| == |db|
      && if GetRequest(request).ListMovies? then |served.content| == ListingLength(|db|)
         else |served.content| == if Answer(db, GetRequest(request)).Found? then 292 else 8
  {
    var b := PutResponse(Answer(db, GetRequest(request)));
    if !GetRequest(request).ListMovies? { assert Cut(b) == b; }
  }

  lemma {:induction false} ReplayKeepsCount(server: U16, db: Catalog, log: seq<Admission>)
    ensures |Replay(Serve, server, db, log).state| == |db|
  {
    if log == [] {
    } else {
      var n := |log| - 1;
      ReplayKeepsCount(server, db, log[..n]);
      if Known(log[n].request) {
        ResponseLength(Replay(Serve, server, db, log[..n]).state, log[n].request);
      }
    }
  }

  /** The server gets to a request that is too long, all earlier ones of the list being good. */
  ghost predicate Jams(limit: nat, movies: nat, list: seq<Content>) {
    exists k | 0 <= k < |list| :: |list[k]| > limit && forall q | 0 <= q < k :: Good(limit, movies, list[q])
  }

  ghost predicate AllGood(limit: nat, movies: nat, list: seq<Content>) {
    forall k | 0 <= k < |list| :: Good(limit, movies, list[k])
  }

  ghost predicate Finishes(s0: M.State<Catalog>, i: nat) {
    forall schedule | M.Blocked(M.After(Serve, s0, schedule)) && i < |M.After(Serve, s0, schedule).clients| ::
      M.Finished(M.After(Serve, s0, schedule).clients[i])
  }

  /** What a client's list and the others' must be like for it to get all its responses in every run. */
  ghost predicate Untroubled(s0: M.State<Catalog>, i: nat)
    requires i < |s0.clients|
  {
    || s0.clients[i].todo == []
    || (&& AllGood(s0.limit, |s0.state|, s0.clients[i].todo)
        && forall j | 0 <= j < |s0.clients| :: !Jams(s0.limit, |s0.state|, s0.clients[j].todo))
  }

  /** With queues a client gets all its responses in every run exactly when it asks nothing, or when all requests of its
      list are good and nobody's list brings a request before the server that is too long for it to receive. */
  lemma FinishesIff(s0: M.State<Catalog>, i: nat)
    requires M.Initial(s0) && s0.discipline == B.Queue && i < |s0.clients| && s0.limit >= 292
    ensures Finishes(s0, i) <==> Untroubled(s0, i)
  {
    if Untroubled(s0, i) {
      forall schedule | M.Blocked(M.After(Serve, s0, schedule)) && i < |M.After(Serve, s0, schedule).clients|
        ensures M.Finished(M.After(Serve, s0, schedule).clients[i])
      {
        UntroubledFinishes(s0, schedule, i);
      }
    }
    if Finishes(s0, i) && s0.clients[i].todo != [] {
      var full := M.RunsEnd(Serve, s0, []);
      M.Linearizability(Serve, s0, full);
      assert M.Blocked(M.After(Serve, s0, full));
      FinishedIsGood(s0, full, i);
      forall j | 0 <= j < |s0.clients|
        ensures !Jams(s0.limit, |s0.state|, s0.clients[j].todo)
      {
        if Jams(s0.limit, |s0.state|, s0.clients[j].todo) { JamStopsAll(s0, j, i); }
      }
    }
  }

  /** What has been received shows that its request was good. */
  lemma ReceivedIsGood(s0: M.State<Catalog>, schedule: seq<M.Actor>, i: nat, k: nat)
    requires M.Initial(s0) && i < |s0.clients| == |M.After(Serve, s0, schedule).clients|
    requires var s := M.After(Serve, s0, schedule);
      && s.server.pc == M.Listening && k < |s.clients[i].received|
      && AlwaysHeard(Serve, s0.server.id, s0.state, s.taken, s0.clients[i].id)
    ensures k < |s0.clients[i].todo| && Good(s0.limit, |s0.state|, s0.clients[i].todo[k])
  {
    var s := M.After(Serve, s0, schedule);
    M.AfterInv(Serve, s0, schedule);
    var log := M.MessageAnswers(Serve, s0, schedule, i, k);
    var db, request := Replay(Serve, s0.server.id, s0.state, log).state, s0.clients[i].todo[k];
    ReplayKeepsCount(s0.server.id, s0.state, log);
    assert Known(request);
    ResponseLength(db, request);
    assert (s.clients[i].received + s.clients[i].inbox)[k] == s.clients[i].received[k];
    assert |s.clients[i].received[k].content| <= s.limit;
  }

  lemma FinishedIsGood(s0: M.State<Catalog>, schedule: seq<M.Actor>, i: nat)
    requires M.Initial(s0) && M.Blocked(M.After(Serve, s0, schedule))
    requires i < |s0.clients| == |M.After(Serve, s0, schedule).clients|
    requires M.Finished(M.After(Serve, s0, schedule).clients[i])
    ensures AllGood(s0.limit, |s0.state|, s0.clients[i].todo)
  {
    M.FinishedIff(Serve, s0, schedule, i);
    forall k | 0 <= k < |s0.clients[i].todo|
      ensures Good(s0.limit, |s0.state|, s0.clients[i].todo[k])
    {
      ReceivedIsGood(s0, schedule, i, k);
    }
  }

  lemma KnownIsAlwaysHeard(server: U16, db: Catalog, id: U16, log: seq<Admission>, list: seq<Content>)
    requires SentBy(id, log) <= list && forall k | 0 <= k < |list| :: Known(list[k])
    ensures AlwaysHeard(Serve, server, db, log, id)
  {
    forall p | 0 <= p < |log| && log[p].client == id
      ensures Serve(Replay(Serve, server, db, log[..p]).state, log[p].request).Answered?
    {
      SentByPrefix(id, log, p);
      assert list[|SentBy(id, log[..p])|] == log[p].request;
      ServeIff(Replay(Serve, server, db, log[..p]).state, log[p].request);
    }
  }

  /** A message left at the server when nothing moves belongs to a list that jams it. */
  lemma LeftoverJams(s0: M.State<Catalog>, schedule: seq<M.Actor>) returns (j: nat)
    requires M.Initial(s0) && s0.discipline == B.Queue && M.Blocked(M.After(Serve, s0, schedule))
    requires M.After(Serve, s0, schedule).server.inbox != [] && s0.clients != []
    ensures j < |s0.clients| && Jams(s0.limit, |s0.state|, s0.clients[j].todo)
  {
    var s := M.After(Serve, s0, schedule);
    M.AfterInv(Serve, s0, schedule);
    var m := s.server.inbox[0];
    assert M.IsClient(s.clients, m.sender);
    j :| 0 <= j < |s.clients| && s.clients[j].id == m.sender;
    assert M.Served(s0.clients[j], s.clients[j], s.server, s.taken,
                    Replay(Serve, s0.server.id, s0.state, M.Dispatched(s)).replies);
    M.FinishedIff(Serve, s0, schedule, j);
    B.FromRest(m.sender, s.server.inbox);
    M.WaitingIsHeard(Serve, s0, schedule, j);
    var k := |SentBy(s0.clients[j].id, s.taken)|;
    assert s0.clients[j].todo[k] == m.content;
    forall q | 0 <= q < k
      ensures Good(s0.limit, |s0.state|, s0.clients[j].todo[q])
    {
      ReceivedIsGood(s0, schedule, j, q);
    }
  }

  /** When all its requests are good, nothing that is too long waits for a client. */
  lemma NothingLeftWaiting(s0: M.State<Catalog>, schedule: seq<M.Actor>, i: nat)
    requires M.Initial(s0) && M.Blocked(M.After(Serve, s0, schedule)) && s0.limit >= 292
    requires i < |s0.clients| == |M.After(Serve, s0, schedule).clients|
    requires AllGood(s0.limit, |s0.state|, s0.clients[i].todo)
    requires AlwaysHeard(Serve, s0.server.id, s0.state, M.After(Serve, s0, schedule).taken, s0.clients[i].id)
    ensures M.After(Serve, s0, schedule).clients[i].inbox == []
  {
    var c := M.After(Serve, s0, schedule).clients[i];
    M.FinishedIff(Serve, s0, schedule, i);
    if c.inbox != [] {
      var n := if s0.discipline == B.Queue then 0 else |c.inbox| - 1;
      assert (c.received + c.inbox)[|c.received| + n] == M.Choice(s0.discipline, c.inbox);
      MessageFits(s0, schedule, i, |c.received| + n);
    }
  }

  lemma MessageFits(s0: M.State<Catalog>, schedule: seq<M.Actor>, i: nat, k: nat)
    requires M.Initial(s0) && s0.limit >= 292
    requires i < |s0.clients| == |M.After(Serve, s0, schedule).clients|
    requires AllGood(s0.limit, |s0.state|, s0.clients[i].todo)
    requires var s := M.After(Serve, s0, schedule);
      && s.server.pc == M.Listening && k < |s.clients[i].received + s.clients[i].inbox|
      && AlwaysHeard(Serve, s0.server.id, s0.state, s.taken, s0.clients[i].id)
    ensures var c := M.After(Serve, s0, schedule).clients[i];
      |(c.received + c.inbox)[k].content| <= s0.limit
  {
    var log := M.MessageAnswers(Serve, s0, schedule, i, k);
    ReplayKeepsCount(s0.server.id, s0.state, log);
    assert Good(s0.limit, |s0.state|, s0.clients[i].todo[k]);
    ResponseLength(Replay(Serve, s0.server.id, s0.state, log).state, s0.clients[i].todo[k]);
  }

  lemma UntroubledFinishes(s0: M.State<Catalog>, schedule: seq<M.Actor>, i: nat)
    requires M.Initial(s0) && M.Blocked(M.After(Serve, s0, schedule)) && s0.limit >= 292
    requires s0.discipline == B.Queue && i < |s0.clients| && Untroubled(s0, i)
    ensures i < |M.After(Serve, s0, schedule).clients| && M.Finished(M.After(Serve, s0, schedule).clients[i])
  {
    if s0.clients[i].todo == [] {
      M.AsksNothing(Serve, s0, schedule, i);
    } else {
      if M.After(Serve, s0, schedule).server.inbox != [] { var j := LeftoverJams(s0, schedule); }
      M.Linearizability(Serve, s0, schedule);
      KnownIsAlwaysHeard(s0.server.id, s0.state, s0.clients[i].id, M.After(Serve, s0, schedule).taken,
                         s0.clients[i].todo);
      NothingLeftWaiting(s0, schedule, i);
      M.FinishedIff(Serve, s0, schedule, i);
    }
  }

  /** When client j's list jams the server, there is a run in which client i, be it j or another, is left waiting. */
  lemma JamStopsAll(s0: M.State<Catalog>, j: nat, i: nat)
    requires M.Initial(s0) && s0.discipline == B.Queue && j < |s0.clients| && i < |s0.clients|
    requires s0.limit >= 292
    requires Jams(s0.limit, |s0.state|, s0.clients[j].todo) && s0.clients[i].todo != []
    ensures !Finishes(s0, i)
  {
    var id, list := s0.clients[j].id, s0.clients[j].todo;
    var k: nat :| k < |list| && |list[k]| > s0.limit && forall q | 0 <= q < k :: Good(s0.limit, |s0.state|, list[q]);
    forall q: nat | q < k
      ensures M.RoundWorks(Serve, s0, id, list, q)
    {
      var log := Own(id, list[..q]);
      ReplayKeepsCount(s0.server.id, s0.state, log);
      assert Good(s0.limit, |s0.state|, list[q]);
      ResponseLength(Replay(Serve, s0.server.id, s0.state, log).state, list[q]);
    }
    var full := M.JamRun(Serve, s0, j, k);
    M.FinishedIff(Serve, s0, full, i);
    OwnIsSentBy(id, list[..k], s0.clients[i].id);
    assert M.Blocked(M.After(Serve, s0, full));
  }

  // Over pipes

  /** No two responses received over pipes sell the same ticket. */
  lemma PipesNeverShareTickets(
    s0: P.State<Catalog>, schedule: seq<M.Actor>, i: nat, k: nat, j: nat, m: nat, t: int, u: int)
    requires P.Initial(s0) && Numbered(s0.state) && (i != j || k != m)
    requires var s := P.After(Serve, s0, schedule);
      && i < |s.clients| && k < |P.Received(s.clients[i])| && j < |s.clients| && m < |P.Received(s.clients[j])|
      && GetResponse(P.Received(s.clients[i])[k].content) == Some(Sold(t))
      && GetResponse(P.Received(s.clients[j])[m].content) == Some(Sold(u))
    ensures t != u
  {
    var s := P.After(Serve, s0, schedule);
    P.Linearizability(Serve, s0, schedule);
    var log := M.Dispatched(P.View(s));
    var replies := Replay(Serve, s0.server.id, s0.state, log).replies;
    var p := RepliesToAt(s0.clients[i].id, replies, k);
    var q := RepliesToAt(s0.clients[j].id, replies, m);
    RepliesNeverShareTickets(s0.server.id, s0.state, log, p, q, t, u);
  }

  ghost predicate PipeClientFinishes(s0: P.State<Catalog>, i: nat) {
    forall schedule | P.Blocked(P.After(Serve, s0, schedule)) && i < |P.After(Serve, s0, schedule).clients| ::
      P.Finished(P.After(Serve, s0, schedule).clients[i])
  }

  lemma PipeBlocked(s0: P.State<Catalog>, schedule: seq<M.Actor>) returns (r: seq<M.Actor>)
    requires P.Initial(s0) && P.Blocked(P.After(Serve, s0, schedule))
    ensures M.Initial(P.View(s0)) && M.Blocked(M.After(Serve, P.View(s0), r))
    ensures P.View(P.After(Serve, s0, schedule)) == M.After(Serve, P.View(s0), r)
  {
    r := P.AfterRefines(Serve, s0, schedule);
    M.AfterInv(Serve, P.View(s0), r);
    P.BlockedRefines(P.After(Serve, s0, schedule));
  }

  lemma PipeListsAreGood(limit: nat, movies: nat, list: seq<Content>)
    requires limit >= 0xFFFF
    ensures !Jams(limit, movies, list)
    ensures AllGood(limit, movies, list) <==> forall k | 0 <= k < |list| :: Known(list[k])
  {
    if AllGood(limit, movies, list) {
      forall k | 0 <= k < |list|
        ensures Known(list[k])
      {
        assert Good(limit, movies, list[k]);
      }
    }
  }

  /** Over pipes, byte for byte: a client gets all its responses in every run exactly when all requests of its own list
      are of known type. Others' requests cannot hold it up. */
  lemma PipeClientFinishesIff(s0: P.State<Catalog>, i: nat)
    requires P.Initial(s0) && i < |s0.clients|
    ensures PipeClientFinishes(s0, i) <==> forall k | 0 <= k < |s0.clients[i].todo| :: Known(s0.clients[i].todo[k])
  {
    P.InitialRefines(s0);
    var v0, list := P.View(s0), s0.clients[i].todo;
    PipeListsAreGood(P.LIMIT, |s0.state|, list);
    if forall k | 0 <= k < |list| :: Known(list[k]) {
      forall schedule | P.Blocked(P.After(Serve, s0, schedule)) && i < |P.After(Serve, s0, schedule).clients|
        ensures P.Finished(P.After(Serve, s0, schedule).clients[i])
      {
        var r := PipeBlocked(s0, schedule);
        forall j | 0 <= j < |v0.clients| {
          PipeListsAreGood(P.LIMIT, |s0.state|, v0.clients[j].todo);
        }
        UntroubledFinishes(v0, r, i);
      }
    }
    if PipeClientFinishes(s0, i) {
      var full := P.RunsEnd(Serve, s0, []);
      var r := PipeBlocked(s0, full);
      M.Linearizability(Serve, v0, r);
      assert P.Finished(P.After(Serve, s0, full).clients[i]);
      FinishedIsGood(v0, r, i);
    }
  }

  // Over the message queue

  /** No two responses received over the message queue sell the same ticket. */
  lemma QueueNeverSharesTickets(
    s0: Q.State<Catalog>, schedule: seq<M.Actor>, i: nat, k: nat, j: nat, m: nat, t: int, u: int)
    requires Q.Initial(s0) && Numbered(s0.state) && (i != j || k != m)
    requires var s := Q.After(Serve, s0, schedule);
      && i < |s.clients| && k < |s.clients[i].received| && j < |s.clients| && m < |s.clients[j].received|
      && GetResponse(s.clients[i].received[k].content) == Some(Sold(t))
      && GetResponse(s.clients[j].received[m].content) == Some(Sold(u))
    ensures t != u
  {
    Q.AfterRefines(Serve, s0, schedule);
    Q.InitialRefines(s0);
    var s := Q.After(Serve, s0, schedule);
    assert Q.View(s).clients[i].received == s.clients[i].received;
    assert Q.View(s).clients[j].received == s.clients[j].received;
    NoTicketSoldTwice(Q.View(s0), schedule, i, k, j, m, t, u);
  }

  ghost predicate QueueClientFinishes(s0: Q.State<Catalog>, i: nat) {
    forall schedule | Q.Blocked(Q.After(Serve, s0, schedule)) && i < |Q.After(Serve, s0, schedule).clients| ::
      Q.Finished(Q.After(Serve, s0, schedule).clients[i])
  }

  lemma QueueFinishesAsMailboxes(s0: Q.State<Catalog>, i: nat)
    requires Q.Initial(s0) && i < |s0.clients|
    ensures QueueClientFinishes(s0, i) <==> Finishes(Q.View(s0), i)
  {
    forall schedule
      ensures var s, v := Q.After(Serve, s0, schedule), M.After(Serve, Q.View(s0), schedule);
        && |v.clients| == |s.clients| && (Q.Blocked(s) <==> M.Blocked(v))
        && (i < |s.clients| ==> (Q.Finished(s.clients[i]) <==> M.Finished(v.clients[i])))
    {
      Q.AfterRefines(Serve, s0, schedule);
      Q.BlockedRefines(Q.After(Serve, s0, schedule));
    }
  }

  /** Over the message queue a client gets all its responses in every run exactly when it asks nothing, or when all its
      requests are of known type and fit the receiver's buffer, as does the listing if it asks for one, and nobody's
      list brings a request before the server that does not fit. */
  lemma QueueClientFinishesIff(s0: Q.State<Catalog>, i: nat)
    requires Q.Initial(s0) && i < |s0.clients|
    ensures QueueClientFinishes(s0, i) <==>
      || s0.clients[i].todo == []
      || (&& AllGood(Q.LIMIT, |s0.state|, s0.clients[i].todo)
          && forall j | 0 <= j < |s0.clients| :: !Jams(Q.LIMIT, |s0.state|, s0.clients[j].todo))
  {
    QueueFinishesAsMailboxes(s0, i);
    Q.InitialRefines(s0);
    FinishesIff(Q.View(s0), i);
    forall j | 0 <= j < |s0.clients|
      ensures Q.View(s0).clients[j].todo == s0.clients[j].todo
    {
    }
  }

  /** Of the listings that can be read back at all, the message queue delivers those of up to 36 movies. */
  lemma QueueListingIff(movies: nat)
    requires movies <= 230
    ensures ListingLength(movies) <= Q.LIMIT <==> movies <= 36
  {
  }

  /** So a client that asks for the list alone gets it, in every run, exactly when there are no more than that. */
  lemma LoneListingIff(s0: Q.State<Catalog>)
    requires Q.Initial(s0) && |s0.clients| == 1 && |s0.state| <= 230
    requires s0.clients[0].todo == [PutRequest(ListMovies)]
    ensures QueueClientFinishes(s0, 0) <==> |s0.state| <= 36
  {
    var list := s0.clients[0].todo;
    QueueClientFinishesIff(s0, 0);
    RequestRoundTrip(ListMovies);
    QueueListingIff(|s0.state|);
    assert Good(Q.LIMIT, |s0.state|, list[0]) <==> |s0.state| <= 36;
  }

  // Over inbox files

  /** Over inbox files everybody is served in every run, each response being right, exactly when at most one client asks
      anything and all its requests are of known type: with two, a request can land in the middle of a receive. */
  lemma FilesServeIff(s0: FS.State<Catalog>)
    requires FS.Initial(s0)
    ensures FS.EveryRunServes(Serve, s0) <==>
      && (forall i, j | 0 <= i < j < |s0.clients| :: s0.clients[i].todo == [] || s0.clients[j].todo == [])
      && (forall i, k | 0 <= i < |s0.clients| && 0 <= k < |s0.clients[i].todo| :: Known(s0.clients[i].todo[k]))
  {
    FS.EveryRunServesIff(Serve, s0);
    forall i | 0 <= i < |s0.clients|
      ensures NoSilence(Serve, s0.server.id, s0.state, Own(s0.clients[i].id, s0.clients[i].todo))
        <==> forall k | 0 <= k < |s0.clients[i].todo| :: Known(s0.clients[i].todo[k])
    {
      OwnIsHeardIff(s0.server.id, s0.state, s0.clients[i].id, s0.clients[i].todo);
    }
  }

  /** Over inbox files, in a run in which no send lands in a receive, no two responses sell the same ticket. */
  lemma FilesNeverShareTickets(
    s0: FS.State<Catalog>, schedule: seq<M.Actor>, i: nat, k: nat, j: nat, m: nat, t: int, u: int)
    requires FS.Initial(s0) && FS.Undisturbed(Serve, s0, schedule) && Numbered(s0.state) && (i != j || k != m)
    requires var s := FS.After(Serve, s0, schedule);
      && i < |s.clients| && k < |s.clients[i].received| && j < |s.clients| && m < |s.clients[j].received|
      && GetResponse(s.clients[i].received[k].content) == Some(Sold(t))
      && GetResponse(s.clients[j].received[m].content) == Some(Sold(u))
    ensures t != u
  {
    var s := FS.After(Serve, s0, schedule);
    FS.Linearizability(Serve, s0, schedule);
    var log := M.Dispatched(FS.View(s));
    var replies := Replay(Serve, s0.server.id, s0.state, log).replies;
    var p := RepliesToAt(s0.clients[i].id, replies, k);
    var q := RepliesToAt(s0.clients[j].id, replies, m);
    RepliesNeverShareTickets(s0.server.id, s0.state, log, p, q, t, u);
  }

  /** The client has all its responses at the end of every run in which no send lands in a receive. */
  ghost predicate UndisturbedFinishes(s0: FS.State<Catalog>, i: nat) {
    forall schedule | FS.Undisturbed(Serve, s0, schedule) && FS.Blocked(FS.After(Serve, s0, schedule))
      && i < |FS.After(Serve, s0, schedule).clients| ::
      FS.Finished(FS.After(Serve, s0, schedule).clients[i])
  }

  lemma HeardIsKnown(server: U16, db: Catalog, log: seq<Admission>, id: U16, k: nat)
    requires AlwaysHeard(Serve, server, db, log, id) && k < |SentBy(id, log)|
    ensures Known(SentBy(id, log)[k])
  {
    var p := SentByAt(id, log, k);
    ServeIff(Replay(Serve, server, db, log[..p]).state, log[p].request);
  }

  /** Over inbox files, with any number of clients: a client gets all its responses in every run in which no send lands
      in a receive, exactly when all requests of its own list are of known type. */
  lemma UndisturbedFinishesIff(s0: FS.State<Catalog>, i: nat)
    requires FS.Initial(s0) && i < |s0.clients|
    ensures UndisturbedFinishes(s0, i) <==> forall k | 0 <= k < |s0.clients[i].todo| :: Known(s0.clients[i].todo[k])
  {
    var id, list := s0.clients[i].id, s0.clients[i].todo;
    if forall k | 0 <= k < |list| :: Known(list[k]) {
      forall schedule | FS.Undisturbed(Serve, s0, schedule) && FS.Blocked(FS.After(Serve, s0, schedule))
        && i < |FS.After(Serve, s0, schedule).clients|
        ensures FS.Finished(FS.After(Serve, s0, schedule).clients[i])
      {
        FS.Linearizability(Serve, s0, schedule);
        KnownIsAlwaysHeard(s0.server.id, s0.state, id, FS.After(Serve, s0, schedule).taken, list);
        FS.FinishedIff(Serve, s0, schedule, i);
      }
    }
    if UndisturbedFinishes(s0, i) {
      var full := FS.UndisturbedRunsEnd(Serve, s0, []);
      FS.FinishedIff(Serve, s0, full, i);
      forall k | 0 <= k < |list|
        ensures Known(list[k])
      {
        HeardIsKnown(s0.server.id, s0.state, FS.After(Serve, s0, full).taken, id, k);
      }
    }
  }

  lemma OwnIsHeardIff(server: U16, db: Catalog, id: U16, list: seq<Content>)
    ensures NoSilence(Serve, server, db, Own(id, list)) <==> forall k | 0 <= k < |list| :: Known(list[k])
  {
    forall k | 0 <= k < |list|
      ensures Serve(Replay(Serve, server, db, Own(id, list)[..k]).state, Own(id, list)[k].request).Answered?
        <==> Known(list[k])
    {
      ServeIff(Replay(Serve, server, db, Own(id, list)[..k]).state, list[k]);
    }
  }
}
