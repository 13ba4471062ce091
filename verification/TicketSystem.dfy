/** The whole system: clients, four semaphores, one slot of shared memory, one ticket server. */
module TicketSystem {
  import opened Messages
  import opened Movies
  import opened Sales
  import opened Wire
  import opened Service
  import opened TicketService
  import opened FourSemaphores
  import opened FourSemaphoresProofs
  import T = ThreeSemaphores
  import TP = ThreeSemaphoresProofs
  import TR = ThreeSemaphoresProgress

  type TicketState = State<Catalog>

  /** No two responses received anywhere in the system, by whichever clients, sell the same ticket. */
  lemma {:induction false} NoTicketSoldTwice(
    s0: TicketState, schedule: seq<Actor>, i: nat, k: nat, j: nat, m: nat, t: int, u: int)
    requires Initial(s0) && Numbered(s0.state) && (i != j || k != m)
    requires var s := After(Serve, s0, schedule);
      && i < |s.clients| && k < |s.clients[i].received| && j < |s.clients| && m < |s.clients[j].received|
      && GetResponse(s.clients[i].received[k].content) == Some(Sold(t))
      && GetResponse(s.clients[j].received[m].content) == Some(Sold(u))
    ensures t != u
  {
    var p := ResponseAt(Serve, s0, schedule, i, k);
    var q := ResponseAt(Serve, s0, schedule, j, m);
    RepliesNeverShareTickets(s0.server.id, s0.state, Completed(After(Serve, s0, schedule)), p, q, t, u);
  }

  /** The k-th response of a client answers the k-th request of its list, and its handler reads back what the
      server meant exactly when that is not a listing of more than 230 movies. */
  lemma {:induction false} ClientReads(s0: TicketState, schedule: seq<Actor>, i: nat, k: nat)
    returns (log: seq<Admission>)
    requires Initial(s0) && Numbered(s0.state)
    requires i < |After(Serve, s0, schedule).clients| && k < |After(Serve, s0, schedule).clients[i].received|
    ensures var s := After(Serve, s0, schedule);
      && |s.clients| == |s0.clients| && k < |s0.clients[i].todo|
      && log < s.admitted && s.admitted[|log|] == Admission(i, s0.clients[i].todo[k])
      && !GetRequest(s0.clients[i].todo[k]).Unknown?
      && var answer := Answer(Run(s0.state, Requests(log)).db, GetRequest(s0.clients[i].todo[k]));
        && s.clients[i].received[k] == Letter(s0.server.id, Cut(PutResponse(answer)))
        && (GetResponse(s.clients[i].received[k].content) == Some(answer)
            <==> (answer.Listing? ==> |s0.state| <= 230))
  {
    log := NthResponse(Serve, s0, schedule, i, k);
    ReplayIsRun(s0.server.id, s0.state, log);
    RunInvariant(s0.state, Requests(log));
    ServeIff(Run(s0.state, Requests(log)).db, s0.clients[i].todo[k]);
    AnswerReadBack(Run(s0.state, Requests(log)).db, GetRequest(s0.clients[i].todo[k]));
  }

  ghost predicate AllListsKnown(s0: TicketState) {
    forall i, k | 0 <= i < |s0.clients| && 0 <= k < |s0.clients[i].todo| :: Known(s0.clients[i].todo[k])
  }

  ghost predicate EveryRunFinishes(s0: TicketState) {
    forall schedule :: Blocked(After(Serve, s0, schedule)) ==> Finished(After(Serve, s0, schedule))
  }

  /** Every run ends with all requests answered exactly when no client sends a request of unknown type. */
  lemma EveryRunFinishesIff(s0: TicketState)
    requires Initial(s0)
    ensures EveryRunFinishes(s0) <==> AllListsKnown(s0)
  {
    if AllListsKnown(s0) {
      forall schedule | Blocked(After(Serve, s0, schedule))
        ensures Finished(After(Serve, s0, schedule))
      {
        KnownRunFinishes(s0, schedule);
      }
    }
    if EveryRunFinishes(s0) {
      var full := RunsEnd(Serve, s0, []);
      assert Blocked(After(Serve, s0, full));
      FinishedMeansKnown(s0, full);
    }
  }

  lemma AdmittedIsKnown(s0: TicketState, s: TicketState, p: nat)
    requires AllListsKnown(s0) && Sent(s0, s) && p < |s.admitted|
    ensures Known(s.admitted[p].request)
  {
    var a := s.admitted[p];
    SentByPrefix(a.client, s.admitted, p);
    assert SentBy(a.client, s.admitted) + s.clients[a.client].todo == s0.clients[a.client].todo;
    assert s0.clients[a.client].todo[|SentBy(a.client, s.admitted[..p])|] == a.request;
  }

  lemma KnownRunFinishes(s0: TicketState, schedule: seq<Actor>)
    requires Initial(s0) && AllListsKnown(s0) && Blocked(After(Serve, s0, schedule))
    ensures Finished(After(Serve, s0, schedule))
  {
    var s := After(Serve, s0, schedule);
    BlockedIff(Serve, s0, schedule);
    if Dropped(s) {
      Linearizability(Serve, s0, schedule);
      var n := |s.admitted| - 1;
      AdmittedIsKnown(s0, s, n);
      ServeIff(Replay(Serve, s0.server.id, s0.state, s.admitted[..n]).state, s.admitted[n].request);
    }
  }

  lemma FinishedMeansKnown(s0: TicketState, schedule: seq<Actor>)
    requires Initial(s0) && Finished(After(Serve, s0, schedule))
    ensures AllListsKnown(s0)
  {
    var s := After(Serve, s0, schedule);
    Linearizability(Serve, s0, schedule);
    RepliesCount(Serve, s0.server.id, s0.state, s.admitted);
    forall i, k | 0 <= i < |s0.clients| && 0 <= k < |s0.clients[i].todo|
      ensures Known(s0.clients[i].todo[k])
    {
      assert SentBy(i, s.admitted) + s.clients[i].todo == s0.clients[i].todo;
      var p := SentByAt(i, s.admitted, k);
      ServeIff(Replay(Serve, s0.server.id, s0.state, s.admitted[..p]).state, s.admitted[p].request);
    }
  }

  /** What the users of the clients ask for, and what the clients therefore send. */
  ghost predicate ListsAsk(s0: TicketState, asked: seq<seq<Request>>) {
    && |asked| == |s0.clients|
    && forall i | 0 <= i < |asked| ::
      && |asked[i]| == |s0.clients[i].todo|
      && forall k | 0 <= k < |asked[i]| :: Askable(asked[i][k]) && s0.clients[i].todo[k] == PutRequest(asked[i][k])
  }

  /** From the request that a user means to the response that its client reads: the k-th response says what the
      database, after exactly the requests admitted before, answers to the k-th request, with the number of a movie
      to buy cut to 16 bits; and it is read as that, except for a listing of more than 230 movies. */
  lemma {:induction false} ClientGetsWhatItAsks(
    s0: TicketState, schedule: seq<Actor>, asked: seq<seq<Request>>, i: nat, k: nat) returns (log: seq<Admission>)
    requires Initial(s0) && Numbered(s0.state) && ListsAsk(s0, asked)
    requires i < |After(Serve, s0, schedule).clients| && k < |After(Serve, s0, schedule).clients[i].received|
    ensures var s := After(Serve, s0, schedule);
      && i < |asked| && k < |asked[i]| && log < s.admitted
      && s.admitted[|log|] == Admission(i, s0.clients[i].todo[k]) && |SentBy(i, log)| == k
      && (GetResponse(s.clients[i].received[k].content)
            == Some(Answer(Run(s0.state, Requests(log)).db, Arrived(asked[i][k])))
          <==> (asked[i][k].ListMovies? ==> |s0.state| <= 230))
      && forall q | 0 <= q < |log| :: AsMeant(asked, log, q)
  {
    var s := After(Serve, s0, schedule);
    log := NthResponse(Serve, s0, schedule, i, k);
    ReplayIsRun(s0.server.id, s0.state, log);
    RunInvariant(s0.state, Requests(log));
    AskedAndAnswered(Run(s0.state, Requests(log)).db, asked[i][k]);
    Linearizability(Serve, s0, schedule);
    forall q | 0 <= q < |log|
      ensures AsMeant(asked, log, q)
    {
      AdmittedAsMeant(s0, s, asked, log, q);
    }
  }

  /** Request q of the log is the next one that its client's user asked for. */
  predicate AsMeant(asked: seq<seq<Request>>, log: seq<Admission>, q: nat)
    requires q < |log|
  {
    var client, k := log[q].client, |SentBy(log[q].client, log[..q])|;
    client < |asked| && k < |asked[client]| && Requests(log)[q] == Arrived(asked[client][k])
  }

  lemma AdmittedAsMeant(s0: TicketState, s: TicketState, asked: seq<seq<Request>>, log: seq<Admission>, q: nat)
    requires ListsAsk(s0, asked) && Sent(s0, s) && log < s.admitted && q < |log|
    ensures AsMeant(asked, log, q)
  {
    var a := s.admitted[q];
    SentByPrefix(a.client, s.admitted, q);
    assert log[..q] == s.admitted[..q];
    assert SentBy(a.client, s.admitted) + s.clients[a.client].todo == s0.clients[a.client].todo;
    var k := |SentBy(a.client, s.admitted[..q])|;
    assert s0.clients[a.client].todo[k] == a.request;
    RequestRoundTrip(asked[a.client][k]);
  }

  /** Clients that ask through the menu always get all their responses. */
  lemma AskingAlwaysFinishes(s0: TicketState, asked: seq<seq<Request>>)
    requires Initial(s0) && ListsAsk(s0, asked)
    ensures EveryRunFinishes(s0)
  {
    forall i, k | 0 <= i < |s0.clients| && 0 <= k < |s0.clients[i].todo|
      ensures Known(s0.clients[i].todo[k])
    {
      RequestRoundTrip(asked[i][k]);
    }
    EveryRunFinishesIff(s0);
  }

  /** The numbering holds in every reachable state, not only between requests. */
  lemma {:induction false} DatabaseAlwaysNumbered(s0: TicketState, schedule: seq<Actor>)
    requires Initial(s0) && Numbered(s0.state)
    ensures Numbered(After(Serve, s0, schedule).state)
    ensures |After(Serve, s0, schedule).state| == |s0.state|
  {
    var s := After(Serve, s0, schedule);
    Linearizability(Serve, s0, schedule);
    var log := if s.state == Replay(Serve, s0.server.id, s0.state, s.admitted).state then s.admitted else Completed(s);
    ReplayIsRun(s0.server.id, s0.state, log);
    RunInvariant(s0.state, Requests(log));
  }

  /** The same server over three semaphores: what clients receive is right in every run exactly when at most one
      client asks anything, or when every list starts with a request of unknown type. */
  lemma ThreeSemaphoresServeOneClient(s0: T.State<Catalog>)
    requires T.Initial(s0)
    requires forall i | 0 <= i < |s0.clients| :: s0.clients[i].id != s0.server.id
    ensures TP.EveryRunFaithful(Serve, s0) <==>
      || (forall i, j | 0 <= i < j < |s0.clients| :: s0.clients[i].todo == [] || s0.clients[j].todo == [])
      || (forall i | 0 <= i < |s0.clients| && s0.clients[i].todo != [] :: !Known(s0.clients[i].todo[0]))
  {
    TP.ResponsesFaithfulIff(Serve, s0);
    forall i | 0 <= i < |s0.clients| && s0.clients[i].todo != []
      ensures Serve(s0.state, s0.clients[i].todo[0]).Silence? <==> !Known(s0.clients[i].todo[0])
    {
      ServeIff(s0.state, s0.clients[i].todo[0]);
    }
  }

  ghost predicate ThreeSemaphoresFinish(s0: T.State<Catalog>) {
    forall schedule :: TR.Blocked(T.After(Serve, s0, schedule)) ==> TR.Finished(T.After(Serve, s0, schedule))
  }

  /** Over three semaphores too, every run ends with a response for every request exactly when no client sends a
      request of unknown type; whose responses these are is the matter of `ThreeSemaphoresServeOneClient`. */
  lemma ThreeSemaphoresFinishIff(s0: T.State<Catalog>)
    requires T.Initial(s0)
    ensures ThreeSemaphoresFinish(s0) <==>
      forall i, k | 0 <= i < |s0.clients| && 0 <= k < |s0.clients[i].todo| :: Known(s0.clients[i].todo[k])
  {
    if forall i, k | 0 <= i < |s0.clients| && 0 <= k < |s0.clients[i].todo| :: Known(s0.clients[i].todo[k]) {
      forall schedule | TR.Blocked(T.After(Serve, s0, schedule))
        ensures TR.Finished(T.After(Serve, s0, schedule))
      {
        TR.BlockedIff(Serve, s0, schedule);
        KnownIsNeverSilenced(s0, schedule);
      }
    }
    if ThreeSemaphoresFinish(s0) {
      var full := TR.RunsEnd(Serve, s0, []);
      assert TR.Blocked(T.After(Serve, s0, full));
      forall i, k | 0 <= i < |s0.clients| && 0 <= k < |s0.clients[i].todo|
        ensures Known(s0.clients[i].todo[k])
      {
        FinishedAnsweredKnown(s0, full, i, k);
      }
    }
  }

  lemma KnownIsNeverSilenced(s0: T.State<Catalog>, schedule: seq<T.Actor>)
    requires T.Initial(s0)
    requires forall i, k | 0 <= i < |s0.clients| && 0 <= k < |s0.clients[i].todo| :: Known(s0.clients[i].todo[k])
    ensures TR.Silenced(Serve, s0, T.After(Serve, s0, schedule)) == 0
  {
    var s := T.After(Serve, s0, schedule);
    TR.AfterTally(Serve, s0, schedule);
    var log := TR.Dispatched(s);
    forall p | 0 <= p < |log|
      ensures Serve(Replay(Serve, s0.server.id, s0.state, log[..p]).state, log[p].request).Answered?
    {
      var a := s.admitted[p];
      SentByPrefix(a.client, s.admitted, p);
      assert SentBy(a.client, s.admitted) + s.clients[a.client].todo == s0.clients[a.client].todo;
      assert s0.clients[a.client].todo[|SentBy(a.client, s.admitted[..p])|] == a.request;
      ServeIff(Replay(Serve, s0.server.id, s0.state, log[..p]).state, log[p].request);
    }
    RepliesCount(Serve, s0.server.id, s0.state, log);
  }

  lemma FinishedAnsweredKnown(s0: T.State<Catalog>, schedule: seq<T.Actor>, i: nat, k: nat)
    requires T.Initial(s0) && TR.Finished(T.After(Serve, s0, schedule))
    requires i < |s0.clients| && k < |s0.clients[i].todo|
    ensures Known(s0.clients[i].todo[k])
  {
    var s := T.After(Serve, s0, schedule);
    TR.BlockedIff(Serve, s0, schedule);
    TP.RequestsInOrder(Serve, s0, schedule);
    RepliesCount(Serve, s0.server.id, s0.state, s.admitted);
    assert SentBy(i, s.admitted) + s.clients[i].todo == s0.clients[i].todo;
    var p := SentByAt(i, s.admitted, k);
    ServeIff(Replay(Serve, s0.server.id, s0.state, s.admitted[..p]).state, s.admitted[p].request);
  }
}
