/** A server that answers one request at a time, and the sequential run that every transport is measured by. */
module Service {
  import opened Messages

  /** What one request does: nothing at all, or a new state and a response. */
  datatype Served<S> = Silence | Answered(state: S, content: Content)

  /** The body of the server's loop, as a function of its state and the bytes of a request. */
  type Service<!S> = (S, Content) -> Served<S>

  datatype Admission = Admission(client: nat, request: Content)
  datatype Reply = Reply(client: nat, message: Message)
  datatype Ledger<S> = Ledger(state: S, replies: seq<Reply>)

  function Enter<S>(server: U16, l: Ledger<S>, client: nat, served: Served<S>): Ledger<S> {
    if served.Silence? then l
    else Ledger(served.state, l.replies + [Reply(client, Letter(server, served.content))])
  }

  /** One client at a time, one request at a time, in the order of the log. */
  function Replay<S>(serve: Service<S>, server: U16, initial: S, log: seq<Admission>): Ledger<S> {
    if log == [] then Ledger(initial, [])
    else
      var l := Replay(serve, server, initial, log[..|log| - 1]);
      var a := log[|log| - 1];
      Enter(server, l, a.client, serve(l.state, a.request))
  }

  /** The requests that one client contributed to the log, in order. */
  function SentBy(client: nat, log: seq<Admission>): seq<Content> {
    if log == [] then []
    else
      var a := log[|log| - 1];
      var before := SentBy(client, log[..|log| - 1]);
      if a.client == client then before + [a.request] else before
  }

  /** The messages addressed to one client, in order. */
  function RepliesTo(client: nat, replies: seq<Reply>): seq<Message> {
    if replies == [] then []
    else
      var r := replies[|replies| - 1];
      var before := RepliesTo(client, replies[..|replies| - 1]);
      if r.client == client then before + [r.message] else before
  }

  lemma ReplaySnoc<S>(serve: Service<S>, server: U16, initial: S, log: seq<Admission>, a: Admission)
    ensures var l := Replay(serve, server, initial, log);
      Replay(serve, server, initial, log + [a]) == Enter(server, l, a.client, serve(l.state, a.request))
  {
    assert (log + [a])[..|log|] == log;
  }

  lemma SentBySnoc(client: nat, log: seq<Admission>, a: Admission)
    ensures SentBy(client, log + [a]) ==
      if a.client == client then SentBy(client, log) + [a.request] else SentBy(client, log)
  {
    assert (log + [a])[..|log|] == log;
  }

  lemma RepliesToSnoc(client: nat, replies: seq<Reply>, r: Reply)
    ensures RepliesTo(client, replies + [r]) ==
      if r.client == client then RepliesTo(client, replies) + [r.message] else RepliesTo(client, replies)
  {
    assert (replies + [r])[..|replies|] == replies;
  }

  /** Admitting the head of a client's list moves it from what is left to what was sent. */
  lemma AdmitHead(client: nat, log: seq<Admission>, todo: seq<Content>)
    requires todo != []
    ensures SentBy(client, log + [Admission(client, todo[0])]) + todo[1..] == SentBy(client, log) + todo
  {
    SentBySnoc(client, log, Admission(client, todo[0]));
    assert todo == [todo[0]] + todo[1..];
  }

  /** For any client j: what it has sent and what it has left stay a split of its list when client i is admitted. */
  lemma AdmissionSplits(i: nat, log: seq<Admission>, todo: seq<Content>, j: nat, left: seq<Content>, list: seq<Content>)
    requires todo != [] && (j == i ==> left == todo) && SentBy(j, log) + left == list
    ensures SentBy(j, log + [Admission(i, todo[0])]) + (if j == i then todo[1..] else left) == list
  {
    if j == i { AdmitHead(i, log, todo); } else { SentBySnoc(j, log, Admission(i, todo[0])); }
  }

  /** Where in the ledger a client's k-th message stands. */
  lemma {:induction false} RepliesToAt(client: nat, replies: seq<Reply>, k: nat) returns (p: nat)
    requires k < |RepliesTo(client, replies)|
    ensures p < |replies| && replies[p] == Reply(client, RepliesTo(client, replies)[k])
    ensures |RepliesTo(client, replies[..p])| == k
  {
    var n := |replies| - 1;
    if k < |RepliesTo(client, replies[..n])| {
      p := RepliesToAt(client, replies[..n], k);
      assert replies[..n][..p] == replies[..p];
    } else {
      p := n;
    }
  }

  ghost predicate NoSilence<S>(serve: Service<S>, server: U16, initial: S, log: seq<Admission>) {
    forall p | 0 <= p < |log| :: serve(Replay(serve, server, initial, log[..p]).state, log[p].request).Answered?
  }

  lemma NoSilenceSnoc<S>(serve: Service<S>, server: U16, initial: S, log: seq<Admission>)
    requires log != []
    ensures var n := |log| - 1;
      NoSilence(serve, server, initial, log) <==>
        && NoSilence(serve, server, initial, log[..n])
        && serve(Replay(serve, server, initial, log[..n]).state, log[n].request).Answered?
  {
    forall p | 0 <= p < |log| - 1
      ensures log[..|log| - 1][..p] == log[..p]
    {
    }
  }

  lemma NoSilencePrefix<S>(serve: Service<S>, server: U16, initial: S, log: seq<Admission>, n: nat)
    requires NoSilence(serve, server, initial, log) && n <= |log|
    ensures NoSilence(serve, server, initial, log[..n])
  {
    forall p | 0 <= p < n
      ensures log[..n][..p] == log[..p]
    {
    }
  }

  /** A run has at most one reply per request, and one for each exactly when no request met silence. */
  lemma {:induction false} RepliesCount<S>(serve: Service<S>, server: U16, initial: S, log: seq<Admission>)
    ensures |Replay(serve, server, initial, log).replies| <= |log|
    ensures |Replay(serve, server, initial, log).replies| == |log| <==> NoSilence(serve, server, initial, log)
  {
    if log == [] {
    } else {
      RepliesCount(serve, server, initial, log[..|log| - 1]);
      NoSilenceSnoc(serve, server, initial, log);
    }
  }

  /** When all are answered, later requests leave earlier replies alone. */
  lemma {:induction false} ReplayPrefix<S>(serve: Service<S>, server: U16, initial: S, log: seq<Admission>, p: nat)
    requires |Replay(serve, server, initial, log).replies| == |log| && p <= |log|
    ensures Replay(serve, server, initial, log[..p]).replies == Replay(serve, server, initial, log).replies[..p]
  {
    if p == |log| {
      assert log[..p] == log;
    } else {
      var n := |log| - 1;
      RepliesCount(serve, server, initial, log[..n]);
      ReplayPrefix(serve, server, initial, log[..n], p);
      assert log[..n][..p] == log[..p];
    }
  }

  /** Which request of the log reply p answers: it goes to that request's client and says what the server makes of it
      in the state that the requests before it leave; and the p replies before it are theirs. */
  lemma {:induction false} ReplayAt<S>(serve: Service<S>, server: U16, initial: S, log: seq<Admission>, p: nat)
    returns (q: nat)
    requires p < |Replay(serve, server, initial, log).replies|
    ensures q < |log|
    ensures Replay(serve, server, initial, log[..q]).replies == Replay(serve, server, initial, log).replies[..p]
    ensures var served := serve(Replay(serve, server, initial, log[..q]).state, log[q].request);
      && served.Answered?
      && Replay(serve, server, initial, log).replies[p] == Reply(log[q].client, Letter(server, served.content))
  {
    var n := |log| - 1;
    if p == |Replay(serve, server, initial, log[..n]).replies| {
      q := n;
    } else {
      q := ReplayAt(serve, server, initial, log[..n], p);
      assert log[..n][..q] == log[..q];
    }
  }

  /** Where in the log a client's k-th request stands. */
  lemma {:induction false} SentByAt(client: nat, log: seq<Admission>, k: nat) returns (p: nat)
    requires k < |SentBy(client, log)|
    ensures p < |log| && log[p] == Admission(client, SentBy(client, log)[k])
    ensures |SentBy(client, log[..p])| == k
  {
    var n := |log| - 1;
    if k < |SentBy(client, log[..n])| {
      p := SentByAt(client, log[..n], k);
      assert log[..n][..p] == log[..p];
    } else {
      p := n;
    }
  }

  lemma {:induction false} SentByPrefix(client: nat, log: seq<Admission>, p: nat)
    requires p < |log| && log[p].client == client
    ensures |SentBy(client, log[..p])| < |SentBy(client, log)|
    ensures SentBy(client, log)[|SentBy(client, log[..p])|] == log[p].request
  {
    var n := |log| - 1;
    if p == n {
    } else {
      SentByPrefix(client, log[..n], p);
      assert log[..n][..p] == log[..p];
    }
  }

  /** When every request got its reply, a client has as many of the one as of the other. */
  lemma {:induction false} RepliesMatchRequests<S>(
    serve: Service<S>, server: U16, initial: S, log: seq<Admission>, client: nat)
    requires |Replay(serve, server, initial, log).replies| == |log|
    ensures |RepliesTo(client, Replay(serve, server, initial, log).replies)| == |SentBy(client, log)|
  {
    if log == [] {
    } else {
      var n := |log| - 1;
      var l := Replay(serve, server, initial, log[..n]);
      RepliesCount(serve, server, initial, log[..n]);
      RepliesMatchRequests(serve, server, initial, log[..n], client);
      var served := serve(l.state, log[n].request);
      RepliesToSnoc(client, l.replies, Reply(log[n].client, Letter(server, served.content)));
    }
  }

  /** Every request that one client has in the log is answered. */
  ghost predicate AlwaysHeard<S>(serve: Service<S>, server: U16, initial: S, log: seq<Admission>, client: nat) {
    forall p | 0 <= p < |log| && log[p].client == client ::
      serve(Replay(serve, server, initial, log[..p]).state, log[p].request).Answered?
  }

  lemma AlwaysHeardSnoc<S>(serve: Service<S>, server: U16, initial: S, log: seq<Admission>, client: nat)
    requires log != []
    ensures var n := |log| - 1;
      AlwaysHeard(serve, server, initial, log, client) <==>
        && AlwaysHeard(serve, server, initial, log[..n], client)
        && (log[n].client == client ==>
             serve(Replay(serve, server, initial, log[..n]).state, log[n].request).Answered?)
  {
    forall p | 0 <= p < |log| - 1
      ensures log[..|log| - 1][..p] == log[..p]
    {
    }
  }

  /** A client has at most as many replies as requests, and as many exactly when none of its own met silence,
      whatever happened to the others'. */
  lemma {:induction false} ClientHeardIff<S>(
    serve: Service<S>, server: U16, initial: S, log: seq<Admission>, client: nat)
    ensures var replies := RepliesTo(client, Replay(serve, server, initial, log).replies);
      && |replies| <= |SentBy(client, log)|
      && (|replies| == |SentBy(client, log)| <==> AlwaysHeard(serve, server, initial, log, client))
  {
    if log == [] {
    } else {
      var n := |log| - 1;
      var l := Replay(serve, server, initial, log[..n]);
      ClientHeardIff(serve, server, initial, log[..n], client);
      AlwaysHeardSnoc(serve, server, initial, log, client);
      var served := serve(l.state, log[n].request);
      if served.Answered? {
        RepliesToSnoc(client, l.replies, Reply(log[n].client, Letter(server, served.content)));
      }
    }
  }

  lemma AlwaysHeardPrefix<S>(
    serve: Service<S>, server: U16, initial: S, log: seq<Admission>, client: nat, q: nat)
    requires AlwaysHeard(serve, server, initial, log, client) && q <= |log|
    ensures AlwaysHeard(serve, server, initial, log[..q], client)
  {
    forall p | 0 <= p < q
      ensures log[..q][..p] == log[..p]
    {
    }
  }

  /** The request that a client's k-th reply answers; it is the client's k-th when none of its own met silence. */
  lemma {:induction false} ClientReplyAt<S>(
    serve: Service<S>, server: U16, initial: S, log: seq<Admission>, client: nat, k: nat) returns (q: nat)
    requires k < |RepliesTo(client, Replay(serve, server, initial, log).replies)|
    ensures q < |log| && log[q].client == client
    ensures var served := serve(Replay(serve, server, initial, log[..q]).state, log[q].request);
      && served.Answered?
      && RepliesTo(client, Replay(serve, server, initial, log).replies)[k] == Letter(server, served.content)
    ensures AlwaysHeard(serve, server, initial, log, client) ==> |SentBy(client, log[..q])| == k
  {
    var replies := Replay(serve, server, initial, log).replies;
    var p := RepliesToAt(client, replies, k);
    q := ReplayAt(serve, server, initial, log, p);
    if AlwaysHeard(serve, server, initial, log, client) {
      AlwaysHeardPrefix(serve, server, initial, log, client, q);
      ClientHeardIff(serve, server, initial, log[..q], client);
    }
  }

  /** The requests of the log that are answered. */
  function Heard<S>(serve: Service<S>, server: U16, initial: S, log: seq<Admission>): seq<Admission> {
    if log == [] then []
    else
      var n := |log| - 1;
      var before := Heard(serve, server, initial, log[..n]);
      if serve(Replay(serve, server, initial, log[..n]).state, log[n].request).Silence? then before
      else before + [log[n]]
  }

  /** Requests that meet silence might as well not have been sent. */
  lemma {:induction false} HeardReplays<S>(serve: Service<S>, server: U16, initial: S, log: seq<Admission>)
    ensures var heard := Heard(serve, server, initial, log);
      && Replay(serve, server, initial, heard) == Replay(serve, server, initial, log)
      && |Replay(serve, server, initial, log).replies| == |heard|
  {
    if log == [] {
    } else {
      var n := |log| - 1;
      HeardReplays(serve, server, initial, log[..n]);
      ReplaySnoc(serve, server, initial, Heard(serve, server, initial, log[..n]), log[n]);
    }
  }

  /** The log of one client alone. */
  function Own(client: nat, list: seq<Content>): seq<Admission> {
    seq(|list|, k requires 0 <= k < |list| => Admission(client, list[k]))
  }

  lemma OwnSnoc(client: nat, list: seq<Content>, n: nat)
    requires n < |list|
    ensures Own(client, list[..n + 1]) == Own(client, list[..n]) + [Admission(client, list[n])]
    ensures Own(client, list[..n + 1])[..n] == Own(client, list[..n])
  {
  }

  lemma {:induction false} OwnIsSentBy(client: nat, list: seq<Content>, other: nat)
    ensures SentBy(other, Own(client, list)) == if other == client then list else []
  {
    if list == [] {
    } else {
      var n := |list| - 1;
      OwnIsSentBy(client, list[..n], other);
      OwnSnoc(client, list, n);
      SentBySnoc(other, Own(client, list[..n]), Admission(client, list[n]));
      assert list[..n + 1] == list;
    }
  }

  /** A log of one client is that of the requests it contributed. */
  lemma {:induction false} LogIsOwn(client: nat, log: seq<Admission>)
    requires forall k | 0 <= k < |log| :: log[k].client == client
    ensures log == Own(client, SentBy(client, log))
  {
    if log == [] {
    } else {
      LogIsOwn(client, log[..|log| - 1]);
    }
  }
}
