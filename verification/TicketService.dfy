/** The ticket server as a service on bytes, and what its sequential runs promise. */
module TicketService {
  import opened Messages
  import opened Movies
  import opened Sales
  import opened Wire
  import opened Service

  /** The `res_*` functions: what is answered, given the database before the request. */
  function Answer(db: Catalog, r: Request): Response
    requires !r.Unknown?
  {
    match r
    case ListMovies => Listing(db)
    case BuyTicket(movie) =>
      var ticket := Buy(db, movie).result;
      if ticket > 0 then Sold(ticket) else Refused(ticket)
    case GetTicket(ticket) =>
      var movie := Find(db, ticket);
      if movie != -1 then Found(ticket, db[movie]) else Refused(ERR_NO_SUCH_TICKET)
  }

  /** What each answer means: tickets by arithmetic, refusals by their exact cause. */
  lemma AnswersTruthfully(db: Catalog, r: Request)
    requires Numbered(db) && !r.Unknown?
    ensures match r
      case ListMovies => Answer(db, r) == Listing(db)
      case BuyTicket(movie) =>
        if !(0 <= movie < |db|) then Answer(db, r) == Refused(-1)
        else if db[movie].Sold() == 20 then Answer(db, r) == Refused(-3)
        else
          && Answer(db, r).Sold? && Decode(db, Answer(db, r).ticket) == -1
          && Decode(Perform(db, r).db, Answer(db, r).ticket) == movie
      case GetTicket(ticket) =>
        if Decode(db, ticket) != -1 then Answer(db, r) == Found(ticket, db[Decode(db, ticket)])
        else if ticket != 0 || forall i | 0 <= i < |db| :: db[i].remaining == 0 then
          Answer(db, r) == Refused(-2)
        else
          exists i | 0 <= i < |db| && db[i].remaining > 0 ::
            Answer(db, r) == Found(0, db[i]) && forall j | i < j < |db| :: db[j].remaining == 0
  {
    match r
    case ListMovies =>
    case BuyTicket(movie) => BuyEffect(db, movie);
    case GetTicket(ticket) => if ticket != 0 { FindIsDecode(db, ticket); } else { FindZero(db); }
  }

  /** A request of unknown type is reported on the console and gets no response. */
  function Serve(db: Catalog, content: Content): Served<Catalog> {
    var r := GetRequest(content);
    if r.Unknown? then Silence
    else Answered(Perform(db, r).db, Cut(PutResponse(Answer(db, r))))
  }

  predicate Known(content: Bytes) {
    !GetRequest(content).Unknown?
  }

  lemma ServeIff(db: Catalog, content: Content)
    ensures Serve(db, content).Answered? <==> Known(content)
    ensures Known(content) ==>
      Serve(db, content).content == Cut(PutResponse(Answer(db, GetRequest(content))))
  {
  }

  lemma AnswerIsSendable(db: Catalog, r: Request)
    requires Numbered(db) && !r.Unknown? && (r.GetTicket? ==> -0x8000_0000 <= r.ticket < 0x8000_0000)
    ensures Sendable(Answer(db, r)) && (Answer(db, r).Listing? ==> Answer(db, r).movies == db)
  {
    if r.BuyTicket? { BuyEffect(db, r.movie); }
  }

  lemma AnswerReadBack(db: Catalog, r: Request)
    requires Numbered(db) && !r.Unknown? && (r.GetTicket? ==> -0x8000_0000 <= r.ticket < 0x8000_0000)
    ensures var answer := Answer(db, r);
      GetResponse(Cut(PutResponse(answer))) == Some(answer) <==> (answer.Listing? ==> |db| <= 230)
  {
    AnswerIsSendable(db, r);
    ResponseRoundTripIff(Answer(db, r));
  }

  /** What a client's menu can ask for. */
  predicate Askable(r: Request) {
    !r.Unknown? && (r.GetTicket? ==> -0x8000_0000 <= r.ticket < 0x8000_0000)
  }

  /** A request as it arrives at the server: the number of a movie to buy has 16 bits. */
  function Arrived(r: Request): Request {
    if r.BuyTicket? then BuyTicket(r.movie % 0x1_0000) else r
  }

  /** Whatever a client asks for is answered, and the answer to what arrived is what the client reads, except for a
      listing of more than 230 movies. */
  lemma AskedAndAnswered(db: Catalog, r: Request)
    requires Numbered(db) && Askable(r)
    ensures var served := Serve(db, PutRequest(r));
      && served.Answered? && served.state == Perform(db, Arrived(r)).db
      && (GetResponse(served.content) == Some(Answer(db, Arrived(r))) <==> (r.ListMovies? ==> |db| <= 230))
  {
    RequestRoundTrip(r);
    AnswerReadBack(db, Arrived(r));
  }

  function Requests(log: seq<Admission>): seq<Request> {
    seq(|log|, i requires 0 <= i < |log| => GetRequest(log[i].request))
  }

  /** The replay drives the database exactly as the requests, taken one after the other, do. */
  lemma {:induction false} ReplayIsRun(server: U16, db: Catalog, log: seq<Admission>)
    ensures Replay(Serve, server, db, log).state == Run(db, Requests(log)).db
  {
    if log == [] {
    } else {
      var n := |log| - 1;
      ReplayIsRun(server, db, log[..n]);
      assert Requests(log)[..n] == Requests(log[..n]);
    }
  }

  /** Reading `Sold` in a reply means that its request bought that very ticket, whatever else is in the log. */
  lemma SoldMeansBought(server: U16, db: Catalog, log: seq<Admission>, p: nat, ticket: int) returns (q: nat)
    requires Numbered(db) && p < |Replay(Serve, server, db, log).replies|
    requires GetResponse(Replay(Serve, server, db, log).replies[p].message.content) == Some(Sold(ticket))
    ensures q < |log| && log[q].client == Replay(Serve, server, db, log).replies[p].client
    ensures |Replay(Serve, server, db, log[..q]).replies| == p
    ensures var rs := Requests(log);
      Run(db, rs).results[q] == ticket && Sells(rs[q], ticket)
  {
    var rs := Requests(log);
    q := ReplayAt(Serve, server, db, log, p);
    var before := Run(db, rs[..q]).db;
    ReplayIsRun(server, db, log[..q]);
    assert rs[..q] == Requests(log[..q]);
    RunAt(db, rs, q);
    RunInvariant(db, rs[..q]);
    if rs[q].BuyTicket? { BuyEffect(before, rs[q].movie); }
    SoldIsReadBack(before, rs[q], ticket);
  }

  lemma SoldIsReadBack(db: Catalog, r: Request, ticket: int)
    requires !r.Unknown? && Buy(db, if r.BuyTicket? then r.movie else 0).result < 0x8000_0000
    requires GetResponse(Cut(PutResponse(Answer(db, r)))) == Some(Sold(ticket))
    ensures Answer(db, r) == Sold(ticket)
  {
    var answer := Answer(db, r);
    var b := PutResponse(answer);
    if !answer.Listing? {
      assert Cut(b) == b;
      if answer.Sold? {
        assert b[4..8] == PutI32(answer.ticket);
        I32RoundTrip(answer.ticket);
      }
    }
  }

  /** Across all clients of a sequential run, no two replies carry the same ticket. */
  lemma RepliesNeverShareTickets(server: U16, db: Catalog, log: seq<Admission>, p: nat, q: nat, t: int, u: int)
    requires var replies := Replay(Serve, server, db, log).replies;
      && Numbered(db) && p < |replies| && q < |replies| && p != q
      && GetResponse(replies[p].message.content) == Some(Sold(t))
      && GetResponse(replies[q].message.content) == Some(Sold(u))
    ensures t != u
  {
    var i := SoldMeansBought(server, db, log, p, t);
    var j := SoldMeansBought(server, db, log, q, u);
    if i < j { TicketsDistinct(db, Requests(log), i, j); } else { TicketsDistinct(db, Requests(log), j, i); }
  }
}
