/** Sequences of requests against one database: what the server promises over whole runs. */
module Sales {
  import opened Movies

  datatype Request = ListMovies | BuyTicket(movie: int) | GetTicket(ticket: int) | Unknown

  /** One request, alone with the database. A lookup yields the movie's index, or -1; a listing yields nothing. */
  function Perform(db: Catalog, r: Request): Outcome {
    match r
    case ListMovies => Outcome(db, 0)
    case BuyTicket(movie) => Buy(db, movie)
    case GetTicket(ticket) => Outcome(db, Find(db, ticket))
    case Unknown => Outcome(db, 0)
  }

  datatype History = History(db: Catalog, results: seq<int>)

  function Run(db: Catalog, rs: seq<Request>): (h: History)
    ensures |h.results| == |rs|
  {
    if rs == [] then History(db, [])
    else
      var h := Run(db, rs[..|rs| - 1]);
      var o := Perform(h.db, rs[|rs| - 1]);
      History(o.db, h.results + [o.result])
  }

  predicate Sells(r: Request, result: int) {
    r.BuyTicket? && result > 0
  }

  function Successes(rs: seq<Request>, results: seq<int>): nat
    requires |rs| == |results|
  {
    if rs == [] then 0
    else
      var n := |rs| - 1;
      Successes(rs[..n], results[..n]) + if Sells(rs[n], results[n]) then 1 else 0
  }

  function Attempts(rs: seq<Request>, movie: int): nat {
    if rs == [] then 0
    else Attempts(rs[..|rs| - 1], movie) + if rs[|rs| - 1] == BuyTicket(movie) then 1 else 0
  }

  function Remaining(db: seq<Movie>): nat {
    if db == [] then 0 else Remaining(db[..|db| - 1]) + db[|db| - 1].remaining
  }

  lemma PerformEffect(db: Catalog, r: Request)
    requires Numbered(db)
    ensures var o := Perform(db, r);
      && Numbered(o.db) && |o.db| == |db|
      && (!Sells(r, o.result) ==> o.db == db)
      && (r.ListMovies? || r.Unknown? ==> o.result == 0)
  {
    if r.BuyTicket? { BuyEffect(db, r.movie); }
  }

  lemma {:induction false} RunInvariant(db: Catalog, rs: seq<Request>)
    requires Numbered(db)
    ensures Numbered(Run(db, rs).db) && |Run(db, rs).db| == |db|
  {
    if rs == [] {
    } else {
      RunInvariant(db, rs[..|rs| - 1]);
      PerformEffect(Run(db, rs[..|rs| - 1]).db, rs[|rs| - 1]);
    }
  }

  /** Request p is answered by the database that the requests before it leave. */
  lemma {:induction false} RunAt(db: Catalog, rs: seq<Request>, p: nat)
    requires p < |rs|
    ensures Run(db, rs).results[p] == Perform(Run(db, rs[..p]).db, rs[p]).result
    ensures Run(db, rs[..p + 1]).db == Perform(Run(db, rs[..p]).db, rs[p]).db
  {
    var n := |rs| - 1;
    if p == n {
      assert rs[..p + 1] == rs;
    } else {
      RunAt(db, rs[..n], p);
      assert rs[..n][..p] == rs[..p];
      assert rs[..n][..p + 1] == rs[..p + 1];
    }
  }

  /** A ticket that is resolvable stays so, with the same movie, whatever is requested later. */
  lemma {:induction false} RunKeepsTickets(db: Catalog, rs: seq<Request>, from: nat, ticket: int)
    requires Numbered(db) && from <= |rs|
    ensures var before := Decode(Run(db, rs[..from]).db, ticket);
      before != -1 ==> Decode(Run(db, rs).db, ticket) == before
  {
    if from == |rs| {
      assert rs[..from] == rs;
    } else {
      var n := |rs| - 1;
      RunKeepsTickets(db, rs[..n], from, ticket);
      assert rs[..n][..from] == rs[..from];
      var d := Run(db, rs[..n]).db;
      RunInvariant(db, rs[..n]);
      PerformEffect(d, rs[n]);
      if rs[n].BuyTicket? { BuyEffect(d, rs[n].movie); }
    }
  }

  /** A sold ticket is new when issued, positive, small, and found again after any later requests. */
  lemma {:induction false} IssuedTicket(db: Catalog, rs: seq<Request>, p: nat)
    requires Numbered(db) && p < |rs|
    requires Sells(rs[p], Run(db, rs).results[p])
    ensures var ticket := Run(db, rs).results[p];
      && Decode(Run(db, rs[..p]).db, ticket) == -1
      && Decode(Run(db, rs).db, ticket) == rs[p].movie
      && Find(Run(db, rs).db, ticket) == rs[p].movie
      && 1 <= ticket <= MOVIE_MAX_TICKETS * |db| <= 1_310_700
  {
    RunAt(db, rs, p);
    RunInvariant(db, rs[..p]);
    BuyEffect(Run(db, rs[..p]).db, rs[p].movie);
    RunKeepsTickets(db, rs, p + 1, Run(db, rs).results[p]);
    RunInvariant(db, rs);
    FindIsDecode(Run(db, rs).db, Run(db, rs).results[p]);
  }

  /** No ticket is issued twice. */
  lemma TicketsDistinct(db: Catalog, rs: seq<Request>, p: nat, q: nat)
    requires Numbered(db) && p < q < |rs|
    requires Sells(rs[p], Run(db, rs).results[p]) && Sells(rs[q], Run(db, rs).results[q])
    ensures Run(db, rs).results[p] != Run(db, rs).results[q]
  {
    IssuedTicket(db, rs, q);
    RunAt(db, rs, p);
    RunAt(db, rs[..q], p);
    assert rs[..q][..p] == rs[..p];
    IssuedTicket(db, rs[..q], p);
  }

  lemma {:induction false} RemainingUpdate(db: Catalog, movie: nat, m: Movie)
    requires movie < |db|
    ensures Remaining(db[movie := m]) == Remaining(db) - db[movie].remaining + m.remaining
  {
    var n := |db| - 1;
    var after := db[movie := m];
    if movie == n {
      assert after[..n] == db[..n];
    } else {
      assert after[..n] == db[..n][movie := m];
      RemainingUpdate(db[..n], movie, m);
    }
  }

  lemma {:induction false} FreshRemaining(db: Catalog)
    requires Fresh(db)
    ensures Remaining(db) == MOVIE_MAX_TICKETS * |db|
  {
    if db == [] {
    } else {
      var n := |db| - 1;
      assert db[n] == MovieInit(db[n].name, db[n].time);
      forall i | 0 <= i < n
        ensures db[..n][i] == MovieInit(db[..n][i].name, db[..n][i].time)
      {
        assert db[i] == MovieInit(db[i].name, db[i].time);
      }
      FreshRemaining(db[..n]);
    }
  }

  /** Conservation: what was sold and what remains add up to what there was. */
  lemma {:induction false} Conservation(db: Catalog, rs: seq<Request>)
    requires Numbered(db)
    ensures var h := Run(db, rs);
      Remaining(h.db) + Successes(rs, h.results) == Remaining(db)
  {
    if rs == [] {
    } else {
      var n := |rs| - 1;
      Conservation(db, rs[..n]);
      RunInvariant(db, rs[..n]);
      var d := Run(db, rs[..n]).db;
      PerformEffect(d, rs[n]);
      var o := Perform(d, rs[n]);
      assert Run(db, rs).results[..n] == Run(db, rs[..n]).results;
      if Sells(rs[n], o.result) {
        RemainingUpdate(d, rs[n].movie, o.db[rs[n].movie]);
      }
    }
  }

  lemma BuyCounts(db: Catalog, wanted: int, movie: nat)
    requires movie < |db|
    ensures var o := Buy(db, wanted);
      && |o.db| == |db|
      && o.db[movie].Sold() == db[movie].Sold() + if wanted == movie && db[movie].remaining > 0 then 1 else 0
  {
  }

  /** Each movie sells as often as it is asked for, up to its 20 tickets, whatever its slots hold. */
  lemma {:induction false} SoldOnDemand(db: Catalog, rs: seq<Request>, movie: nat)
    requires movie < |db|
    ensures |Run(db, rs).db| == |db|
    ensures var wanted := db[movie].Sold() + Attempts(rs, movie);
      Run(db, rs).db[movie].Sold() == if wanted <= MOVIE_MAX_TICKETS then wanted else MOVIE_MAX_TICKETS
  {
    if rs == [] {
    } else {
      var n := |rs| - 1;
      SoldOnDemand(db, rs[..n], movie);
      if rs[n].BuyTicket? { BuyCounts(Run(db, rs[..n]).db, rs[n].movie, movie); }
    }
  }

  /** From freshly initialised movies: 20 tickets each, sold one by one as long as there is demand. */
  lemma {:induction false} FreshSales(db: Catalog, rs: seq<Request>, movie: nat)
    requires Fresh(db) && movie < |db|
    ensures var h := Run(db, rs);
      && |h.db| == |db|
      && Remaining(h.db) + Successes(rs, h.results) == MOVIE_MAX_TICKETS * |db|
      && h.db[movie].Sold()
         == if Attempts(rs, movie) <= MOVIE_MAX_TICKETS then Attempts(rs, movie) else MOVIE_MAX_TICKETS
  {
    FreshIsNumbered(db);
    FreshRemaining(db);
    Conservation(db, rs);
    SoldOnDemand(db, rs, movie);
    assert db[movie] == MovieInit(db[movie].name, db[movie].time);
  }
}
