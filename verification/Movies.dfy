/** The ticket database as a value, and the arithmetic of ticket numbers. */
module Movies {
  import opened Messages

  const MOVIE_MAX_TICKETS := 20
  const MOVIE_NAME_LENGTH := 100
  const ERR_NO_SUCH_MOVIE := -1
  const ERR_NO_SUCH_TICKET := -2
  const ERR_NO_MORE_TICKETS := -3

  type Text = b: Bytes | |b| == MOVIE_NAME_LENGTH witness seq(MOVIE_NAME_LENGTH, _ => 0)
  type Stock = n: int | 0 <= n <= MOVIE_MAX_TICKETS
  type Row = s: seq<int> | |s| == MOVIE_MAX_TICKETS witness seq(MOVIE_MAX_TICKETS, _ => 0)

  datatype Movie = Movie(name: Text, time: Text, remaining: Stock, tickets: Row) {
    function Sold(): Stock { MOVIE_MAX_TICKETS - remaining }
  }

  /** The mapped array; its length is held in a `uint16_t`. */
  type Catalog = s: seq<Movie> | |s| < 0x1_0000

  /** `strncpy` into a field of fixed width: cut at the width, or filled with zeros. */
  function Fit(text: Bytes): Text {
    if |text| >= MOVIE_NAME_LENGTH then text[..MOVIE_NAME_LENGTH]
    else text + seq(MOVIE_NAME_LENGTH - |text|, _ => 0)
  }

  function MovieInit(name: Bytes, time: Bytes): Movie {
    Movie(Fit(name), Fit(time), MOVIE_MAX_TICKETS, seq(MOVIE_MAX_TICKETS, _ => 0))
  }

  /** `text`, byte for byte, in a field of 100 bytes: cut there, or with zeros behind it. */
  ghost predicate Holds(field: seq<int>, text: Bytes) {
    |field| == 100 && forall k | 0 <= k < 100 :: field[k] == if k < |text| then text[k] else 0
  }

  /** What `movie_init` makes: the name in the name, the time in the time, and twenty tickets, none of them issued. */
  lemma MovieInitHolds(name: Bytes, time: Bytes)
    ensures var m := MovieInit(name, time);
      && Holds(m.name, name) && Holds(m.time, time)
      && m.remaining == 20 && |m.tickets| == 20 && forall k | 0 <= k < 20 :: m.tickets[k] == 0
  {
    FitHolds(name);
    FitHolds(time);
  }

  lemma FitHolds(text: Bytes)
    ensures Holds(Fit(text), text)
  {
  }

  ghost predicate Fresh(db: Catalog) {
    forall i | 0 <= i < |db| :: db[i] == MovieInit(db[i].name, db[i].time)
  }

  function Number(movie: nat, slot: nat): int {
    movie * MOVIE_MAX_TICKETS + slot + 1
  }

  /** The database invariant: sold slots hold their own number, unsold slots hold 0. */
  ghost predicate Numbered(db: Catalog) {
    forall i, k | 0 <= i < |db| && 0 <= k < MOVIE_MAX_TICKETS ::
      db[i].tickets[k] == if k < db[i].Sold() then Number(i, k) else 0
  }

  datatype Outcome = Outcome(db: Catalog, result: int)

  /** `db_buy_ticket`: the ticket number, or an error code. */
  function Buy(db: Catalog, movie: int): Outcome {
    if !(0 <= movie < |db|) then Outcome(db, ERR_NO_SUCH_MOVIE)
    else if db[movie].remaining == 0 then Outcome(db, ERR_NO_MORE_TICKETS)
    else
      var m := db[movie];
      var ticket := Number(movie, m.Sold());
      Outcome(db[movie := m.(remaining := m.remaining - 1, tickets := m.tickets[m.Sold() := ticket])], ticket)
  }

  /** `db_get_ticket`: the index of the last movie with a slot that holds `ticket`, or -1. */
  function Find(db: seq<Movie>, ticket: int): (movie: int)
    ensures -1 <= movie < |db|
  {
    if db == [] then -1
    else if ticket in db[|db| - 1].tickets then |db| - 1
    else Find(db[..|db| - 1], ticket)
  }

  /** The movie that a ticket number was issued for, by arithmetic alone, or -1. */
  function Decode(db: seq<Movie>, ticket: int): (movie: int)
    ensures -1 <= movie < |db|
  {
    var movie := (ticket - 1) / MOVIE_MAX_TICKETS;
    if 1 <= ticket && movie < |db| && (ticket - 1) % MOVIE_MAX_TICKETS < db[movie].Sold() then movie else -1
  }

  /** `Find` returns the last holder of `ticket`, for any contents of the table. */
  lemma {:induction false} FindIsLastHolder(db: seq<Movie>, ticket: int)
    ensures var f := Find(db, ticket);
      && (f >= 0 ==> ticket in db[f].tickets)
      && (forall i | f < i < |db| :: ticket !in db[i].tickets)
  {
    if db == [] || ticket in db[|db| - 1].tickets {
    } else {
      FindIsLastHolder(db[..|db| - 1], ticket);
    }
  }

  lemma HolderIsDecode(db: Catalog, ticket: int, movie: nat)
    requires Numbered(db) && movie < |db| && ticket != 0
    ensures ticket in db[movie].tickets <==> Decode(db, ticket) == movie
  {
    if ticket in db[movie].tickets {
      var k :| 0 <= k < MOVIE_MAX_TICKETS && db[movie].tickets[k] == ticket;
    }
    if Decode(db, ticket) == movie {
      assert db[movie].tickets[(ticket - 1) % MOVIE_MAX_TICKETS] == ticket;
    }
  }

  /** The nested scan refines arithmetic, and the movie it finds is the only match. */
  lemma FindIsDecode(db: Catalog, ticket: int)
    requires Numbered(db) && ticket != 0
    ensures Find(db, ticket) == Decode(db, ticket)
    ensures forall i | 0 <= i < |db| && ticket in db[i].tickets :: i == Find(db, ticket)
  {
    FindIsLastHolder(db, ticket);
    forall i: nat | i < |db|
      ensures ticket in db[i].tickets <==> Decode(db, ticket) == i
    {
      HolderIsDecode(db, ticket, i);
    }
  }

  /** Ticket 0 is never issued, yet the scan finds it: in the last movie that still has an unsold slot. */
  lemma {:induction false} FindZero(db: Catalog)
    requires Numbered(db)
    ensures var f := Find(db, 0);
      && (f >= 0 ==> db[f].remaining > 0)
      && (forall i | f < i < |db| :: db[i].remaining == 0)
  {
    FindIsLastHolder(db, 0);
    forall i | 0 <= i < |db|
      ensures 0 in db[i].tickets <==> db[i].remaining > 0
    {
      if db[i].remaining > 0 {
        assert db[i].tickets[db[i].Sold()] == 0;
      }
    }
  }

  /** A lookup succeeds exactly for issued tickets, plus ticket 0 while something is unsold. */
  lemma FindSucceedsIff(db: Catalog, ticket: int)
    requires Numbered(db)
    ensures Find(db, ticket) != -1 <==>
      Decode(db, ticket) != -1 || (ticket == 0 && exists i | 0 <= i < |db| :: db[i].remaining > 0)
  {
    if ticket == 0 { FindZero(db); } else { FindIsDecode(db, ticket); }
  }

  lemma FreshIsNumbered(db: Catalog)
    requires Fresh(db)
    ensures Numbered(db) && forall i | 0 <= i < |db| :: db[i].Sold() == 0
  {
    forall i, k | 0 <= i < |db| && 0 <= k < MOVIE_MAX_TICKETS
      ensures db[i].tickets[k] == 0 && db[i].Sold() == 0
    {
      assert db[i] == MovieInit(db[i].name, db[i].time);
    }
  }

  /** What a purchase changes: one slot, one counter, one ticket that did not exist before. */
  lemma BuyEffect(db: Catalog, movie: int)
    requires Numbered(db)
    ensures var o := Buy(db, movie);
      && Numbered(o.db) && |o.db| == |db|
      && (forall i | 0 <= i < |db| && i != movie :: o.db[i] == db[i])
      && (o.result > 0 <==> 0 <= movie < |db| && db[movie].remaining > 0)
      && (o.result == -1 <==> !(0 <= movie < |db|))
      && (o.result == -3 <==> 0 <= movie < |db| && db[movie].remaining == 0)
      && (o.result <= 0 ==> o.db == db)
      && (o.result > 0 ==>
        && o.db[movie].Sold() == db[movie].Sold() + 1
        && Decode(db, o.result) == -1 && Decode(o.db, o.result) == movie
        && o.result <= 20 * |db|)
  {
  }
}
