/** `database_t` as one server process sees it: the mapped movies, changed in place, and its record lock. */
module Database {
  import opened Messages
  import opened Movies

  /** The process's `fcntl` lock on the whole file. Setting one replaces the other. */
  datatype Lock = Unlocked | ReadLock | WriteLock

  class Database {
    const names: seq<Text>
    const times: seq<Text>
    const remaining: array<Stock>
    const tickets: array2<int>
    var lock: Lock

    /** What was requested of `fcntl`, in order; for the theorems only. */
    ghost var requested: seq<Lock>

    ghost predicate Valid()
      reads remaining, tickets
    {
      && |names| == |times| == remaining.Length == tickets.Length0 < 0x1_0000
      && tickets.Length1 == MOVIE_MAX_TICKETS
    }

    ghost function MovieAt(i: nat): Movie
      reads remaining, tickets
      requires Valid() && i < |names|
    {
      Movie(names[i], times[i], remaining[i],
            seq(MOVIE_MAX_TICKETS, k requires 0 <= k < MOVIE_MAX_TICKETS reads remaining, tickets => tickets[i, k]))
    }

    ghost function Contents(): (db: Catalog)
      reads remaining, tickets
      requires Valid()
      ensures |db| == |names|
    {
      seq(|names|, i requires 0 <= i < |names| && Valid() reads remaining, tickets => MovieAt(i))
    }

    constructor (names: seq<Bytes>, times: seq<Bytes>)
      requires |names| == |times| < 0x1_0000
      ensures Valid() && fresh(remaining) && fresh(tickets) && lock == Unlocked && requested == []
      ensures |Contents()| == |names|
      ensures forall i | 0 <= i < |names| ::
        var m := Contents()[i];
        && Holds(m.name, names[i]) && Holds(m.time, times[i])
        && m.remaining == 20 && forall k | 0 <= k < 20 :: m.tickets[k] == 0
      ensures forall i | 0 <= i < |names| :: Contents()[i] == MovieInit(names[i], times[i])
      ensures Fresh(Contents())
    {
      this.names := seq(|names|, i requires 0 <= i < |names| => Fit(names[i]));
      this.times := seq(|times|, i requires 0 <= i < |times| => Fit(times[i]));
      remaining := new Stock[|names|](_ => MOVIE_MAX_TICKETS);
      tickets := new int[|names|, MOVIE_MAX_TICKETS]((_, _) => 0);
      lock := Unlocked;
      requested := [];
      new;
      forall i | 0 <= i < |names|
        ensures Contents()[i] == MovieInit(names[i], times[i])
      {
        MovieInitHolds(names[i], times[i]);
      }
    }

    method SetLock(kind: Lock)
      modifies this`lock, this`requested
      ensures lock == kind && requested == old(requested) + [kind]
    {
      lock := kind;
      requested := requested + [kind];
    }

    /** A refused purchase returns before the unlock, so its lock is kept. */
    method BuyTicket(movie: int) returns (ticket: int)
      requires Valid()
      modifies this`lock, this`requested, remaining, tickets
      ensures Valid()
      ensures Outcome(Contents(), ticket) == Buy(old(Contents()), movie)
      ensures lock == if ticket > 0 then Unlocked else WriteLock
      ensures requested == old(requested) + if ticket > 0 then [WriteLock, Unlocked] else [WriteLock]
    {
      SetLock(WriteLock);
      if movie < 0 || movie >= remaining.Length {
        return ERR_NO_SUCH_MOVIE;
      }
      if remaining[movie] == 0 {
        return ERR_NO_MORE_TICKETS;
      }
      ghost var before := Contents();
      ticket := movie * MOVIE_MAX_TICKETS + (MOVIE_MAX_TICKETS - remaining[movie]) + 1;
      tickets[movie, MOVIE_MAX_TICKETS - remaining[movie]] := ticket;
      remaining[movie] := remaining[movie] - 1;
      SetLock(Unlocked);
      forall i | 0 <= i < |names|
        ensures Contents()[i] == Buy(before, movie).db[i]
      {
        assert Contents()[i].tickets == Buy(before, movie).db[i].tickets;
      }
    }

    /** Both loops always run to their end, so the last match is the one returned. */
    method GetTicket(ticket: int) returns (movie: int)
      requires Valid()
      modifies this`lock, this`requested
      ensures Valid() && Contents() == old(Contents())
      ensures movie == Find(Contents(), ticket)
      ensures lock == Unlocked && requested == old(requested) + [ReadLock, Unlocked]
    {
      SetLock(ReadLock);
      movie := -1;
      for i := 0 to remaining.Length
        invariant Valid() && Contents() == old(Contents()) && requested == old(requested) + [ReadLock]
        invariant movie == Find(Contents()[..i], ticket)
      {
        assert Contents()[..i + 1][..i] == Contents()[..i];
        for k := 0 to MOVIE_MAX_TICKETS
          invariant Valid() && Contents() == old(Contents()) && requested == old(requested) + [ReadLock]
          invariant movie == if ticket in Contents()[i].tickets[..k] then i else Find(Contents()[..i], ticket)
        {
          var row := Contents()[i].tickets;
          assert row[..k + 1] == row[..k] + [row[k]];
          if tickets[i, k] == ticket {
            movie := i;
          }
        }
        assert Contents()[i].tickets[..MOVIE_MAX_TICKETS] == Contents()[i].tickets;
      }
      assert Contents()[..remaining.Length] == Contents();
      SetLock(Unlocked);
    }

    /** With the numbering intact, an unlocked file after a purchase means exactly that a ticket was sold. */
    method BuyFrom(movie: int) returns (ticket: int)
      requires Valid() && Numbered(Contents())
      modifies this`lock, this`requested, remaining, tickets
      ensures Valid() && Numbered(Contents())
      ensures lock == Unlocked <==> 0 <= movie < |old(Contents())| && old(Contents())[movie].remaining > 0
      ensures lock == Unlocked ==> Decode(old(Contents()), ticket) == -1 && Decode(Contents(), ticket) == movie
      ensures lock != Unlocked ==> Contents() == old(Contents())
    {
      BuyEffect(Contents(), movie);
      ticket := BuyTicket(movie);
    }
  }
}
