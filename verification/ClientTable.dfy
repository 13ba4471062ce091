/** The table of connected clients of the select loop: a bounded array, compacted in place once a round. */
module ClientTable {

  const MAXCLIENTS := 10
  const CLOSED := -1

  /** What happens in one round of the loop: the clients that hang up, and the result of `accept`, if called. */
  datatype Arrival = NoConnection | Connection(fd: int)
  datatype Round = Round(closing: set<int>, arrival: Arrival)

  /** The descriptors of a table that are not marked as closed, in order. */
  function Live(t: seq<int>): (r: seq<int>)
    ensures |r| <= |t|
  {
    if t == [] then []
    else
      var before := Live(t[..|t| - 1]);
      if t[|t| - 1] != CLOSED then before + [t[|t| - 1]] else before
  }

  function Mark(t: seq<int>, closing: set<int>): seq<int> {
    seq(|t|, i requires 0 <= i < |t| => if t[i] in closing then CLOSED else t[i])
  }

  /** The ninth client is the last; whether there is room is decided before this round's closures are removed. */
  function Insert(t: seq<int>, arrival: Arrival): seq<int> {
    if arrival.Connection? && |t| + 1 < MAXCLIENTS then t + [arrival.fd] else t
  }

  function AfterRound(t: seq<int>, r: Round): seq<int> {
    Insert(Mark(Live(t), r.closing), r.arrival)
  }

  function After(rounds: seq<Round>): seq<int> {
    if rounds == [] then [] else AfterRound(After(rounds[..|rounds| - 1]), rounds[|rounds| - 1])
  }

  // The reference: who is connected, told from the events alone

  function Hung(rounds: seq<Round>): set<int> {
    if rounds == [] then {} else Hung(rounds[..|rounds| - 1]) + rounds[|rounds| - 1].closing
  }

  function Without(fds: seq<int>, gone: set<int>): seq<int> {
    if fds == [] then []
    else
      var before := Without(fds[..|fds| - 1], gone);
      if fds[|fds| - 1] in gone then before else before + [fds[|fds| - 1]]
  }

  /** The connections accepted and not turned away, in the order of acceptance. */
  function Admitted(rounds: seq<Round>): seq<int> {
    if rounds == [] then []
    else
      var before, r := rounds[..|rounds| - 1], rounds[|rounds| - 1];
      if r.arrival.Connection? && r.arrival.fd != -1 && |Without(Admitted(before), Hung(before))| < 9
      then Admitted(before) + [r.arrival.fd] else Admitted(before)
  }

  /** The connections admitted and not hung up, in the order of acceptance. */
  function Connected(rounds: seq<Round>): seq<int> {
    Without(Admitted(rounds), Hung(rounds))
  }

  /** Only connected clients hang up; `accept` fails with -1 or gives a descriptor that no client has had. */
  ghost predicate Plausible(rounds: seq<Round>) {
    forall n | 0 <= n < |rounds| ::
      && (forall fd | fd in rounds[n].closing :: fd in Connected(rounds[..n]))
      && (rounds[n].arrival.Connection? ==>
           rounds[n].arrival.fd !in Admitted(rounds[..n]) && rounds[n].arrival.fd >= -1)
  }

  lemma {:induction false} WithoutMembers(fds: seq<int>, gone: set<int>)
    ensures forall fd :: fd in Without(fds, gone) <==> fd in fds && fd !in gone
  {
    if fds == [] {
    } else {
      WithoutMembers(fds[..|fds| - 1], gone);
    }
  }

  /** Marking and compacting removes exactly the marked descriptors and keeps the order of the others. */
  lemma {:induction false} CompactMarked(fds: seq<int>, gone: set<int>, closing: set<int>)
    requires forall k | 0 <= k < |fds| :: fds[k] != CLOSED
    ensures Live(Mark(Without(fds, gone), closing)) == Without(fds, gone + closing)
  {
    if fds == [] {
    } else {
      var n := |fds| - 1;
      CompactMarked(fds[..n], gone, closing);
      var before := Without(fds[..n], gone);
      if fds[n] !in gone {
        assert Without(fds, gone) == before + [fds[n]];
        assert Mark(before + [fds[n]], closing)[..|before|] == Mark(before, closing);
      }
    }
  }

  lemma {:induction false} WithoutFresh(fds: seq<int>, gone: set<int>, fd: int)
    requires fd !in gone
    ensures Without(fds + [fd], gone) == Without(fds, gone) + [fd]
  {
    assert (fds + [fd])[..|fds|] == fds;
  }

  lemma {:induction false} AdmittedFacts(rounds: seq<Round>)
    requires Plausible(rounds)
    ensures forall k | 0 <= k < |Admitted(rounds)| :: Admitted(rounds)[k] != CLOSED
    ensures forall fd | fd in Hung(rounds) :: fd in Admitted(rounds)
  {
    if rounds == [] {
    } else {
      var n := |rounds| - 1;
      PlausiblePrefix(rounds);
      AdmittedFacts(rounds[..n]);
      WithoutMembers(Admitted(rounds[..n]), Hung(rounds[..n]));
      forall fd | fd in rounds[n].closing
        ensures fd in Admitted(rounds)
      {
        assert fd in Connected(rounds[..n]);
      }
    }
  }

  lemma PlausiblePrefix(rounds: seq<Round>)
    requires Plausible(rounds) && rounds != []
    ensures Plausible(rounds[..|rounds| - 1])
  {
    var before := rounds[..|rounds| - 1];
    forall n | 0 <= n < |before|
      ensures before[n] == rounds[n] && before[..n] == rounds[..n]
    {
    }
  }

  lemma LiveInsert(t: seq<int>, arrival: Arrival)
    ensures Live(Insert(t, arrival)) ==
      if arrival.Connection? && arrival.fd != CLOSED && |t| + 1 < MAXCLIENTS then Live(t) + [arrival.fd] else Live(t)
  {
    if arrival.Connection? { assert (t + [arrival.fd])[..|t|] == t; }
  }

  /** Over whole runs, what the loop selects on is exactly the connected clients in the order of acceptance, and
      there are at most nine. */
  lemma {:induction false} TableIsConnected(rounds: seq<Round>)
    requires Plausible(rounds)
    ensures Live(After(rounds)) == Connected(rounds)
    ensures |After(rounds)| <= 9
  {
    if rounds == [] {
    } else {
      var before, r := rounds[..|rounds| - 1], rounds[|rounds| - 1];
      PlausiblePrefix(rounds);
      TableIsConnected(before);
      AdmittedFacts(before);
      var fds, gone := Admitted(before), Hung(before);
      CompactMarked(fds, gone, r.closing);
      LiveInsert(Mark(Live(After(before)), r.closing), r.arrival);
      if r.arrival.Connection? && r.arrival.fd != CLOSED {
        ArrivalIsFresh(rounds);
        WithoutFresh(fds, Hung(rounds), r.arrival.fd);
      }
    }
  }

  lemma ArrivalIsFresh(rounds: seq<Round>)
    requires Plausible(rounds) && rounds != [] && rounds[|rounds| - 1].arrival.Connection?
    ensures rounds[|rounds| - 1].arrival.fd !in Hung(rounds)
  {
    var n := |rounds| - 1;
    PlausiblePrefix(rounds);
    AdmittedFacts(rounds[..n]);
    WithoutMembers(Admitted(rounds[..n]), Hung(rounds[..n]));
    assert rounds[n].arrival.fd !in Connected(rounds[..n]);
  }

  lemma {:induction false} WithoutShrinks(fds: seq<int>, gone: set<int>, closing: set<int>)
    ensures |Without(fds, gone + closing)| <= |Without(fds, gone)|
    ensures |Without(fds, gone + closing)| == |Without(fds, gone)|
      <==> forall fd | fd in Without(fds, gone) :: fd !in closing
  {
    if fds == [] {
    } else {
      var n := |fds| - 1;
      WithoutShrinks(fds[..n], gone, closing);
      var before := Without(fds[..n], gone);
      if fds[n] !in gone {
        assert Without(fds, gone) == before + [fds[n]];
        assert forall fd :: fd in before + [fds[n]] <==> fd in before || fd == fds[n];
      }
    }
  }

  /** What a round makes of the connected clients, by whether the table was full at its head. */
  lemma RoundConnects(rounds: seq<Round>)
    requires Plausible(rounds) && rounds != []
    requires rounds[|rounds| - 1].arrival.Connection? && rounds[|rounds| - 1].arrival.fd != -1
    ensures var n := |rounds| - 1;
      var fd, before := rounds[n].arrival.fd, Connected(rounds[..n]);
      var staying := Without(Admitted(rounds[..n]), Hung(rounds));
      && Connected(rounds) == (if |before| < 9 then staying + [fd] else staying)
      && fd !in staying && |before| <= 9
      && |staying| <= |before| && (|staying| < |before| <==> exists one :: one in rounds[n].closing)
  {
    var n := |rounds| - 1;
    var fds, gone, closing := Admitted(rounds[..n]), Hung(rounds[..n]), rounds[n].closing;
    PlausiblePrefix(rounds);
    TableIsConnected(rounds[..n]);
    ArrivalIsFresh(rounds);
    WithoutFresh(fds, Hung(rounds), rounds[n].arrival.fd);
    WithoutMembers(fds, Hung(rounds));
    WithoutShrinks(fds, gone, closing);
  }

  /** A client is turned away although there is room after the round exactly when the table was full at the head of
      the round and someone hung up during it: room is decided before closures are removed. */
  lemma TurnedAwayTooEarlyIff(rounds: seq<Round>)
    requires Plausible(rounds) && rounds != []
    requires rounds[|rounds| - 1].arrival.Connection? && rounds[|rounds| - 1].arrival.fd != -1
    ensures var n := |rounds| - 1;
      (rounds[n].arrival.fd !in Connected(rounds) && |Connected(rounds)| < 9)
      <==> (|Connected(rounds[..n])| == 9 && exists one :: one in rounds[n].closing)
  {
    RoundConnects(rounds);
  }

  /** A connection becomes a client exactly when fewer than nine clients were connected at the head of its round. */
  lemma BecomesClientIff(rounds: seq<Round>)
    requires Plausible(rounds) && rounds != []
    requires rounds[|rounds| - 1].arrival.Connection? && rounds[|rounds| - 1].arrival.fd != -1
    ensures var n := |rounds| - 1;
      rounds[n].arrival.fd in Connected(rounds) <==> |Connected(rounds[..n])| < 9
  {
    RoundConnects(rounds);
  }

  /** Connection after connection, and nobody hangs up. */
  function Rush(n: nat): seq<Round> {
    seq(n, i => Round({}, Connection(4 + i)))
  }

  lemma RushSnoc(n: nat, k: nat)
    requires k <= n
    ensures Rush(n)[..k] == Rush(k)
  {
  }

  lemma {:induction false} AdmittedInRush(n: nat)
    ensures forall fd | fd in Admitted(Rush(n)) :: fd < 4 + n
  {
    if n == 0 {
    } else {
      AdmittedInRush(n - 1);
      RushSnoc(n, n - 1);
    }
  }

  lemma RushIsPlausible(n: nat)
    ensures Plausible(Rush(n))
  {
    forall k: nat | k < n
      ensures Rush(n)[k].arrival.fd !in Admitted(Rush(n)[..k])
    {
      RushSnoc(n, k);
      AdmittedInRush(k);
    }
  }

  /** Descriptors from 4 on. */
  function FromFour(n: nat): seq<int> {
    seq(n, i => 4 + i)
  }

  lemma RushRound(n: nat)
    requires n < 9
    ensures AfterRound(FromFour(n), Round({}, Connection(4 + n))) == FromFour(n + 1)
  {
    NothingClosed(FromFour(n));
    assert FromFour(n) + [4 + n] == FromFour(n + 1);
  }

  /** Of any number of connections in a row the first nine become clients, and the others are turned away. */
  lemma {:induction false} NineFit(n: nat)
    ensures Plausible(Rush(n)) && After(Rush(n)) == FromFour(if n < 9 then n else 9)
  {
    RushIsPlausible(n);
    if n == 0 {
    } else {
      NineFit(n - 1);
      RushSnoc(n, n - 1);
      if n <= 9 { RushRound(n - 1); } else { LateInRush(n); }
    }
  }

  lemma LateInRush(n: nat)
    requires n > 9
    ensures AfterRound(FromFour(9), Round({}, Connection(3 + n))) == FromFour(9)
  {
    NothingClosed(FromFour(9));
  }

  lemma {:induction false} NothingClosed(t: seq<int>)
    requires forall i | 0 <= i < |t| :: t[i] >= 0
    ensures Live(t) == t == Mark(t, {})
  {
    if t == [] {
    } else {
      NothingClosed(t[..|t| - 1]);
    }
  }

  class Table {
    const clients: array<int>
    var count: nat

    ghost predicate Valid()
      reads this
    {
      clients.Length == MAXCLIENTS && count < MAXCLIENTS
    }

    ghost function Contents(): seq<int>
      reads this, clients
      requires Valid()
    {
      clients[..count]
    }

    constructor ()
      ensures Valid() && fresh(clients) && Contents() == After([])
    {
      clients := new int[MAXCLIENTS];
      count := 0;
    }

    method MaxDescriptor() returns (max: int)
      requires Valid()
      ensures count == 0 ==> max == 0
      ensures count > 0 ==> max in Contents()
      ensures forall i | 0 <= i < count :: clients[i] <= max
    {
      if count < 1 {
        return 0;
      }
      max := clients[0];
      for i := 0 to count
        invariant max in Contents()
        invariant forall k | 0 <= k < i :: clients[k] <= max
      {
        if clients[i] > max {
          max := clients[i];
        }
      }
    }

    /** Compaction in place: the live descriptors move to the front in their order; nothing behind them moves. */
    method Reorganize()
      requires Valid()
      modifies this, clients
      ensures Valid() && Contents() == Live(old(Contents()))
      ensures forall k | count <= k < clients.Length :: clients[k] == old(clients[k])
    {
      ghost var was := Contents();
      var j := 0;
      for i := 0 to count
        invariant j <= i && Valid() && count == old(count)
        invariant clients[..j] == Live(was[..i])
        invariant forall k | j <= k < clients.Length :: clients[k] == old(clients[k])
      {
        assert was[..i + 1][..i] == was[..i] && was[i] == clients[i];
        if clients[i] != CLOSED {
          ghost var front := clients[..j];
          clients[j] := clients[i];
          j := j + 1;
          assert clients[..j] == front + [was[i]];
        }
      }
      assert was[..count] == was;
      count := j;
    }

    /** The tenth connection is written into the last cell and turned away at once. */
    method NewClient(fd: int)
      requires Valid()
      modifies this, clients
      ensures Valid() && Contents() == if |old(Contents())| < 9 then old(Contents()) + [fd] else old(Contents())
    {
      clients[count] := fd;
      count := count + 1;
      if count >= MAXCLIENTS {
        count := count - 1;
      }
    }

    method HangUp(closing: set<int>)
      requires Valid()
      modifies clients
      ensures Valid() && Contents() == Mark(old(Contents()), closing)
    {
      for i := 0 to count
        invariant Valid()
        invariant forall k | 0 <= k < i :: clients[k] == if old(clients[k]) in closing then CLOSED else old(clients[k])
        invariant forall k | i <= k < clients.Length :: clients[k] == old(clients[k])
      {
        if clients[i] in closing {
          clients[i] := CLOSED;
        }
      }
    }

    /** One round; `bound` is the first argument of `select`, and covers the listener and every client. */
    method Serve(listener: nat, r: Round) returns (bound: int, polled: seq<int>)
      requires Valid()
      modifies this, clients
      ensures Valid() && Contents() == AfterRound(old(Contents()), r)
      ensures polled == Live(old(Contents()))
      ensures listener < bound && forall i | 0 <= i < |polled| :: polled[i] < bound
    {
      Reorganize();
      polled := clients[..count];
      var max := MaxDescriptor();
      if max < listener {
        max := listener;
      }
      bound := max + 1;
      HangUp(r.closing);
      if r.arrival.Connection? {
        NewClient(r.arrival.fd);
      }
    }

    /** The loop from the start of the server: before each `select` the table holds the connected clients. */
    method Loop(listener: nat, rounds: seq<Round>)
      requires Valid() && Contents() == [] && Plausible(rounds)
      modifies this, clients
      ensures Valid() && Contents() == After(rounds) && Live(Contents()) == Connected(rounds)
    {
      for n := 0 to |rounds|
        invariant Valid() && Contents() == After(rounds[..n])
      {
        var bound, polled := Serve(listener, rounds[n]);
        assert rounds[..n + 1][..n] == rounds[..n];
      }
      assert rounds[..|rounds|] == rounds;
      TableIsConnected(rounds);
    }
  }
}
