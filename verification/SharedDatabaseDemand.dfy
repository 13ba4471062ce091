/** For a given database: when every run of the processes returns from all calls, told from the lists and the stock. */
module SharedDatabaseDemand {
  import opened Messages
  import opened Movies
  import opened Sales
  import opened Database
  import opened SharedDatabase
  import opened SharedDatabaseProgress

  /** The calls of a list, without the last if it is to be held back. */
  function Part(todo: seq<Call>, held: bool): seq<Call> {
    if held && todo != [] then todo[..|todo| - 1] else todo
  }

  /** How often a movie is asked for by all lists, the last calls of processes i and j held back. */
  function Offered(processes: seq<Process>, movie: int, i: nat, j: nat): nat {
    if processes == [] then 0
    else
      var n := |processes| - 1;
      Offered(processes[..n], movie, i, j) + Attempts(Part(processes[n].todo, n == i || n == j), movie)
  }

  /** Process i's last call is a purchase, j has a call to make, and before these two calls the movie can be sold out,
      or does not exist. */
  ghost predicate CanStrand(w0: World, i: nat, j: nat) {
    && i < |w0.processes| && j < |w0.processes| && i != j
    && EndsInPurchase(w0.processes[i].todo) && w0.processes[j].todo != []
    && var movie := w0.processes[i].todo[|w0.processes[i].todo| - 1].movie;
      || !(0 <= movie < |w0.movies|)
      || w0.movies[movie].Sold() + Offered(w0.processes, movie, i, j) >= MOVIE_MAX_TICKETS
  }

  ghost predicate Finishes(w0: World) {
    forall schedule: seq<nat> :: Standstill(After(w0, schedule)) ==> AllDone(After(w0, schedule))
  }

  // From a standstill to the condition

  lemma {:induction false} AttemptsConcat(a: seq<Request>, b: seq<Request>, movie: int)
    ensures Attempts(a + b, movie) == Attempts(a, movie) + Attempts(b, movie)
  {
    if b == [] {
      assert a + b == a;
    } else {
      AttemptsConcat(a, b[..|b| - 1], movie);
      assert (a + b)[..|a + b| - 1] == a + b[..|b| - 1];
    }
  }

  lemma AttemptsPrefix(a: seq<Request>, b: seq<Request>, movie: int)
    requires a <= b
    ensures Attempts(a, movie) <= Attempts(b, movie)
  {
    assert b == a + b[|a|..];
    AttemptsConcat(a, b[|a|..], movie);
  }

  /** The attempts that the first n processes have in the log. */
  function Shares(log: seq<Return>, n: nat, movie: int): nat {
    if n == 0 then 0 else Shares(log, n - 1, movie) + Attempts(CallsOf(n - 1, log), movie)
  }

  lemma {:induction false} SharesOfEmpty(n: nat, movie: int)
    ensures Shares([], n, movie) == 0
  {
    if n == 0 {
    } else {
      SharesOfEmpty(n - 1, movie);
    }
  }

  lemma {:induction false} SharesGrow(log: seq<Return>, r: Return, n: nat, movie: int)
    ensures Shares(log + [r], n, movie)
      == Shares(log, n, movie) + if r.process < n && r.call == BuyTicket(movie) then 1 else 0
  {
    if n == 0 {
    } else {
      SharesGrow(log, r, n - 1, movie);
      SharesSnoc(n - 1, log, r);
      AttemptsConcat(CallsOf(n - 1, log), if r.process == n - 1 then [r.call] else [], movie);
      OneAttempt(r.call, movie);
    }
  }

  lemma OneAttempt(call: Call, movie: int)
    ensures Attempts([call], movie) == if call == BuyTicket(movie) then 1 else 0
  {
    assert [call][..0] == [];
  }

  function LogCount(log: seq<Return>, movie: int): nat {
    if log == [] then 0
    else LogCount(log[..|log| - 1], movie) + if log[|log| - 1].call == BuyTicket(movie) then 1 else 0
  }

  lemma {:induction false} LogCountIsAttempts(log: seq<Return>, movie: int)
    ensures Attempts(Calls(log), movie) == LogCount(log, movie)
  {
    if log == [] {
    } else {
      var n := |log| - 1;
      LogCountIsAttempts(log[..n], movie);
      assert Calls(log)[..n] == Calls(log[..n]);
    }
  }

  lemma {:induction false} LogCountIsShares(log: seq<Return>, n: nat, movie: int)
    requires forall k | 0 <= k < |log| :: log[k].process < n
    ensures LogCount(log, movie) == Shares(log, n, movie)
  {
    if log == [] {
      SharesOfEmpty(n, movie);
    } else {
      var front, r := log[..|log| - 1], log[|log| - 1];
      LogCountIsShares(front, n, movie);
      SharesGrow(front, r, n, movie);
      assert log == front + [r];
    }
  }

  /** Every attempt in the log is some process's. */
  lemma LogIsShares(log: seq<Return>, n: nat, movie: int)
    requires forall k | 0 <= k < |log| :: log[k].process < n
    ensures Attempts(Calls(log), movie) == Shares(log, n, movie)
  {
    LogCountIsAttempts(log, movie);
    LogCountIsShares(log, n, movie);
  }

  lemma {:induction false} SharesAreOffered(log: seq<Return>, processes: seq<Process>, movie: int, i: nat, j: nat)
    requires forall p | 0 <= p < |processes| :: CallsOf(p, log) <= Part(processes[p].todo, p == i || p == j)
    ensures Shares(log, |processes|, movie) <= Offered(processes, movie, i, j)
  {
    if processes == [] {
    } else {
      var n := |processes| - 1;
      SharesAreOffered(log, processes[..n], movie, i, j);
      AttemptsPrefix(CallsOf(n, log), Part(processes[n].todo, n == i || n == j), movie);
    }
  }

  lemma {:induction false} CallsOfPrefix(p: nat, log: seq<Return>, k: nat)
    requires k <= |log|
    ensures CallsOf(p, log[..k]) <= CallsOf(p, log)
  {
    if k == |log| {
      assert log[..k] == log;
    } else {
      var n := |log| - 1;
      CallsOfPrefix(p, log[..n], k);
      assert log[..n][..k] == log[..k];
    }
  }

  /** Before its last return a process has one call less. */
  lemma {:induction false} CallsBeforeLast(p: nat, log: seq<Return>, k: nat)
    requires LastOf(p, log, k)
    ensures CallsOf(p, log) == CallsOf(p, log[..k]) + [log[k].call]
  {
    var n := |log| - 1;
    if k == n {
    } else {
      assert LastOf(p, log[..n], k);
      CallsBeforeLast(p, log[..n], k);
      assert log[..n][..k] == log[..k];
    }
  }

  lemma {:induction false} ReturnersExist(w0: World, schedule: seq<nat>)
    ensures |After(w0, schedule).processes| == |w0.processes|
    ensures w0.returned == [] ==>
      forall k | 0 <= k < |After(w0, schedule).returned| :: After(w0, schedule).returned[k].process < |w0.processes|
  {
    if schedule == [] {
    } else {
      var before, p := schedule[..|schedule| - 1], schedule[|schedule| - 1];
      var mid := After(w0, before);
      ReturnersExist(w0, before);
      if Enabled(mid, p) {
        StepReturns(mid, p);
        var t := Step(mid, p);
        if t.returned != mid.returned && w0.returned == [] {
          forall k | 0 <= k < |t.returned|
            ensures t.returned[k].process < |w0.processes|
          {
            if k < |mid.returned| { assert t.returned[k] == t.returned[..|mid.returned|][k]; }
          }
        }
      }
    }
  }

  /** What a process has returned from is the front of its list, without the last call if it is not done. */
  lemma ShareIsPart(w0: World, w: World, p: nat, held: bool)
    requires Recorded(w0, w) && p < |w.processes| && (held ==> !Done(w.processes[p]))
    ensures CallsOf(p, w.returned) <= Part(w0.processes[p].todo, held)
  {
    var c, calls := w.processes[p], CallsOf(p, w.returned);
    var rest := (if c.pc == Ready then [] else [c.call]) + c.todo;
    assert calls + (if c.pc == Ready then [] else [c.call]) + c.todo == w0.processes[p].todo;
    assert calls + rest == w0.processes[p].todo;
    assert held ==> rest != [];
  }

  /** Who sits on the write lock made its last call when the movie did not exist or was sold out. */
  lemma StrandedBy(w0: World, schedule: seq<nat>, q: nat, j: nat)
    requires Initial(w0) && q < |w0.processes| && j < |w0.processes|
    requires var w := After(w0, schedule);
      && |w.processes| == |w0.processes|
      && Done(w.processes[q]) && w.processes[q].lock == WriteLock && !Done(w.processes[j])
    ensures CanStrand(w0, q, j)
  {
    var w := After(w0, schedule);
    AfterInv(w0, schedule);
    LockKeptIff(w0, schedule, q);
    HolderEndsInPurchase(w0, schedule, q);
    var k: nat :| LastOf(q, w.returned, k)
      && TurnedDown(Run(w0.movies, Calls(w.returned[..k])).db, w.returned[k].call);
    CallsBeforeLast(q, w.returned, k);
    assert CallsOf(q, w.returned) + [] + [] == w0.processes[q].todo;
    ShareIsPart(w0, w, j, true);
    var movie := w.returned[k].call.movie;
    if 0 <= movie < |w0.movies| { AttemptsAreOffered(w0, schedule, q, j, k, movie); }
  }

  lemma BeforeLastIsPart(w0: World, w: World, p: nat, q: nat, j: nat, k: nat)
    requires Recorded(w0, w) && p < |w.processes| && j < |w.processes| && LastOf(q, w.returned, k)
    requires !Done(w.processes[j])
    ensures CallsOf(p, w.returned[..k]) <= Part(w0.processes[p].todo, p == q || p == j)
  {
    CallsOfPrefix(p, w.returned, k);
    ShareIsPart(w0, w, p, p == j);
    if p == q { CallsBeforeLast(q, w.returned, k); }
  }

  lemma AttemptsAreOffered(w0: World, schedule: seq<nat>, q: nat, j: nat, k: nat, movie: nat)
    requires Initial(w0) && q < |w0.processes| && j < |w0.processes| && movie < |w0.movies|
    requires var w := After(w0, schedule);
      && |w.processes| == |w0.processes| && LastOf(q, w.returned, k) && !Done(w.processes[j])
      && TurnedDown(Run(w0.movies, Calls(w.returned[..k])).db, BuyTicket(movie))
    ensures w0.movies[movie].Sold() + Offered(w0.processes, movie, q, j) >= MOVIE_MAX_TICKETS
  {
    var w := After(w0, schedule);
    AfterInv(w0, schedule);
    SoldOnDemand(w0.movies, Calls(w.returned[..k]), movie);
    ReturnersExist(w0, schedule);
    LogIsShares(w.returned[..k], |w0.processes|, movie);
    forall p: nat | p < |w0.processes|
      ensures CallsOf(p, w.returned[..k]) <= Part(w0.processes[p].todo, p == q || p == j)
    {
      BeforeLastIsPart(w0, w, p, q, j, k);
    }
    SharesAreOffered(w.returned[..k], w0.processes, movie, q, j);
  }

  // From the condition to a standstill

  lemma {:induction false} RunKeepsCount(db: Catalog, rs: seq<Request>)
    ensures |Run(db, rs).db| == |db|
  {
    if rs == [] {
    } else {
      RunKeepsCount(db, rs[..|rs| - 1]);
    }
  }

  /** After these calls the movie is sold out. */
  ghost predicate SoldOut(w0: World, calls: seq<Request>, movie: nat)
    requires movie < |w0.movies|
  {
    w0.movies[movie].Sold() + Attempts(calls, movie) >= MOVIE_MAX_TICKETS
  }

  lemma SoldOutIsTurnedDown(w0: World, calls: seq<Request>, movie: nat)
    requires movie < |w0.movies|
    ensures TurnedDown(Run(w0.movies, calls).db, BuyTicket(movie)) <==> SoldOut(w0, calls, movie)
  {
    SoldOnDemand(w0.movies, calls, movie);
  }

  ghost predicate Free(w: World) {
    forall p | 0 <= p < |w.processes| :: w.processes[p].lock == Unlocked && w.processes[p].pc == Ready
  }

  ghost predicate OthersUnlocked(w: World, p: nat) {
    forall q | 0 <= q < |w.processes| && q != p :: w.processes[q].lock == Unlocked
  }

  lemma LeaveFrame(w: World, p: nat)
    requires Enabled(w, p) && Step(w, p).returned != w.returned
    ensures p < |Step(w, p).processes|
    ensures var c, d := w.processes[p], Step(w, p).processes[p];
      d.pc == Ready && d.todo == c.todo && d.call == c.call
  {
  }

  /** Only process p has moved, and it has made the calls `made`. */
  ghost predicate Made(w: World, t: World, p: nat, made: seq<Call>) {
    && p < |t.processes| == |w.processes|
    && (forall q | 0 <= q < |w.processes| && q != p :: t.processes[q] == w.processes[q])
    && t.processes[p].pc == Ready
    && Calls(t.returned) == Calls(w.returned) + made
    && (made != [] ==> t.returned != [] && LastOf(p, t.returned, |t.returned| - 1))
  }

  lemma CallsGrow(log: seq<Return>, grown: seq<Return>)
    requires |grown| == |log| + 1 && grown[..|log|] == log
    ensures Calls(grown) == Calls(log) + [grown[|log|].call]
  {
    assert grown == log + [grown[|log|]];
  }

  lemma CanAlwaysMove(w0: World, schedule: seq<nat>, p: nat)
    requires Initial(w0) && p < |After(w0, schedule).processes|
    requires var w := After(w0, schedule);
      w.processes[p].pc != Ready || (w.processes[p].todo != [] && OthersUnlocked(w, p))
    ensures Enabled(After(w0, schedule), p)
  {
    NoFault(w0, schedule, p);
  }

  /** A process in the middle of a call comes to its end alone. */
  lemma SoloReturns(w0: World, schedule: seq<nat>, p: nat) returns (r: seq<nat>)
    requires Initial(w0) && p < |After(w0, schedule).processes| && After(w0, schedule).processes[p].pc != Ready
    ensures var w, t := After(w0, schedule), After(w0, r);
      Made(w, t, p, [w.processes[p].call]) && t.processes[p].todo == w.processes[p].todo
    decreases StepsLeft(After(w0, schedule).processes[p].pc, |After(w0, schedule).movies|)
  {
    var w := After(w0, schedule);
    CanAlwaysMove(w0, schedule, p);
    AfterSnoc(w0, schedule, p);
    StepReturns(w, p);
    ProcessStepWorks(w, p);
    r := schedule + [p];
    if Step(w, p).returned == w.returned {
      InnerFrame(w, p);
      r := SoloReturns(w0, r, p);
    } else {
      LeaveFrame(w, p);
      CallsGrow(w.returned, Step(w, p).returned);
    }
  }

  lemma SoloCall(w0: World, schedule: seq<nat>, p: nat) returns (r: seq<nat>)
    requires Initial(w0) && p < |After(w0, schedule).processes|
    requires var w := After(w0, schedule);
      w.processes[p].pc == Ready && w.processes[p].todo != [] && OthersUnlocked(w, p)
    ensures var w, t := After(w0, schedule), After(w0, r);
      Made(w, t, p, [w.processes[p].todo[0]]) && t.processes[p].todo == w.processes[p].todo[1..]
  {
    var w := After(w0, schedule);
    CanAlwaysMove(w0, schedule, p);
    AfterSnoc(w0, schedule, p);
    StepReturns(w, p);
    assert Step(w, p).returned == w.returned;
    InnerFrame(w, p);
    r := SoloReturns(w0, schedule + [p], p);
  }

  lemma MadeTwice(w: World, m: World, t: World, p: nat, a: seq<Call>, b: seq<Call>)
    requires Made(w, m, p, a) && Made(m, t, p, b) && b != []
    ensures Made(w, t, p, a + b)
  {
    Regroup(Calls(w.returned), a, b);
  }

  lemma {:induction false} SoloCalls(w0: World, schedule: seq<nat>, p: nat, n: nat) returns (r: seq<nat>)
    requires Initial(w0) && p < |After(w0, schedule).processes|
    requires var w := After(w0, schedule);
      w.processes[p].pc == Ready && n <= |w.processes[p].todo| && OthersUnlocked(w, p)
    ensures var w, t := After(w0, schedule), After(w0, r);
      Made(w, t, p, w.processes[p].todo[..n]) && t.processes[p].todo == w.processes[p].todo[n..]
  {
    if n == 0 {
      r := schedule;
    } else {
      var w := After(w0, schedule);
      var todo := w.processes[p].todo;
      var mid := SoloCalls(w0, schedule, p, n - 1);
      r := SoloCall(w0, mid, p);
      assert todo[..n] == todo[..n - 1] + [todo[n - 1]];
      MadeTwice(w, After(w0, mid), After(w0, r), p, todo[..n - 1], [todo[n - 1]]);
    }
  }

  /** The lock of a process whose return is the last of all. */
  lemma LastLock(w0: World, schedule: seq<nat>, p: nat, before: seq<Request>, call: Call)
    requires Initial(w0) && p < |After(w0, schedule).processes| && After(w0, schedule).processes[p].pc == Ready
    requires var w := After(w0, schedule);
      w.returned != [] && LastOf(p, w.returned, |w.returned| - 1) && Calls(w.returned) == before + [call]
    ensures var lock := After(w0, schedule).processes[p].lock;
      lock == if TurnedDown(Run(w0.movies, before).db, call) then WriteLock else Unlocked
  {
    var w := After(w0, schedule);
    var n := |w.returned| - 1;
    LockKeptIff(w0, schedule, p);
    assert Calls(w.returned[..n]) == Calls(w.returned)[..n] == before;
    assert w.returned[n].call == Calls(w.returned)[n] == call;
    forall k: nat | LastOf(p, w.returned, k)
      ensures k == n
    {
      LastIsOne(p, w.returned, k, n);
    }
  }

  /** The lock of the process that made the last calls. */
  lemma LockAfter(w0: World, w: World, schedule: seq<nat>, p: nat, made: seq<Call>)
    requires Initial(w0) && made != [] && Made(w, After(w0, schedule), p, made)
    ensures var lock, last := After(w0, schedule).processes[p].lock, |made| - 1;
      lock
        == if TurnedDown(Run(w0.movies, Calls(w.returned) + made[..last]).db, made[last]) then WriteLock else Unlocked
  {
    var done, last := Calls(w.returned), |made| - 1;
    assert made == made[..last] + [made[last]];
    Regroup(done, made[..last], [made[last]]);
    LastLock(w0, schedule, p, done + made[..last], made[last]);
  }

  /** The calls up to the next attempt at the movie, which succeeds. */
  lemma NextSale(w0: World, schedule: seq<nat>, p: nat, k: nat, movie: nat) returns (r: seq<nat>)
    requires Initial(w0) && movie < |w0.movies| && Free(After(w0, schedule))
    requires p < |After(w0, schedule).processes| && 0 < k <= |After(w0, schedule).processes[p].todo|
    requires var w := After(w0, schedule);
      var todo := w.processes[p].todo;
      && !SoldOut(w0, Calls(w.returned), movie)
      && todo[k - 1] == BuyTicket(movie) && Attempts(todo[..k - 1], movie) == 0
    ensures var w, t := After(w0, schedule), After(w0, r);
      Free(t) && Made(w, t, p, w.processes[p].todo[..k]) && t.processes[p].todo == w.processes[p].todo[k..]
  {
    var w := After(w0, schedule);
    var made := w.processes[p].todo[..k];
    r := SoloCalls(w0, schedule, p, k);
    assert made[..k - 1] == w.processes[p].todo[..k - 1];
    SaleSucceeds(w0, Calls(w.returned), made[..k - 1], movie);
    LockAfter(w0, w, r, p, made);
  }

  lemma SaleSucceeds(w0: World, done: seq<Request>, front: seq<Call>, movie: nat)
    requires movie < |w0.movies| && !SoldOut(w0, done, movie) && Attempts(front, movie) == 0
    ensures !TurnedDown(Run(w0.movies, done + front).db, BuyTicket(movie))
  {
    AttemptsConcat(done, front, movie);
    SoldOutIsTurnedDown(w0, done + front, movie);
  }

  lemma Pieces(todo: seq<Call>, c: nat, n: nat, movie: int)
    requires c < n <= |todo|
    ensures todo[..c] + todo[c..][..n - c] == todo[..n] && todo[c..][n - c..] == todo[n..]
    ensures todo[c..][n - c - 1] == todo[n - 1]
    ensures Attempts(todo[..n - 1], movie) == Attempts(todo[..c], movie) + Attempts(todo[c..][..n - c - 1], movie)
  {
    assert todo[..n - 1] == todo[..c] + todo[c..][..n - c - 1];
    AttemptsConcat(todo[..c], todo[c..][..n - c - 1], movie);
  }

  /** Extends the calls of a gathering by those up to the next attempt. */
  lemma GatherOne(w0: World, w: World, schedule: seq<nat>, p: nat, todo: seq<Call>, c: nat, n: nat, movie: nat)
    returns (r: seq<nat>)
    requires Initial(w0) && movie < |w0.movies| && c < n <= |todo|
    requires var m := After(w0, schedule);
      && Free(m) && Made(w, m, p, todo[..c]) && m.processes[p].todo == todo[c..]
      && !SoldOut(w0, Calls(m.returned), movie) && todo[n - 1] == BuyTicket(movie)
    requires Attempts(todo[..c], movie) == Attempts(todo[..n - 1], movie)
    ensures var t := After(w0, r);
      Free(t) && Made(w, t, p, todo[..n]) && t.processes[p].todo == todo[n..]
  {
    Pieces(todo, c, n, movie);
    r := NextSale(w0, schedule, p, n - c, movie);
    MadeTwice(w, After(w0, schedule), After(w0, r), p, todo[..c], todo[c..][..n - c]);
  }

  lemma AttemptsStep(todo: seq<Call>, n: nat, movie: int)
    requires 0 < n <= |todo|
    ensures Attempts(todo[..n], movie)
      == Attempts(todo[..n - 1], movie) + if todo[n - 1] == BuyTicket(movie) then 1 else 0
  {
    assert todo[..n][..n - 1] == todo[..n - 1];
  }

  /** Process p makes calls from the front of its list, at most n, until the movie is sold out or all attempts among
      the n are made, and leaves no lock. */
  lemma {:induction false} Gather(w0: World, schedule: seq<nat>, p: nat, n: nat, movie: nat)
    returns (r: seq<nat>, c: nat)
    requires Initial(w0) && movie < |w0.movies| && Free(After(w0, schedule))
    requires p < |After(w0, schedule).processes| && n <= |After(w0, schedule).processes[p].todo|
    ensures var w, t := After(w0, schedule), After(w0, r);
      var todo := w.processes[p].todo;
      && Free(t) && c <= n && Made(w, t, p, todo[..c]) && t.processes[p].todo == todo[c..]
      && (SoldOut(w0, Calls(t.returned), movie) || Attempts(todo[..c], movie) == Attempts(todo[..n], movie))
  {
    if n == 0 {
      r, c := schedule, 0;
    } else {
      var w := After(w0, schedule);
      var todo := w.processes[p].todo;
      r, c := Gather(w0, schedule, p, n - 1, movie);
      AttemptsStep(todo, n, movie);
      if !SoldOut(w0, Calls(After(w0, r).returned), movie) && todo[n - 1] == BuyTicket(movie) {
        r := GatherOne(w0, w, r, p, todo, c, n, movie);
        c := n;
      }
    }
  }

  /** The whole list, or all but its last call. */
  lemma GatherPart(w0: World, schedule: seq<nat>, p: nat, held: bool, movie: nat) returns (r: seq<nat>)
    requires Initial(w0) && movie < |w0.movies| && Free(After(w0, schedule)) && p < |After(w0, schedule).processes|
    ensures var w, t := After(w0, schedule), After(w0, r);
      var todo := w.processes[p].todo;
      && Free(t) && p < |t.processes| == |w.processes|
      && (forall q | 0 <= q < |w.processes| && q != p :: t.processes[q] == w.processes[q])
      && (held && todo != [] ==> t.processes[p].todo != [])
      && (|| SoldOut(w0, Calls(t.returned), movie)
          || Attempts(Calls(t.returned), movie)
             == Attempts(Calls(w.returned), movie) + Attempts(Part(todo, held), movie))
  {
    var w := After(w0, schedule);
    var todo := w.processes[p].todo;
    var n, c := |Part(todo, held)|, 0;
    r, c := Gather(w0, schedule, p, n, movie);
    assert todo[..n] == Part(todo, held);
    AttemptsConcat(Calls(w.returned), todo[..c], movie);
  }

  /** What the processes other than i offer. */
  function Gathered(processes: seq<Process>, movie: int, i: nat, j: nat): nat {
    if processes == [] then 0
    else
      var n := |processes| - 1;
      Gathered(processes[..n], movie, i, j) + if n == i then 0 else Attempts(Part(processes[n].todo, n == j), movie)
  }

  lemma {:induction false} OfferedIsGathered(processes: seq<Process>, movie: int, i: nat, j: nat)
    ensures Offered(processes, movie, i, j) == Gathered(processes, movie, i, j)
      + if i < |processes| then Attempts(Part(processes[i].todo, true), movie) else 0
  {
    if processes == [] {
    } else {
      OfferedIsGathered(processes[..|processes| - 1], movie, i, j);
    }
  }

  /** The first x processes but i have gathered attempts at the movie, all they offer or until it was sold out; j has
      kept a call. */
  ghost predicate Gathering(w0: World, t: World, x: nat, i: nat, j: nat, movie: nat)
    requires movie < |w0.movies| && x <= |w0.processes|
  {
    && |t.processes| == |w0.processes| && Free(t)
    && (j < |w0.processes| && w0.processes[j].todo != [] ==> t.processes[j].todo != [])
    && (forall q | 0 <= q < |w0.processes| && (q >= x || q == i) :: t.processes[q] == w0.processes[q])
    && (|| SoldOut(w0, Calls(t.returned), movie)
        || Attempts(Calls(t.returned), movie) == Gathered(w0.processes[..x], movie, i, j))
  }

  lemma GatheringGoesOn(w0: World, w: World, t: World, p: nat, i: nat, j: nat, movie: nat)
    requires movie < |w0.movies| && p < |w0.processes| && p != i
    requires Gathering(w0, w, p, i, j, movie) && !SoldOut(w0, Calls(w.returned), movie)
    requires Free(t) && |t.processes| == |w.processes|
    requires forall q | 0 <= q < |w.processes| && q != p :: t.processes[q] == w.processes[q]
    requires p == j && w.processes[p].todo != [] ==> t.processes[p].todo != []
    requires || SoldOut(w0, Calls(t.returned), movie)
      || Attempts(Calls(t.returned), movie)
         == Attempts(Calls(w.returned), movie) + Attempts(Part(w.processes[p].todo, p == j), movie)
    ensures Gathering(w0, t, p + 1, i, j, movie)
  {
    assert w0.processes[..p + 1][..p] == w0.processes[..p];
    assert w.processes[p] == w0.processes[p];
  }

  lemma GatheringSkips(w0: World, w: World, p: nat, i: nat, j: nat, movie: nat)
    requires movie < |w0.movies| && p < |w0.processes| && Gathering(w0, w, p, i, j, movie)
    requires p == i || SoldOut(w0, Calls(w.returned), movie)
    ensures Gathering(w0, w, p + 1, i, j, movie)
  {
    assert w0.processes[..p + 1][..p] == w0.processes[..p];
  }

  lemma {:induction false} GatherAll(w0: World, x: nat, i: nat, j: nat, movie: nat) returns (r: seq<nat>)
    requires Initial(w0) && movie < |w0.movies| && x <= |w0.processes|
    ensures Gathering(w0, After(w0, r), x, i, j, movie)
  {
    if x == 0 {
      r := [];
    } else {
      var p := x - 1;
      r := GatherAll(w0, p, i, j, movie);
      var w := After(w0, r);
      if p == i || SoldOut(w0, Calls(w.returned), movie) {
        GatheringSkips(w0, w, p, i, j, movie);
      } else {
        r := GatherPart(w0, r, p, p == j, movie);
        GatheringGoesOn(w0, w, After(w0, r), p, i, j, movie);
      }
    }
  }

  /** The purchase that is turned down at the end of list i, with j still to call. */
  lemma Strands(w0: World, i: nat, j: nat)
    requires Initial(w0) && CanStrand(w0, i, j)
    ensures !Finishes(w0)
  {
    var list := w0.processes[i].todo;
    var movie, r := list[|list| - 1].movie, [];
    if 0 <= movie < |w0.movies| {
      r := GatherAll(w0, |w0.processes|, i, j, movie);
      assert w0.processes[..|w0.processes|] == w0.processes;
    }
    LastIsTurnedDown(w0, After(w0, r), i, j);
    StrandsFrom(w0, r, i, j);
  }

  lemma StrandsFrom(w0: World, schedule: seq<nat>, i: nat, j: nat)
    requires Initial(w0) && CanStrand(w0, i, j)
    requires var w, list := After(w0, schedule), w0.processes[i].todo;
      && |w.processes| == |w0.processes| && Free(w)
      && w.processes[i] == w0.processes[i] && w.processes[j].todo != []
      && TurnedDown(Run(w0.movies, Calls(w.returned) + list[..|list| - 1]).db, list[|list| - 1])
    ensures !Finishes(w0)
  {
    var full := LastCallLocks(w0, schedule, i, j);
    StandsStillIff(w0, full);
    var t := After(w0, full);
    assert Done(t.processes[i]) && !Done(t.processes[j]);
    assert Standstill(t) && !AllDone(t);
  }

  lemma LastCallLocks(w0: World, schedule: seq<nat>, i: nat, j: nat) returns (full: seq<nat>)
    requires Initial(w0) && i < |w0.processes| && j < |w0.processes| && i != j && w0.processes[i].todo != []
    requires var w, list := After(w0, schedule), w0.processes[i].todo;
      && |w.processes| == |w0.processes| && Free(w)
      && w.processes[i] == w0.processes[i] && w.processes[j].todo != []
      && TurnedDown(Run(w0.movies, Calls(w.returned) + list[..|list| - 1]).db, list[|list| - 1])
    ensures var t := After(w0, full);
      && |t.processes| == |w0.processes|
      && Done(t.processes[i]) && t.processes[i].lock == WriteLock && t.processes[j].todo != []
  {
    var list := w0.processes[i].todo;
    full := SoloCalls(w0, schedule, i, |list|);
    assert list[..|list|] == list;
    LockAfter(w0, After(w0, schedule), full, i, list);
  }

  lemma LastIsTurnedDown(w0: World, w: World, i: nat, j: nat)
    requires CanStrand(w0, i, j)
    requires var list := w0.processes[i].todo;
      var movie := list[|list| - 1].movie;
      0 <= movie < |w0.movies| ==>
        || SoldOut(w0, Calls(w.returned), movie)
        || Attempts(Calls(w.returned), movie) == Gathered(w0.processes, movie, i, j)
    ensures var list := w0.processes[i].todo;
      TurnedDown(Run(w0.movies, Calls(w.returned) + list[..|list| - 1]).db, list[|list| - 1])
  {
    var list := w0.processes[i].todo;
    var movie, before := list[|list| - 1].movie, Calls(w.returned) + list[..|list| - 1];
    if 0 <= movie < |w0.movies| {
      AttemptsConcat(Calls(w.returned), list[..|list| - 1], movie);
      OfferedIsGathered(w0.processes, movie, i, j);
      SoldOutIsTurnedDown(w0, before, movie);
    } else {
      RunKeepsCount(w0.movies, before);
    }
  }

  /** For these lists and this database every run returns from all calls exactly when there are no two processes such
      that one's last call is a purchase that can find the movie missing or sold out while the other has a call left. */
  lemma FinishesIff(w0: World)
    requires Initial(w0)
    ensures Finishes(w0) <==> forall i, j :: !CanStrand(w0, i, j)
  {
    if i, j :| CanStrand(w0, i, j) {
      Strands(w0, i, j);
    } else {
      forall schedule: seq<nat> | Standstill(After(w0, schedule))
        ensures AllDone(After(w0, schedule))
      {
        ReturnersExist(w0, schedule);
        StandsStillIff(w0, schedule);
        var w := After(w0, schedule);
        if !AllDone(w) {
          var q: nat :| q < |w.processes| && Done(w.processes[q]) && w.processes[q].lock == WriteLock;
          var j: nat :| j < |w.processes| && !Done(w.processes[j]);
          StrandedBy(w0, schedule, q, j);
        }
      }
    }
  }
}
