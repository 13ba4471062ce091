/** Which groups of processes on one database always get all their calls answered, and that every run ends. */
module SharedDatabaseProgress {
  import opened Movies
  import opened Sales
  import opened Database
  import opened SharedDatabase

  // When everybody gets through

  /** Whatever the database holds at the start, a run that can go no further has returned from every call. */
  ghost predicate AlwaysFinishes(w0: World) {
    forall db: Catalog, schedule: seq<nat> ::
      Standstill(After(w0.(movies := db), schedule)) ==> AllDone(After(w0.(movies := db), schedule))
  }

  ghost predicate AtMostOneCalls(w0: World) {
    forall p, q | 0 <= p < q < |w0.processes| :: w0.processes[p].todo == [] || w0.processes[q].todo == []
  }

  predicate EndsInPurchase(todo: seq<Call>) {
    todo != [] && todo[|todo| - 1].BuyTicket?
  }

  /** Everybody gets through, whatever the database holds, exactly when at most one process has calls to make or no
      process's last call is a purchase. */
  lemma AlwaysFinishesIff(w0: World)
    requires Initial(w0)
    ensures AlwaysFinishes(w0) <==>
      AtMostOneCalls(w0) || forall p | 0 <= p < |w0.processes| :: !EndsInPurchase(w0.processes[p].todo)
  {
    if AtMostOneCalls(w0) || forall p | 0 <= p < |w0.processes| :: !EndsInPurchase(w0.processes[p].todo) {
      forall db: Catalog, schedule: seq<nat> | Standstill(After(w0.(movies := db), schedule))
        ensures AllDone(After(w0.(movies := db), schedule))
      {
        StandstillIsFinished(w0.(movies := db), schedule);
      }
    } else {
      var i: nat :| i < |w0.processes| && EndsInPurchase(w0.processes[i].todo);
      var a: nat, b: nat :| a < b < |w0.processes| && w0.processes[a].todo != [] && w0.processes[b].todo != [];
      LastBuyerBlocks(w0.(movies := []), i, if i == a then b else a);
    }
  }

  /** Who holds the write lock with nothing left to do made a purchase last. */
  lemma HolderEndsInPurchase(w0: World, schedule: seq<nat>, q: nat)
    requires Initial(w0) && q < |After(w0, schedule).processes| == |w0.processes|
    requires Done(After(w0, schedule).processes[q]) && After(w0, schedule).processes[q].lock == WriteLock
    ensures EndsInPurchase(w0.processes[q].todo)
  {
    var w := After(w0, schedule);
    AfterInv(w0, schedule);
    AfterRemembered(w0, schedule);
    assert LockFits(w.processes[q]);
    assert CallsOf(q, w.returned) + [] + [] == CallsOf(q, w.returned);
    if CallsOf(q, w.returned) == [] { NoReturn(q, w.returned); }
  }

  lemma StandstillIsFinished(w0: World, schedule: seq<nat>)
    requires Initial(w0) && Standstill(After(w0, schedule))
    requires AtMostOneCalls(w0) || forall p | 0 <= p < |w0.processes| :: !EndsInPurchase(w0.processes[p].todo)
    ensures AllDone(After(w0, schedule))
  {
    var w := After(w0, schedule);
    AfterInv(w0, schedule);
    StandsStillIff(w0, schedule);
    if q: nat :| q < |w.processes| && Done(w.processes[q]) && w.processes[q].lock == WriteLock {
      HolderEndsInPurchase(w0, schedule, q);
      forall p | 0 <= p < |w.processes|
        ensures Done(w.processes[p])
      {
        var c := w.processes[p];
        assert CallsOf(p, w.returned) + (if c.pc == Ready then [] else [c.call]) + c.todo == w0.processes[p].todo;
        assert p != q ==> w0.processes[p].todo == [];
      }
    }
  }

  // On an empty database every call takes two steps, and every purchase is turned down

  function Times(i: nat, n: nat): seq<nat> {
    seq(n, _ => i)
  }

  lemma AfterSnoc(w0: World, schedule: seq<nat>, p: nat)
    requires Enabled(After(w0, schedule), p)
    ensures After(w0, schedule + [p]) == Step(After(w0, schedule), p)
  {
    assert (schedule + [p])[..|schedule|] == schedule;
  }

  lemma TwoSteps(w0: World, schedule: seq<nat>, i: nat)
    requires var w := After(w0, schedule);
      && i < |w.processes| && w.movies == [] && w.processes[i].pc == Ready && w.processes[i].todo != []
      && forall q | 0 <= q < |w.processes| && q != i :: w.processes[q].lock == Unlocked
    ensures var w, t := After(w0, schedule), After(w0, schedule + [i] + [i]);
      && t.movies == [] && |t.processes| == |w.processes|
      && (forall q | 0 <= q < |w.processes| && q != i :: t.processes[q] == w.processes[q])
      && t.processes[i].pc == Ready && t.processes[i].todo == w.processes[i].todo[1..]
      && t.processes[i].lock == if w.processes[i].todo[0].BuyTicket? then WriteLock else Unlocked
  {
    AfterSnoc(w0, schedule, i);
    AfterSnoc(w0, schedule + [i], i);
  }

  lemma {:induction false} AloneOnEmpty(w0: World, i: nat, n: nat)
    requires Initial(w0) && w0.movies == [] && i < |w0.processes| && n <= |w0.processes[i].todo|
    ensures var t, todo := After(w0, Times(i, 2 * n)), w0.processes[i].todo;
      && t.movies == [] && |t.processes| == |w0.processes|
      && (forall q | 0 <= q < |w0.processes| && q != i :: t.processes[q] == w0.processes[q])
      && t.processes[i].pc == Ready && t.processes[i].todo == todo[n..]
      && t.processes[i].lock == if EndsInPurchase(todo[..n]) then WriteLock else Unlocked
  {
    if n == 0 {
    } else {
      AloneOnEmpty(w0, i, n - 1);
      assert Times(i, 2 * n) == Times(i, 2 * (n - 1)) + [i] + [i];
      TwoSteps(w0, Times(i, 2 * (n - 1)), i);
    }
  }

  /** Process i makes all its calls, is turned down at the last, and keeps j waiting for ever. */
  lemma LastBuyerBlocks(w0: World, i: nat, j: nat)
    requires Initial(w0) && w0.movies == [] && i < |w0.processes| && j < |w0.processes| && i != j
    requires EndsInPurchase(w0.processes[i].todo) && w0.processes[j].todo != []
    ensures var t := After(w0, Times(i, 2 * |w0.processes[i].todo|));
      Standstill(t) && !AllDone(t)
  {
    var n := |w0.processes[i].todo|;
    AloneOnEmpty(w0, i, n);
    assert w0.processes[i].todo[..n] == w0.processes[i].todo;
    StandsStillIff(w0, Times(i, 2 * n));
    assert !Done(After(w0, Times(i, 2 * n)).processes[j]);
  }

  /** The smallest case: after the refusal of a purchase from an empty database, another process's lookup waits for a
      lock that nobody will release. */
  lemma LookupLeftWaiting()
    ensures var w0 := World([], [Process(Unlocked, Ready, [BuyTicket(0)], GetTicket(0), []),
                                 Process(Unlocked, Ready, [GetTicket(1)], GetTicket(0), [])], []);
      && Initial(w0) && Standstill(After(w0, [0, 0]))
      && |After(w0, [0, 0]).processes| == 2 && After(w0, [0, 0]).processes[1] == w0.processes[1]
  {
    var w0 := World([], [Process(Unlocked, Ready, [BuyTicket(0)], GetTicket(0), []),
                         Process(Unlocked, Ready, [GetTicket(1)], GetTicket(0), [])], []);
    LastBuyerBlocks(w0, 0, 1);
    AloneOnEmpty(w0, 0, 1);
    assert Times(0, 2) == [0, 0];
  }

  // Every run ends

  /** Steps of a call: eight for a purchase, and one per slot, with lock and unlock, for a lookup. */
  function CallSteps(call: Call, movies: nat): nat {
    if call.BuyTicket? then 8 else 2 + MOVIE_MAX_TICKETS * movies
  }

  function TodoSteps(todo: seq<Call>, movies: nat): nat {
    if todo == [] then 0 else CallSteps(todo[0], movies) + TodoSteps(todo[1..], movies)
  }

  function StepsLeft(pc: Pc, movies: nat): int {
    match pc
    case Ready => 0
    case CheckBuy => 7
    case ComputeTicket => 6
    case PickSlot(_) => 5
    case StoreTicket(_, _) => 4
    case LoadCounter(_) => 3
    case Decrement(_, _) => 2
    case UnlockBuy(_) => 1
    case Scan(movie, slot, _) =>
      if movie < movies && slot < MOVIE_MAX_TICKETS then MOVIE_MAX_TICKETS * (movies - movie) - slot + 1 else 0
    case UnlockFind(_) => 1
  }

  function Work(processes: seq<Process>, movies: nat): nat {
    if processes == [] then 0
    else
      var c := processes[|processes| - 1];
      Work(processes[..|processes| - 1], movies) + TodoSteps(c.todo, movies) + StepsLeft(c.pc, movies)
  }

  lemma {:induction false} WorkUpdate(processes: seq<Process>, movies: nat, p: nat, c: Process)
    requires p < |processes|
    ensures Work(processes[p := c], movies) == Work(processes, movies)
      - TodoSteps(processes[p].todo, movies) - StepsLeft(processes[p].pc, movies)
      + TodoSteps(c.todo, movies) + StepsLeft(c.pc, movies)
  {
    var n := |processes| - 1;
    if p == n {
      assert processes[p := c][..n] == processes[..n];
    } else {
      assert processes[p := c][..n] == processes[..n][p := c];
      WorkUpdate(processes[..n], movies, p, c);
    }
  }

  lemma ProcessStepWorks(w: World, p: nat)
    requires Enabled(w, p)
    ensures var t, m := Step(w, p), |w.movies|;
      && |t.movies| == m && |t.processes| == |w.processes|
      && var before := TodoSteps(w.processes[p].todo, m) + StepsLeft(w.processes[p].pc, m);
        var after := TodoSteps(t.processes[p].todo, m) + StepsLeft(t.processes[p].pc, m);
        && after < before && (after == before - 1 || t.returned != w.returned)
  {
  }

  /** A step is one unit of work, and a refusal saves the six steps of the purchase that does not happen. */
  lemma StepWorks(w: World, p: nat)
    requires Enabled(w, p)
    ensures var t, m := Step(w, p), |w.movies|;
      && |t.movies| == m && Work(t.processes, m) < Work(w.processes, m)
      && (t.returned == w.returned ==> Work(t.processes, m) == Work(w.processes, m) - 1)
  {
    var t := Step(w, p);
    ProcessStepWorks(w, p);
    StepReturns(w, p);
    assert t.processes == w.processes[p := t.processes[p]];
    WorkUpdate(w.processes, |w.movies|, p, t.processes[p]);
  }

  /** Every run can be continued to one that stands still. */
  lemma RunsEnd(w0: World, schedule: seq<nat>) returns (full: seq<nat>)
    ensures |full| >= |schedule| && full[..|schedule|] == schedule && Standstill(After(w0, full))
    decreases Work(After(w0, schedule).processes, |After(w0, schedule).movies|)
  {
    var w := After(w0, schedule);
    if Standstill(w) {
      full := schedule;
    } else {
      var p: nat :| Enabled(w, p);
      StepWorks(w, p);
      AfterSnoc(w0, schedule, p);
      full := RunsEnd(w0, schedule + [p]);
    }
  }
}
