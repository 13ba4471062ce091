/**
 * Several server processes on one mapped database: `db_buy_ticket` and `db_get_ticket` taken apart into
 * single reads and writes, interleaved under the `fcntl` record lock.
 */
module SharedDatabase {
  import opened Movies
  import opened Sales
  import opened Database

  type Call = r: Request | r.BuyTicket? || r.GetTicket? witness GetTicket(0)

  /** The next step of a process; Ready is outside the two functions, the next step takes a lock. */
  datatype Pc =
    | Ready
    | CheckBuy
    | ComputeTicket
    | PickSlot(ticket: int)
    | StoreTicket(ticket: int, cell: int)
    | LoadCounter(ticket: int)
    | Decrement(ticket: int, counter: int)
    | UnlockBuy(ticket: int)
    | Scan(movie: nat, slot: nat, found: int)
    | UnlockFind(found: int)

  /** `call` is the call under way, or the last one made. */
  datatype Process = Process(lock: Lock, pc: Pc, todo: seq<Call>, call: Call, results: seq<int>)

  datatype Return = Return(process: nat, call: Call, result: int)

  /** `returned` records, for the theorems only, the calls in the order of returning. */
  datatype World = World(movies: Catalog, processes: seq<Process>, returned: seq<Return>)

  function Wanted(call: Call): Lock {
    if call.BuyTicket? then WriteLock else ReadLock
  }

  /** `F_SETLKW` looks only at what other processes hold; the caller's own lock is replaced. */
  predicate Grantable(w: World, p: nat, kind: Lock) {
    forall q | 0 <= q < |w.processes| && q != p ::
      if kind == WriteLock then w.processes[q].lock == Unlocked else w.processes[q].lock != WriteLock
  }

  /** The memory accesses of the next step are inside the mapped array and inside the counter's range. */
  predicate InBounds(w: World, p: nat)
    requires p < |w.processes|
  {
    var c := w.processes[p];
    match c.pc
    case ComputeTicket => c.call.BuyTicket? && 0 <= c.call.movie < |w.movies|
    case PickSlot(_) => c.call.BuyTicket? && 0 <= c.call.movie < |w.movies|
    case StoreTicket(_, slot) =>
      c.call.BuyTicket? && 0 <= c.call.movie < |w.movies| && 0 <= slot < MOVIE_MAX_TICKETS
    case LoadCounter(_) => c.call.BuyTicket? && 0 <= c.call.movie < |w.movies|
    case Decrement(_, counter) =>
      c.call.BuyTicket? && 0 <= c.call.movie < |w.movies| && 1 <= counter <= MOVIE_MAX_TICKETS
    case Scan(movie, slot, _) =>
      c.call.GetTicket? && slot < MOVIE_MAX_TICKETS && movie < |w.movies|
    case CheckBuy => c.call.BuyTicket?
    case _ => true
  }

  predicate Enabled(w: World, p: nat) {
    && p < |w.processes|
    && (w.processes[p].pc == Ready ==>
         w.processes[p].todo != [] && Grantable(w, p, Wanted(w.processes[p].todo[0])))
    && InBounds(w, p)
  }

  function Set(w: World, p: nat, c: Process): World
    requires p < |w.processes|
  {
    w.(processes := w.processes[p := c])
  }

  /** Leaves the function with a result; whether the lock was released is up to the caller. */
  function Leave(w: World, p: nat, lock: Lock, result: int): World
    requires p < |w.processes|
  {
    var c := w.processes[p];
    Set(w, p, c.(lock := lock, pc := Ready, results := c.results + [result]))
      .(returned := w.returned + [Return(p, c.call, result)])
  }

  function Step(w: World, p: nat): World
    requires Enabled(w, p)
  {
    var c := w.processes[p];
    match c.pc
    case Ready =>
      var call := c.todo[0];
      var pc := if call.BuyTicket? then CheckBuy else if w.movies == [] then UnlockFind(-1) else Scan(0, 0, -1);
      Set(w, p, c.(lock := Wanted(call), pc := pc, todo := c.todo[1..], call := call))
    case CheckBuy =>
      if c.call.movie < 0 || c.call.movie >= |w.movies| then Leave(w, p, c.lock, ERR_NO_SUCH_MOVIE)
      else if w.movies[c.call.movie].remaining == 0 then Leave(w, p, c.lock, ERR_NO_MORE_TICKETS)
      else Set(w, p, c.(pc := ComputeTicket))
    case ComputeTicket =>
      Set(w, p, c.(pc := PickSlot(Number(c.call.movie, w.movies[c.call.movie].Sold()))))
    case PickSlot(ticket) =>
      Set(w, p, c.(pc := StoreTicket(ticket, w.movies[c.call.movie].Sold())))
    case StoreTicket(ticket, slot) =>
      var m := w.movies[c.call.movie];
      Set(w, p, c.(pc := LoadCounter(ticket)))
        .(movies := w.movies[c.call.movie := m.(tickets := m.tickets[slot := ticket])])
    case LoadCounter(ticket) =>
      Set(w, p, c.(pc := Decrement(ticket, w.movies[c.call.movie].remaining)))
    case Decrement(ticket, counter) =>
      var m := w.movies[c.call.movie];
      Set(w, p, c.(pc := UnlockBuy(ticket)))
        .(movies := w.movies[c.call.movie := m.(remaining := counter - 1)])
    case UnlockBuy(ticket) => Leave(w, p, Unlocked, ticket)
    case Scan(movie, slot, found) =>
      var now := if w.movies[movie].tickets[slot] == c.call.ticket then movie else found;
      Set(w, p, c.(pc :=
        if slot + 1 < MOVIE_MAX_TICKETS then Scan(movie, slot + 1, now)
        else if movie + 1 < |w.movies| then Scan(movie + 1, 0, now)
        else UnlockFind(now)))
    case UnlockFind(found) => Leave(w, p, Unlocked, found)
  }

  function After(w: World, schedule: seq<nat>): World {
    if schedule == [] then w
    else
      var mid := After(w, schedule[..|schedule| - 1]);
      var p := schedule[|schedule| - 1];
      if Enabled(mid, p) then Step(mid, p) else mid
  }

  ghost predicate Initial(w: World) {
    && w.returned == []
    && forall p | 0 <= p < |w.processes| ::
      w.processes[p].lock == Unlocked && w.processes[p].pc == Ready && w.processes[p].results == []
  }

  // The sequential run that the interleaving is compared with

  function Calls(log: seq<Return>): seq<Request> {
    seq(|log|, i requires 0 <= i < |log| => log[i].call)
  }

  function Results(log: seq<Return>): seq<int> {
    seq(|log|, i requires 0 <= i < |log| => log[i].result)
  }

  /** The database after the calls that have returned, one after the other. */
  function Committed(w0: World, w: World): Catalog {
    Run(w0.movies, Calls(w.returned)).db
  }

  function ResultsOf(p: nat, log: seq<Return>): seq<int> {
    if log == [] then []
    else
      var r := log[|log| - 1];
      ResultsOf(p, log[..|log| - 1]) + if r.process == p then [r.result] else []
  }

  function CallsOf(p: nat, log: seq<Return>): seq<Call> {
    if log == [] then []
    else
      var r := log[|log| - 1];
      CallsOf(p, log[..|log| - 1]) + if r.process == p then [r.call] else []
  }

  // The invariant

  predicate Buying(pc: Pc) {
    || pc.CheckBuy? || pc.ComputeTicket? || pc.PickSlot? || pc.StoreTicket?
    || pc.LoadCounter? || pc.Decrement? || pc.UnlockBuy?
  }

  predicate Finding(pc: Pc) {
    pc.Scan? || pc.UnlockFind?
  }

  predicate Refused(c: Process) {
    c.results != [] && c.call.BuyTicket? && c.results[|c.results| - 1] <= 0
  }

  /** The lock a process holds follows from where it is, and outside from how its last call ended. */
  predicate LockFits(c: Process) {
    match c.pc
    case Ready => c.lock == if Refused(c) then WriteLock else Unlocked
    case _ => c.lock == Wanted(c.call) && (Buying(c.pc) <==> c.call.BuyTicket?)
  }

  ghost predicate Exclusive(w: World) {
    forall p, q | 0 <= p < |w.processes| && 0 <= q < |w.processes| && p != q ::
      w.processes[p].lock == WriteLock ==> w.processes[q].lock == Unlocked
  }

  /** What the scan has found in all rows before `movie`, and in `slot` slots of that row. */
  function Seen(db: Catalog, ticket: int, movie: nat, slot: nat): int
    requires movie < |db| && slot <= MOVIE_MAX_TICKETS
  {
    if ticket in db[movie].tickets[..slot] then movie else Find(db[..movie], ticket)
  }

  /** The memory between the two writes of a purchase: the ticket is in its slot, the counter not yet taken down. */
  function Stored(db: Catalog, movie: int, ticket: int): Catalog
    requires Buy(db, movie).result > 0
  {
    var m := db[movie];
    db[movie := m.(tickets := m.tickets[m.Sold() := ticket])]
  }

  /** What a process in the middle of a call knows about the shared memory; `db` is the committed database. */
  predicate Knows(c: Process, movies: Catalog, db: Catalog) {
    && (Buying(c.pc) ==> c.call.BuyTicket?)
    && (Finding(c.pc) ==> c.call.GetTicket?)
    && match c.pc
    case Ready => true
    case CheckBuy => movies == db
    case ComputeTicket => movies == db && Buy(db, c.call.movie).result > 0
    case PickSlot(ticket) => movies == db && ticket == Buy(db, c.call.movie).result > 0
    case StoreTicket(ticket, slot) =>
      movies == db && ticket == Buy(db, c.call.movie).result > 0 && slot == db[c.call.movie].Sold()
    case LoadCounter(ticket) => ticket == Buy(db, c.call.movie).result > 0 && movies == Stored(db, c.call.movie, ticket)
    case Decrement(ticket, counter) =>
      && ticket == Buy(db, c.call.movie).result > 0 && movies == Stored(db, c.call.movie, ticket)
      && counter == db[c.call.movie].remaining
    case UnlockBuy(ticket) => Outcome(movies, ticket) == Buy(db, c.call.movie) && ticket > 0
    case Scan(movie, slot, found) =>
      movies == db && movie < |db| && slot < MOVIE_MAX_TICKETS && found == Seen(db, c.call.ticket, movie, slot)
    case UnlockFind(found) => movies == db && found == Find(db, c.call.ticket)
  }

  predicate HalfWay(pc: Pc) {
    pc.LoadCounter? || pc.Decrement? || pc.UnlockBuy?
  }

  ghost predicate Consistent(w0: World, w: World) {
    var db := Committed(w0, w);
    && (forall p | 0 <= p < |w.processes| :: Knows(w.processes[p], w.movies, db))
    && ((forall p | 0 <= p < |w.processes| :: !HalfWay(w.processes[p].pc)) ==> w.movies == db)
  }

  ghost predicate Locked(w: World) {
    Exclusive(w) && forall p | 0 <= p < |w.processes| :: LockFits(w.processes[p])
  }

  /** Each process's results and calls are its share of the common history. */
  ghost predicate Recorded(w0: World, w: World) {
    && |w.processes| == |w0.processes|
    && Run(w0.movies, Calls(w.returned)).results == Results(w.returned)
    && forall p | 0 <= p < |w.processes| ::
      var c := w.processes[p];
      && c.results == ResultsOf(p, w.returned)
      && CallsOf(p, w.returned) + (if c.pc == Ready then [] else [c.call]) + c.todo == w0.processes[p].todo
  }

  ghost predicate Inv(w0: World, w: World) {
    Locked(w) && Consistent(w0, w) && Recorded(w0, w)
  }

  lemma StepLocked(w: World, p: nat)
    requires Locked(w) && Enabled(w, p) && (w.processes[p].pc.UnlockBuy? ==> w.processes[p].pc.ticket > 0)
    ensures Locked(Step(w, p))
  {
  }

  lemma CallsSnoc(w0: World, log: seq<Return>, r: Return)
    ensures var db := Run(w0.movies, Calls(log)).db;
      && Run(w0.movies, Calls(log + [r])).db == Perform(db, r.call).db
      && Run(w0.movies, Calls(log + [r])).results
         == Run(w0.movies, Calls(log)).results + [Perform(db, r.call).result]
      && Results(log + [r]) == Results(log) + [r.result]
  {
    assert Calls(log + [r])[..|log|] == Calls(log);
  }

  lemma SharesSnoc(p: nat, log: seq<Return>, r: Return)
    ensures ResultsOf(p, log + [r]) == ResultsOf(p, log) + if r.process == p then [r.result] else []
    ensures CallsOf(p, log + [r]) == CallsOf(p, log) + if r.process == p then [r.call] else []
  {
    assert (log + [r])[..|log|] == log;
  }

  lemma InitialInv(w0: World)
    requires Initial(w0)
    ensures Inv(w0, w0)
  {
  }

  lemma InnerFrame(w: World, p: nat)
    requires Enabled(w, p) && Step(w, p).returned == w.returned
    ensures var t, c := Step(w, p), w.processes[p];
      && |t.processes| == |w.processes|
      && (forall q | 0 <= q < |w.processes| && q != p :: t.processes[q] == w.processes[q])
      && var d := t.processes[p];
        && d.results == c.results && d.pc != Ready
        && if c.pc == Ready then c.todo != [] && d.call == c.todo[0] && d.todo == c.todo[1..]
           else d.call == c.call && d.todo == c.todo
  {
  }

  /** Steps inside a call: nothing returns. */
  lemma InnerStepRecorded(w0: World, w: World, p: nat)
    requires Recorded(w0, w) && Enabled(w, p) && Step(w, p).returned == w.returned
    ensures Recorded(w0, Step(w, p))
  {
    var c, calls := w.processes[p], CallsOf(p, w.returned);
    InnerFrame(w, p);
    assert calls + (if c.pc == Ready then [] else [c.call]) + c.todo == w0.processes[p].todo;
    if c.pc == Ready { assert calls + [] + c.todo == calls + [c.todo[0]] + c.todo[1..]; }
  }

  lemma SeenNext(db: Catalog, ticket: int, movie: nat, slot: nat)
    requires movie < |db| && slot < MOVIE_MAX_TICKETS
    ensures Seen(db, ticket, movie, slot + 1)
      == if db[movie].tickets[slot] == ticket then movie else Seen(db, ticket, movie, slot)
  {
    var row := db[movie].tickets;
    assert row[..slot + 1] == row[..slot] + [row[slot]];
  }

  lemma SeenRow(db: Catalog, ticket: int, movie: nat)
    requires movie < |db|
    ensures Seen(db, ticket, movie, MOVIE_MAX_TICKETS) == Find(db[..movie + 1], ticket)
    ensures movie + 1 == |db| ==> Seen(db, ticket, movie, MOVIE_MAX_TICKETS) == Find(db, ticket)
  {
    assert db[movie].tickets[..MOVIE_MAX_TICKETS] == db[movie].tickets;
    assert db[..movie + 1][..movie] == db[..movie];
    if movie + 1 == |db| { assert db[..movie + 1] == db; }
  }

  lemma EntryKnows(w: World, p: nat, db: Catalog)
    requires Enabled(w, p) && w.processes[p].pc == Ready && w.movies == db
    ensures Knows(Step(w, p).processes[p], Step(w, p).movies, db)
  {
  }

  lemma BuyKnows(w: World, p: nat, db: Catalog)
    requires Enabled(w, p) && Knows(w.processes[p], w.movies, db) && Buying(w.processes[p].pc)
    ensures Knows(Step(w, p).processes[p], Step(w, p).movies, db)
  {
  }

  lemma FindKnows(w: World, p: nat, db: Catalog)
    requires Enabled(w, p) && Knows(w.processes[p], w.movies, db) && Finding(w.processes[p].pc)
    ensures Knows(Step(w, p).processes[p], Step(w, p).movies, db)
  {
    var c := w.processes[p];
    if c.pc.Scan? {
      SeenNext(db, c.call.ticket, c.pc.movie, c.pc.slot);
      SeenRow(db, c.call.ticket, c.pc.movie);
    }
  }

  /** What the stepping process knows afterwards, when the committed database does not change. */
  lemma StepKnows(w: World, p: nat, db: Catalog)
    requires Enabled(w, p) && Knows(w.processes[p], w.movies, db)
    requires w.processes[p].pc == Ready ==> w.movies == db
    ensures Knows(Step(w, p).processes[p], Step(w, p).movies, db)
  {
    if w.processes[p].pc == Ready {
      EntryKnows(w, p, db);
    } else if Buying(w.processes[p].pc) {
      BuyKnows(w, p, db);
    } else {
      FindKnows(w, p, db);
    }
  }

  /** A process about to enter finds the memory in a committed state, since its lock was granted. */
  lemma EntryIsClean(w0: World, w: World, p: nat)
    requires Inv(w0, w) && Enabled(w, p) && w.processes[p].pc == Ready
    ensures w.movies == Committed(w0, w)
  {
    forall q | 0 <= q < |w.processes|
      ensures !HalfWay(w.processes[q].pc)
    {
      assert LockFits(w.processes[q]);
    }
  }

  /** A step of p does not touch what another process in the middle of a call knows. */
  lemma OthersKnow(w: World, p: nat, q: nat, db: Catalog)
    requires Locked(w) && Enabled(w, p) && q < |w.processes| && q != p
    requires Knows(w.processes[p], w.movies, db) && Knows(w.processes[q], w.movies, db)
    ensures Knows(w.processes[q], Step(w, p).movies, db)
  {
    assert LockFits(w.processes[p]) && LockFits(w.processes[q]);
  }

  /** Between the writes, the writer is half-way; otherwise the memory is as it was. */
  lemma StepSettles(w: World, p: nat)
    requires Enabled(w, p) && Step(w, p).returned == w.returned
    ensures HalfWay(Step(w, p).processes[p].pc) || (Step(w, p).movies == w.movies && !HalfWay(w.processes[p].pc))
  {
  }

  lemma InnerStepConsistent(w0: World, w: World, p: nat)
    requires Inv(w0, w) && Enabled(w, p) && Step(w, p).returned == w.returned
    ensures Consistent(w0, Step(w, p))
  {
    var t, db := Step(w, p), Committed(w0, w);
    if w.processes[p].pc == Ready { EntryIsClean(w0, w, p); }
    StepKnows(w, p, db);
    InnerFrame(w, p);
    StepSettles(w, p);
    forall q: nat | q < |t.processes|
      ensures Knows(t.processes[q], t.movies, db)
    {
      if q != p { OthersKnow(w, p, q, db); }
    }
    if forall q | 0 <= q < |t.processes| :: !HalfWay(t.processes[q].pc) {
      assert forall q | 0 <= q < |w.processes| && q != p :: w.processes[q] == t.processes[q];
    }
  }

  /** The result with which a call is about to return is the one that the committed database gives. */
  lemma ReturnIsSequential(w0: World, w: World, p: nat)
    requires Inv(w0, w) && Enabled(w, p) && Step(w, p).returned != w.returned
    ensures var c := w.processes[p];
      && Step(w, p) == Leave(w, p, Step(w, p).processes[p].lock, Perform(Committed(w0, w), c.call).result)
      && w.movies == Perform(Committed(w0, w), c.call).db
  {
  }

  lemma ReturnConsistent(w0: World, w: World, p: nat)
    requires Inv(w0, w) && Enabled(w, p) && Step(w, p).returned != w.returned
    ensures Consistent(w0, Step(w, p))
  {
    var t := Step(w, p);
    var c := w.processes[p];
    ReturnIsSequential(w0, w, p);
    CallsSnoc(w0, w.returned, t.returned[|w.returned|]);
    forall q | 0 <= q < |t.processes|
      ensures Knows(t.processes[q], t.movies, Committed(w0, t))
    {
      if q != p { assert LockFits(w.processes[p]) && LockFits(w.processes[q]); }
    }
  }

  lemma ReturnRecorded(w0: World, w: World, p: nat)
    requires Inv(w0, w) && Enabled(w, p) && Step(w, p).returned != w.returned
    ensures Recorded(w0, Step(w, p))
  {
    ReturnIsSequential(w0, w, p);
    LeaveRecorded(w0, w, p, Step(w, p).processes[p].lock);
  }

  /** One process's share of the history, before and after a return of process r.process. */
  lemma ShareSplits(q: nat, log: seq<Return>, r: Return, c: Process, list: seq<Call>)
    requires c.results == ResultsOf(q, log)
    requires CallsOf(q, log) + (if c.pc == Ready then [] else [c.call]) + c.todo == list
    requires r.process == q ==> c.pc != Ready && r.call == c.call
    ensures ResultsOf(q, log + [r]) == if r.process == q then c.results + [r.result] else c.results
    ensures CallsOf(q, log + [r]) + (if c.pc == Ready || r.process == q then [] else [c.call]) + c.todo == list
  {
    SharesSnoc(q, log, r);
    if r.process == q { assert CallsOf(q, log) + [r.call] + [] == CallsOf(q, log) + [r.call]; }
  }

  lemma LeaveRecorded(w0: World, w: World, p: nat, lock: Lock)
    requires Recorded(w0, w) && p < |w.processes| && w.processes[p].pc != Ready
    ensures Recorded(w0, Leave(w, p, lock, Perform(Committed(w0, w), w.processes[p].call).result))
  {
    var r := Return(p, w.processes[p].call, Perform(Committed(w0, w), w.processes[p].call).result);
    var t := Leave(w, p, lock, r.result);
    CallsSnoc(w0, w.returned, r);
    forall q | 0 <= q < |w.processes|
      ensures t.processes[q].results == ResultsOf(q, t.returned)
      ensures var c := t.processes[q];
        CallsOf(q, t.returned) + (if c.pc == Ready then [] else [c.call]) + c.todo == w0.processes[q].todo
    {
      ShareSplits(q, w.returned, r, w.processes[q], w0.processes[q].todo);
    }
  }

  lemma {:induction false} AfterInv(w0: World, schedule: seq<nat>)
    requires Initial(w0)
    ensures Inv(w0, After(w0, schedule))
  {
    if schedule == [] {
      InitialInv(w0);
    } else {
      var mid, p := After(w0, schedule[..|schedule| - 1]), schedule[|schedule| - 1];
      AfterInv(w0, schedule[..|schedule| - 1]);
      if Enabled(mid, p) {
        assert Knows(mid.processes[p], mid.movies, Committed(w0, mid));
        StepLocked(mid, p);
        if Step(mid, p).returned == mid.returned {
          InnerStepRecorded(w0, mid, p);
          InnerStepConsistent(w0, mid, p);
        } else {
          ReturnRecorded(w0, mid, p);
          ReturnConsistent(w0, mid, p);
        }
      }
    }
  }

  // Theorems

  /** Every interleaving gives each process the results of a sequential run of all calls, in the order of
      returning; and memory outside a purchase is exactly what that run leaves. */
  lemma Serializable(w0: World, schedule: seq<nat>)
    requires Initial(w0)
    ensures var w := After(w0, schedule);
      && Recorded(w0, w)
      && ((forall p | 0 <= p < |w.processes| :: !HalfWay(w.processes[p].pc)) ==> w.movies == Committed(w0, w))
  {
    AfterInv(w0, schedule);
  }

  /** No two purchases, by whichever processes, return the same ticket. */
  lemma NoTicketTwice(w0: World, schedule: seq<nat>, p: nat, q: nat)
    requires Initial(w0) && Numbered(w0.movies)
    requires p < q < |After(w0, schedule).returned|
    requires var log := After(w0, schedule).returned;
      Sells(log[p].call, log[p].result) && Sells(log[q].call, log[q].result)
    ensures var log := After(w0, schedule).returned;
      log[p].result != log[q].result
  {
    AfterInv(w0, schedule);
    var log := After(w0, schedule).returned;
    assert Results(log)[p] == log[p].result && Results(log)[q] == log[q].result;
    TicketsDistinct(w0.movies, Calls(log), p, q);
  }

  /** A lookup answers from the database between two complete purchases, never from half of one. */
  lemma LookupSeesWholePurchases(w0: World, schedule: seq<nat>, p: nat)
    requires Initial(w0) && p < |After(w0, schedule).returned|
    requires After(w0, schedule).returned[p].call.GetTicket?
    ensures var log := After(w0, schedule).returned;
      log[p].result == Find(Run(w0.movies, Calls(log[..p])).db, log[p].call.ticket)
  {
    AfterInv(w0, schedule);
    var log := After(w0, schedule).returned;
    assert Results(log)[p] == log[p].result;
    RunAt(w0.movies, Calls(log), p);
    assert Calls(log)[..p] == Calls(log[..p]);
  }

  /** The purchase is refused by this database: no such movie, or none of its tickets left. */
  predicate TurnedDown(db: Catalog, call: Call) {
    call.BuyTicket? && (!(0 <= call.movie < |db|) || db[call.movie].remaining == 0)
  }

  /** A return keeps the lock exactly when the call was a purchase that the committed database turns down. */
  lemma ReturnKeepsLockIff(w0: World, schedule: seq<nat>, p: nat)
    requires Initial(w0) && Enabled(After(w0, schedule), p)
    requires Step(After(w0, schedule), p).returned != After(w0, schedule).returned
    ensures var w := After(w0, schedule);
      Step(w, p).processes[p].lock == if TurnedDown(Committed(w0, w), w.processes[p].call) then WriteLock else Unlocked
  {
    AfterInv(w0, schedule);
    var w := After(w0, schedule);
    assert LockFits(w.processes[p]) && Knows(w.processes[p], w.movies, Committed(w0, w));
  }

  /** `call` and the last result of a process outside the functions are those of its last return. */
  ghost predicate Remembered(w: World) {
    forall p | 0 <= p < |w.processes| && w.processes[p].pc == Ready && CallsOf(p, w.returned) != [] ::
      w.processes[p].call == CallsOf(p, w.returned)[|CallsOf(p, w.returned)| - 1]
  }

  lemma StepReturns(w: World, p: nat)
    requires Enabled(w, p)
    ensures var t := Step(w, p);
      && |t.processes| == |w.processes|
      && (forall q | 0 <= q < |w.processes| && q != p :: t.processes[q] == w.processes[q])
      && (t.returned == w.returned ==> t.processes[p].pc != Ready)
      && (t.returned != w.returned ==>
           && |t.returned| == |w.returned| + 1 && t.returned[..|w.returned|] == w.returned
           && t.returned[|w.returned|].process == p && t.returned[|w.returned|].call == t.processes[p].call)
  {
  }

  lemma StepRemembered(w: World, p: nat)
    requires Remembered(w) && Enabled(w, p)
    ensures Remembered(Step(w, p))
  {
    var t := Step(w, p);
    StepReturns(w, p);
    if t.returned != w.returned {
      var r := t.returned[|w.returned|];
      assert t.returned == w.returned + [r];
      forall q | 0 <= q < |t.processes|
        ensures CallsOf(q, t.returned) == CallsOf(q, w.returned) + if q == p then [r.call] else []
      {
        SharesSnoc(q, w.returned, r);
      }
    }
  }

  lemma {:induction false} AfterRemembered(w0: World, schedule: seq<nat>)
    requires Initial(w0)
    ensures Remembered(After(w0, schedule))
  {
    if schedule == [] {
    } else {
      var mid, p := After(w0, schedule[..|schedule| - 1]), schedule[|schedule| - 1];
      AfterRemembered(w0, schedule[..|schedule| - 1]);
      if Enabled(mid, p) { StepRemembered(mid, p); }
    }
  }

  /** Position k of the log is the last return of process p. */
  ghost predicate LastOf(p: nat, log: seq<Return>, k: nat) {
    k < |log| && log[k].process == p && forall j | k < j < |log| :: log[j].process != p
  }

  lemma {:induction false} LastReturn(p: nat, log: seq<Return>) returns (k: nat)
    requires CallsOf(p, log) != []
    ensures LastOf(p, log, k)
    ensures log[k].call == CallsOf(p, log)[|CallsOf(p, log)| - 1]
    ensures ResultsOf(p, log) != [] && log[k].result == ResultsOf(p, log)[|ResultsOf(p, log)| - 1]
  {
    var n := |log| - 1;
    if log[n].process == p {
      k := n;
    } else {
      k := LastReturn(p, log[..n]);
    }
  }

  lemma {:induction false} NoReturn(p: nat, log: seq<Return>)
    requires CallsOf(p, log) == []
    ensures ResultsOf(p, log) == [] && forall k | 0 <= k < |log| :: log[k].process != p
  {
    if log == [] {
    } else {
      NoReturn(p, log[..|log| - 1]);
    }
  }

  /** Outside the functions a process holds a lock exactly when its last call was a purchase that was turned down:
      no such movie, or sold out, in the database that the calls returned before it leave. */
  lemma LockKeptIff(w0: World, schedule: seq<nat>, p: nat)
    requires Initial(w0) && p < |After(w0, schedule).processes| && After(w0, schedule).processes[p].pc == Ready
    ensures var w := After(w0, schedule);
      && w.processes[p].lock != ReadLock
      && (w.processes[p].lock != Unlocked <==>
           exists k: nat | LastOf(p, w.returned, k) ::
             TurnedDown(Run(w0.movies, Calls(w.returned[..k])).db, w.returned[k].call))
  {
    var w := After(w0, schedule);
    AfterInv(w0, schedule);
    assert LockFits(w.processes[p]);
    if CallsOf(p, w.returned) == [] {
      NoReturn(p, w.returned);
      assert !Refused(w.processes[p]);
    } else {
      AfterRemembered(w0, schedule);
      var k := LastReturn(p, w.returned);
      RefusedIsTurnedDown(w0, w, p, k);
      forall j: nat | LastOf(p, w.returned, j)
        ensures j == k
      {
        LastIsOne(p, w.returned, j, k);
      }
    }
  }

  lemma LastIsOne(p: nat, log: seq<Return>, j: nat, k: nat)
    requires LastOf(p, log, j) && LastOf(p, log, k)
    ensures j == k
  {
    assert log[j].process == p && log[k].process == p;
  }

  lemma RefusalIsTurnedDown(db: Catalog, call: Call)
    ensures call.BuyTicket? && Perform(db, call).result <= 0 <==> TurnedDown(db, call)
  {
  }

  lemma RefusedIsTurnedDown(w0: World, w: World, p: nat, k: nat)
    requires Inv(w0, w) && p < |w.processes| && LastOf(p, w.returned, k)
    requires w.processes[p].call == w.returned[k].call && w.processes[p].results != []
    requires w.processes[p].results[|w.processes[p].results| - 1] == w.returned[k].result
    ensures Refused(w.processes[p]) <==> TurnedDown(Run(w0.movies, Calls(w.returned[..k])).db, w.returned[k].call)
  {
    var db := Run(w0.movies, Calls(w.returned[..k])).db;
    assert w.returned[k].result == Perform(db, w.returned[k].call).result by {
      assert Results(w.returned)[k] == w.returned[k].result;
      RunAt(w0.movies, Calls(w.returned), k);
      assert Calls(w.returned)[..k] == Calls(w.returned[..k]);
    }
    RefusalIsTurnedDown(db, w.returned[k].call);
  }

  /** A process that holds a lock never waits for one, so no cycle of waiting processes can form. */
  lemma HolderNeverWaits(w0: World, schedule: seq<nat>, p: nat)
    requires Initial(w0) && p < |After(w0, schedule).processes|
    requires var c := After(w0, schedule).processes[p];
      c.lock != Unlocked && (c.pc == Ready ==> c.todo != [])
    ensures Enabled(After(w0, schedule), p)
  {
    AfterInv(w0, schedule);
    NoFault(w0, schedule, p);
  }

  /** No step of a reachable state reads or writes outside the array, or takes a ticket from an empty counter. */
  lemma NoFault(w0: World, schedule: seq<nat>, p: nat)
    requires Initial(w0) && p < |After(w0, schedule).processes|
    ensures InBounds(After(w0, schedule), p)
  {
    AfterInv(w0, schedule);
    var w := After(w0, schedule);
    assert LockFits(w.processes[p]) && Knows(w.processes[p], w.movies, Committed(w0, w));
  }

  // Who waits for whom

  /** Outside the functions, and the last call was a purchase that was turned down. */
  ghost predicate Sits(w0: World, w: World, p: nat)
    requires p < |w.processes|
  {
    && w.processes[p].pc == Ready
    && exists k: nat | LastOf(p, w.returned, k) ::
      TurnedDown(Run(w0.movies, Calls(w.returned[..k])).db, w.returned[k].call)
  }

  /** Which lock a process holds, in any run: the write lock inside a purchase or when it sits on one, the read lock
      inside a lookup, and none otherwise. */
  lemma LockHeld(w0: World, schedule: seq<nat>, q: nat)
    requires Initial(w0) && q < |After(w0, schedule).processes|
    ensures var w := After(w0, schedule);
      && (w.processes[q].lock == WriteLock <==> Buying(w.processes[q].pc) || Sits(w0, w, q))
      && (w.processes[q].lock == ReadLock <==> Finding(w.processes[q].pc))
  {
    AfterInv(w0, schedule);
    var w := After(w0, schedule);
    assert LockFits(w.processes[q]) && Knows(w.processes[q], w.movies, Committed(w0, w));
    if w.processes[q].pc == Ready { LockKeptIff(w0, schedule, q); }
  }

  /** A lookup can start exactly when no other process is inside a purchase and none sits on the lock of a purchase
      that was turned down. Other lookups do not matter. */
  lemma LookupStartsIff(w0: World, schedule: seq<nat>, p: nat)
    requires Initial(w0) && p < |After(w0, schedule).processes|
    requires var c := After(w0, schedule).processes[p];
      c.pc == Ready && c.todo != [] && c.todo[0].GetTicket?
    ensures var w := After(w0, schedule);
      Enabled(w, p) <==> forall q | 0 <= q < |w.processes| && q != p :: !Buying(w.processes[q].pc) && !Sits(w0, w, q)
  {
    var w := After(w0, schedule);
    forall q: nat | q < |w.processes|
      ensures w.processes[q].lock == WriteLock <==> Buying(w.processes[q].pc) || Sits(w0, w, q)
    {
      LockHeld(w0, schedule, q);
    }
  }

  /** A purchase can start exactly when all other processes are outside the functions and none sits on a lock. */
  lemma PurchaseStartsIff(w0: World, schedule: seq<nat>, p: nat)
    requires Initial(w0) && p < |After(w0, schedule).processes|
    requires var c := After(w0, schedule).processes[p];
      c.pc == Ready && c.todo != [] && c.todo[0].BuyTicket?
    ensures var w := After(w0, schedule);
      Enabled(w, p) <==> forall q | 0 <= q < |w.processes| && q != p :: w.processes[q].pc == Ready && !Sits(w0, w, q)
  {
    var w := After(w0, schedule);
    forall q: nat | q < |w.processes|
      ensures w.processes[q].lock == Unlocked <==> w.processes[q].pc == Ready && !Sits(w0, w, q)
    {
      LockHeld(w0, schedule, q);
    }
  }

  /** Each process once, in their order. */
  function Everybody(n: nat): seq<nat> {
    seq(n, i requires 0 <= i < n => i)
  }

  /** The first n processes have begun to scan, and the others have not moved. */
  ghost predicate FirstScan(w0: World, w: World, n: nat) {
    && w.movies == w0.movies && |w.processes| == |w0.processes|
    && (forall p | 0 <= p < n <= |w.processes| ::
         w.processes[p].pc == Scan(0, 0, -1) && w.processes[p].lock == ReadLock)
    && forall p | n <= p < |w.processes| :: w.processes[p] == w0.processes[p]
  }

  lemma OneMoreScans(w0: World, w: World, n: nat)
    requires Initial(w0) && w0.movies != [] && n < |w0.processes| && FirstScan(w0, w, n)
    requires w0.processes[n].todo != [] && w0.processes[n].todo[0].GetTicket?
    ensures Enabled(w, n) && FirstScan(w0, Step(w, n), n + 1)
  {
  }

  /** Any number of lookups are inside the scan at once. */
  lemma {:induction false} LookupsTogether(w0: World, n: nat)
    requires Initial(w0) && w0.movies != [] && n <= |w0.processes|
    requires forall p | 0 <= p < n :: w0.processes[p].todo != [] && w0.processes[p].todo[0].GetTicket?
    ensures FirstScan(w0, After(w0, Everybody(n)), n)
  {
    if n == 0 {
    } else {
      LookupsTogether(w0, n - 1);
      assert Everybody(n)[..n - 1] == Everybody(n - 1);
      OneMoreScans(w0, After(w0, Everybody(n - 1)), n - 1);
    }
  }

  /** A process that sits on the lock keeps lookups out, until a lookup of its own replaces it and lets them in. */
  lemma LookupLetsIn(w0: World, schedule: seq<nat>, p: nat, q: nat)
    requires Initial(w0) && p < |After(w0, schedule).processes| && q < |After(w0, schedule).processes| && p != q
    requires Sits(w0, After(w0, schedule), p)
    requires var c, d := After(w0, schedule).processes[p], After(w0, schedule).processes[q];
      && c.todo != [] && c.todo[0].GetTicket?
      && d.pc == Ready && d.todo != [] && d.todo[0].GetTicket?
    ensures var w := After(w0, schedule);
      !Enabled(w, q) && Enabled(w, p) && Enabled(Step(w, p), q)
  {
    AfterInv(w0, schedule);
    LockHeld(w0, schedule, p);
  }

  // What a copy of the table made without the lock can show

  /** Between the two writes of a purchase: the ticket is stored, the counter not yet taken down. */
  predicate MidSale(pc: Pc) {
    pc.LoadCounter? || pc.Decrement?
  }

  ghost predicate RowNumbered(db: Catalog, i: nat)
    requires i < |db|
  {
    forall k | 0 <= k < MOVIE_MAX_TICKETS :: db[i].tickets[k] == if k < db[i].Sold() then Number(i, k) else 0
  }

  lemma NumberedRows(db: Catalog)
    ensures Numbered(db) <==> forall i: nat | i < |db| :: RowNumbered(db, i)
  {
    if forall i: nat | i < |db| :: RowNumbered(db, i) {
      forall i, k | 0 <= i < |db| && 0 <= k < MOVIE_MAX_TICKETS
        ensures db[i].tickets[k] == if k < db[i].Sold() then Number(i, k) else 0
      {
        assert RowNumbered(db, i);
      }
    }
  }

  /** The one process in the middle of a purchase and what it has made of the committed table. */
  lemma StoredRow(db: Catalog, movie: int, ticket: int, i: nat)
    requires Numbered(db) && ticket == Buy(db, movie).result > 0 && i < |db|
    ensures RowNumbered(Stored(db, movie, ticket), i) <==> i != movie
    ensures i != movie ==> Stored(db, movie, ticket)[i] == db[i]
  {
    NumberedRows(db);
    if i == movie { assert Stored(db, movie, ticket)[i].tickets[db[i].Sold()] == ticket; }
  }

  lemma BoughtRow(db: Catalog, movie: int, i: nat)
    requires Numbered(db) && i < |db|
    ensures var o := Buy(db, movie);
      |o.db| == |db| && RowNumbered(o.db, i) && (i != movie ==> o.db[i] == db[i])
  {
    BuyEffect(db, movie);
    NumberedRows(Buy(db, movie).db);
  }

  /** A listing copies the table without taking the lock. At any moment of any run: a row is torn exactly while some
      process is between the two writes of a purchase of that movie, so at most one is; and every other row is as the
      calls returned so far leave it, or as the purchase under way has completed it. */
  lemma ListingTornIff(w0: World, schedule: seq<nat>, i: nat)
    requires Initial(w0) && Numbered(w0.movies) && i < |w0.movies|
    ensures var w := After(w0, schedule);
      && |w.movies| == |w0.movies| == |Committed(w0, w)|
      && (RowNumbered(w.movies, i) <==>
           !exists p | 0 <= p < |w.processes| :: MidSale(w.processes[p].pc) && w.processes[p].call == BuyTicket(i))
      && (forall p, q | 0 <= p < q < |w.processes| :: !HalfWay(w.processes[p].pc) || !HalfWay(w.processes[q].pc))
      && (RowNumbered(w.movies, i) ==>
           || w.movies[i] == Committed(w0, w)[i]
           || exists p | 0 <= p < |w.processes| ::
             && w.processes[p].pc.UnlockBuy? && w.processes[p].call == BuyTicket(i)
             && w.movies[i] == Buy(Committed(w0, w), i).db[i])
  {
    var w := After(w0, schedule);
    var db := Committed(w0, w);
    AfterInv(w0, schedule);
    RunInvariant(w0.movies, Calls(w.returned));
    NumberedRows(db);
    OneHalfWay(w);
    if p :| 0 <= p < |w.processes| && HalfWay(w.processes[p].pc) {
      HalfWayRow(w, p, db, i);
    }
  }

  lemma OneHalfWay(w: World)
    requires Locked(w)
    ensures forall p, q | 0 <= p < q < |w.processes| :: !HalfWay(w.processes[p].pc) || !HalfWay(w.processes[q].pc)
  {
    forall p, q | 0 <= p < q < |w.processes|
      ensures !HalfWay(w.processes[p].pc) || !HalfWay(w.processes[q].pc)
    {
      assert LockFits(w.processes[p]) && LockFits(w.processes[q]);
    }
  }

  lemma HalfWayRow(w: World, p: nat, db: Catalog, i: nat)
    requires p < |w.processes| && HalfWay(w.processes[p].pc) && Knows(w.processes[p], w.movies, db)
    requires Numbered(db) && i < |db|
    ensures |w.movies| == |db| && w.processes[p].call.BuyTicket?
    ensures RowNumbered(w.movies, i) <==> !(MidSale(w.processes[p].pc) && w.processes[p].call.movie == i)
    ensures w.processes[p].call.movie != i ==> w.movies[i] == db[i]
    ensures w.processes[p].pc.UnlockBuy? ==> w.movies == Buy(db, w.processes[p].call.movie).db
  {
    var c := w.processes[p];
    if c.pc.UnlockBuy? { BoughtRow(db, c.call.movie, i); } else { StoredRow(db, c.call.movie, c.pc.ticket, i); }
  }

  predicate Done(c: Process) {
    c.pc == Ready && c.todo == []
  }

  ghost predicate Standstill(w: World) {
    forall p: nat :: !Enabled(w, p)
  }

  ghost predicate AllDone(w: World) {
    forall p | 0 <= p < |w.processes| :: Done(w.processes[p])
  }

  /** The system stands still exactly when all calls have returned, or when some process with nothing left to do
      sits on the write lock. */
  lemma StandsStillIff(w0: World, schedule: seq<nat>)
    requires Initial(w0)
    ensures var w := After(w0, schedule);
      Standstill(w) <==>
        AllDone(w) || exists q | 0 <= q < |w.processes| :: Done(w.processes[q]) && w.processes[q].lock == WriteLock
  {
    var w := After(w0, schedule);
    AfterInv(w0, schedule);
    if q: nat :| q < |w.processes| && Done(w.processes[q]) && w.processes[q].lock == WriteLock {
      forall p: nat | p < |w.processes|
        ensures !Enabled(w, p)
      {
        assert LockFits(w.processes[p]);
      }
    } else if p: nat :| p < |w.processes| && !Done(w.processes[p]) {
      var mover := SomeoneMoves(w0, schedule, p);
    }
  }

  lemma SomeoneMoves(w0: World, schedule: seq<nat>, p: nat) returns (mover: nat)
    requires Initial(w0) && p < |After(w0, schedule).processes|
    requires var w := After(w0, schedule);
      && !Done(w.processes[p])
      && !exists q | 0 <= q < |w.processes| :: Done(w.processes[q]) && w.processes[q].lock == WriteLock
    ensures Enabled(After(w0, schedule), mover)
  {
    var w := After(w0, schedule);
    AfterInv(w0, schedule);
    if q: nat :| q < |w.processes| && w.processes[q].lock != Unlocked {
      assert LockFits(w.processes[q]);
      HolderNeverWaits(w0, schedule, q);
      mover := q;
    } else {
      assert LockFits(w.processes[p]);
      mover := p;
    }
  }
}
