/** The System V message-queue transport: one shared queue, in which each message carries its recipient. */
module MessageQueue {
  import opened Messages
  import opened Mailbox

  const MESSAGE_BUFFER_SIZE := 10_240

  /** Size of the text of a queue item beyond its content: sender, length, and padding of the structure. */
  const ITEM_OVERHEAD := 8

  datatype Item = Item(recipient: U16, message: Message)

  /** The messages of one recipient, oldest first. */
  function Box(id: U16, items: seq<Item>): seq<Message> {
    if items == [] then []
    else (if items[0].recipient == id then [items[0].message] else []) + Box(id, items[1..])
  }

  /** Which item `msgrcv` selects: the first of its type, and for type 0 the first of all. */
  function Select(id: U16, items: seq<Item>): (k: nat)
    ensures k <= |items|
  {
    if items == [] || id == 0 || items[0].recipient == id then 0 else 1 + Select(id, items[1..])
  }

  predicate TooLong(m: Message) {
    |m.content| + ITEM_OVERHEAD > MESSAGE_BUFFER_SIZE
  }

  datatype Received = Waiting | Refused | Got(message: Message)

  datatype Outcome = Outcome(received: Received, items: seq<Item>)

  /** `ipc_recv`: an item that does not fit the receiver's buffer is refused and stays. */
  function Take(id: U16, items: seq<Item>): Outcome {
    var k := Select(id, items);
    if k == |items| then Outcome(Waiting, items)
    else if TooLong(items[k].message) then Outcome(Refused, items)
    else Outcome(Got(items[k].message), items[..k] + items[k + 1..])
  }

  ghost predicate Addressed(items: seq<Item>) {
    forall k | 0 <= k < |items| :: items[k].recipient != 0
  }

  lemma {:induction false} BoxSnoc(id: U16, items: seq<Item>, item: Item)
    ensures Box(id, items + [item]) == if item.recipient == id then Box(id, items) + [item.message] else Box(id, items)
  {
    if items == [] {
      assert [item][1..] == [];
    } else {
      BoxSnoc(id, items[1..], item);
      assert (items + [item])[1..] == items[1..] + [item];
    }
  }

  /** The selected item is the recipient's oldest, and without it the recipient's later ones remain. */
  lemma {:induction false} SelectIsOldest(id: U16, items: seq<Item>)
    requires id != 0
    ensures var k := Select(id, items);
      && (k == |items| <==> Box(id, items) == [])
      && (k < |items| ==>
        && items[k].recipient == id && items[k].message == Box(id, items)[0]
        && Box(id, items[..k] + items[k + 1..]) == Box(id, items)[1..])
  {
    var k := Select(id, items);
    if items != [] {
      if k == 0 {
        assert items[..0] + items[1..] == items[1..];
      } else {
        SelectIsOldest(id, items[1..]);
        if k < |items| { assert (items[..k] + items[k + 1..])[1..] == items[1..][..k - 1] + items[1..][k..]; }
      }
    }
  }

  lemma {:induction false} RemoveOther(id: U16, items: seq<Item>, k: nat)
    requires k < |items|
    ensures items[k].recipient != id ==> Box(id, items[..k] + items[k + 1..]) == Box(id, items)
    ensures items[k].recipient == id ==> |Box(id, items[..k] + items[k + 1..])| == |Box(id, items)| - 1
  {
    if k == 0 {
      assert items[..0] + items[1..] == items[1..];
    } else {
      RemoveOther(id, items[1..], k - 1);
      assert (items[..k] + items[k + 1..])[1..] == items[1..][..k - 1] + items[1..][k..];
    }
  }

  /** A receive is the queue operation on its own recipient's box. */
  lemma TakeIsOwnQueue(id: U16, items: seq<Item>)
    requires id != 0
    ensures var o, box := Take(id, items), Box(id, items);
      && (o.received == Waiting <==> box == [])
      && (o.received == Refused <==> box != [] && |box[0].content| > 10_232)
      && (o.received.Got? ==> o.received.message == box[0] && Box(id, o.items) == box[1..])
      && (!o.received.Got? ==> o.items == items)
  {
    SelectIsOldest(id, items);
  }

  /** Whose message a receive takes: the caller's own, unless the caller's identifier is 0. */
  function Addressee(id: U16, items: seq<Item>): U16 {
    var k := Select(id, items);
    if k < |items| then items[k].recipient else id
  }

  lemma TakeIsSomeonesQueue(id: U16, items: seq<Item>, other: U16)
    requires Take(id, items).received.Got?
    ensures var o, box := Take(id, items), Box(other, items);
      if other == Addressee(id, items) then box != [] && o.received.message == box[0] && Box(other, o.items) == box[1..]
      else Box(other, o.items) == box
  {
    var k := Select(id, items);
    RemoveOther(other, items, k);
    if id != 0 {
      SelectIsOldest(id, items);
    } else {
      assert items[..0] + items[1..] == items[1..];
    }
  }

  /** A receive leaves every other recipient's box alone, except by a process whose identifier is 0. */
  lemma {:induction false} OthersUntouchedIff(id: U16, items: seq<Item>)
    requires Addressed(items)
    ensures (forall other: U16 | other != id :: Box(other, Take(id, items).items) == Box(other, items))
      <==> id != 0 || items == [] || TooLong(items[0].message)
  {
    if Take(id, items).received.Got? {
      forall other: U16 {
        TakeIsSomeonesQueue(id, items, other);
      }
      var owner := Addressee(id, items);
      assert |Box(owner, Take(id, items).items)| == |Box(owner, items)| - 1;
      if id != 0 { SelectIsOldest(id, items); }
    }
  }

  datatype Entry = Entry(recipient: U16, event: Event)

  function HistoryOf(id: U16, history: seq<Entry>): seq<Event> {
    if history == [] then []
    else
      var e := history[|history| - 1];
      var before := HistoryOf(id, history[..|history| - 1]);
      if e.recipient == id then before + [e.event] else before
  }

  lemma HistoryOfSnoc(id: U16, history: seq<Entry>, e: Entry)
    ensures HistoryOf(id, history + [e])
      == if e.recipient == id then HistoryOf(id, history) + [e.event] else HistoryOf(id, history)
  {
    assert (history + [e])[..|history|] == history;
  }

  lemma TakenFrom(id: U16, items: seq<Item>, history: seq<Entry>, other: U16)
    requires Take(id, items).received.Got?
    requires Replay(Queue, HistoryOf(other, history)) == Pending(Box(other, items))
    ensures var e := Entry(Addressee(id, items), TakenOut(Take(id, items).received.message));
      Replay(Queue, HistoryOf(other, history + [e])) == Pending(Box(other, Take(id, items).items))
  {
    var e := Entry(Addressee(id, items), TakenOut(Take(id, items).received.message));
    HistoryOfSnoc(other, history, e);
    ReplaySnoc(Queue, HistoryOf(other, history), e.event);
    TakeIsSomeonesQueue(id, items, other);
  }

  // Whole runs: sends and receives by any processes

  datatype Op = Send(sender: U16, recipient: U16, content: Content) | Recv(id: U16)

  /** A message handed to `receiver`; `owner` is the recipient that it carried. */
  datatype Delivery = Delivery(receiver: U16, owner: U16, message: Message)

  datatype Queues = Queues(items: seq<Item>, deliveries: seq<Delivery>)

  /** `ipc_send`: the item goes to the end of the queue, unless the recipient is 0, which `msgsnd` refuses. */
  function Put(items: seq<Item>, recipient: U16, m: Message): seq<Item> {
    if recipient == 0 then items else items + [Item(recipient, m)]
  }

  /** A receive that waits or is refused changes nothing. */
  function RunOp(q: Queues, op: Op): Queues {
    match op
    case Send(sender, recipient, content) =>
      q.(items := Put(q.items, recipient, Letter(sender, content)))
    case Recv(id) =>
      var o := Take(id, q.items);
      if !o.received.Got? then q
      else Queues(o.items, q.deliveries + [Delivery(id, Addressee(id, q.items), o.received.message)])
  }

  function RunOps(items: seq<Item>, ops: seq<Op>): Queues {
    if ops == [] then Queues(items, []) else RunOp(RunOps(items, ops[..|ops| - 1]), ops[|ops| - 1])
  }

  function SentTo(id: U16, ops: seq<Op>): seq<Message> {
    if ops == [] then []
    else
      var before, op := SentTo(id, ops[..|ops| - 1]), ops[|ops| - 1];
      if op.Send? && op.recipient == id != 0 then before + [Letter(op.sender, op.content)] else before
  }

  /** The messages that carried one recipient, in the order of delivery. */
  function Owned(id: U16, ds: seq<Delivery>): seq<Message> {
    if ds == [] then []
    else
      var before, d := Owned(id, ds[..|ds| - 1]), ds[|ds| - 1];
      if d.owner == id then before + [d.message] else before
  }

  /** The messages that one process received. */
  function ReceivedBy(id: U16, ds: seq<Delivery>): seq<Message> {
    if ds == [] then []
    else
      var before, d := ReceivedBy(id, ds[..|ds| - 1]), ds[|ds| - 1];
      if d.receiver == id then before + [d.message] else before
  }

  lemma OwnedSnoc(id: U16, ds: seq<Delivery>, d: Delivery)
    ensures Owned(id, ds + [d]) == if d.owner == id then Owned(id, ds) + [d.message] else Owned(id, ds)
  {
    assert (ds + [d])[..|ds|] == ds;
  }

  lemma SentToOne(id: U16, op: Op)
    ensures SentTo(id, [op]) == if op.Send? && op.recipient == id != 0 then [Letter(op.sender, op.content)] else []
  {
    assert [op][..0] == [];
  }

  lemma PutInBox(id: U16, items: seq<Item>, op: Op)
    requires op.Send?
    ensures Box(id, Put(items, op.recipient, Letter(op.sender, op.content))) == Box(id, items) + SentTo(id, [op])
  {
    SentToOne(id, op);
    if op.recipient != 0 { BoxSnoc(id, items, Item(op.recipient, Letter(op.sender, op.content))); }
  }

  lemma TakenInOrder(q: Queues, caller: U16, id: U16)
    ensures var t := RunOp(q, Recv(caller));
      Owned(id, t.deliveries) + Box(id, t.items) == Owned(id, q.deliveries) + Box(id, q.items)
  {
    var o, box := Take(caller, q.items), Box(id, q.items);
    if o.received.Got? {
      TakeIsSomeonesQueue(caller, q.items, id);
      OwnedSnoc(id, q.deliveries, Delivery(caller, Addressee(caller, q.items), o.received.message));
      if Addressee(caller, q.items) == id { assert box == [o.received.message] + box[1..]; }
    }
  }

  lemma RunOpInOrder(q: Queues, op: Op, id: U16)
    ensures Owned(id, RunOp(q, op).deliveries) + Box(id, RunOp(q, op).items)
      == Owned(id, q.deliveries) + Box(id, q.items) + SentTo(id, [op])
  {
    var owned, box := Owned(id, q.deliveries), Box(id, q.items);
    match op
    case Send(sender, recipient, content) =>
      PutInBox(id, q.items, op);
      Regroup(owned, box, SentTo(id, [op]));
    case Recv(caller) =>
      TakenInOrder(q, caller, id);
      SentToOne(id, op);
      assert owned + box + [] == owned + box;
  }

  lemma SentToSnoc(id: U16, ops: seq<Op>, op: Op)
    ensures SentTo(id, ops + [op]) == SentTo(id, ops) + SentTo(id, [op])
  {
    assert (ops + [op])[..|ops|] == ops && [op][..0] == [];
  }

  /** Whatever any processes send and receive: the messages delivered out of a recipient's box, followed by those
      left in it, are those that were in it and those sent to it, in order. */
  lemma {:induction false} EachBoxInOrder(items: seq<Item>, ops: seq<Op>, id: U16)
    ensures var q := RunOps(items, ops);
      Owned(id, q.deliveries) + Box(id, q.items) == Box(id, items) + SentTo(id, ops)
  {
    if ops == [] {
    } else {
      var n := |ops| - 1;
      EachBoxInOrder(items, ops[..n], id);
      RunOpInOrder(RunOps(items, ops[..n]), ops[n], id);
      assert ops == ops[..n] + [ops[n]];
      SentToSnoc(id, ops[..n], ops[n]);
      Regroup(Box(id, items), SentTo(id, ops[..n]), SentTo(id, [ops[n]]));
    }
  }

  /** Nobody but a process with identifier 0 receives another's message, and nobody receives one that is too long. */
  lemma {:induction false} DeliveriesAreOwn(items: seq<Item>, ops: seq<Op>)
    ensures forall k | 0 <= k < |RunOps(items, ops).deliveries| ::
      var d := RunOps(items, ops).deliveries[k];
      (d.receiver == d.owner || d.receiver == 0) && !TooLong(d.message)
  {
    if ops == [] {
    } else {
      var n := |ops| - 1;
      DeliveriesAreOwn(items, ops[..n]);
      if ops[n].Recv? && ops[n].id != 0 { SelectIsOldest(ops[n].id, RunOps(items, ops[..n]).items); }
    }
  }

  /** When no process with identifier 0 receives, each process gets its own messages, whole and in order. */
  lemma {:induction false} EachProcessInOrder(items: seq<Item>, ops: seq<Op>, id: U16)
    requires forall k | 0 <= k < |ops| :: ops[k] != Recv(0)
    ensures var q := RunOps(items, ops);
      ReceivedBy(id, q.deliveries) + Box(id, q.items) == Box(id, items) + SentTo(id, ops)
  {
    EachBoxInOrder(items, ops, id);
    NobodyIsZero(items, ops);
    ReceivedIsOwned(id, RunOps(items, ops).deliveries);
  }

  lemma {:induction false} NobodyIsZero(items: seq<Item>, ops: seq<Op>)
    requires forall k | 0 <= k < |ops| :: ops[k] != Recv(0)
    ensures forall k | 0 <= k < |RunOps(items, ops).deliveries| ::
      var d := RunOps(items, ops).deliveries[k];
      d.receiver == d.owner
  {
    if ops == [] {
    } else {
      var n := |ops| - 1;
      NobodyIsZero(items, ops[..n]);
      assert ops[n] != Recv(0);
      if ops[n].Recv? { SelectIsOldest(ops[n].id, RunOps(items, ops[..n]).items); }
    }
  }

  lemma {:induction false} ReceivedIsOwned(id: U16, ds: seq<Delivery>)
    requires forall k | 0 <= k < |ds| :: ds[k].receiver == ds[k].owner
    ensures ReceivedBy(id, ds) == Owned(id, ds)
  {
    if ds == [] {
    } else {
      ReceivedIsOwned(id, ds[..|ds| - 1]);
    }
  }

  /** Once an over-long message heads a recipient's box, nothing is delivered out of that box ever after. */
  lemma {:induction false} OverLongJams(items: seq<Item>, ops: seq<Op>, id: U16)
    requires Box(id, items) != [] && TooLong(Box(id, items)[0])
    ensures var q := RunOps(items, ops);
      Owned(id, q.deliveries) == [] && Box(id, q.items) == Box(id, items) + SentTo(id, ops)
  {
    EachBoxInOrder(items, ops, id);
    if ops == [] {
    } else {
      var n := |ops| - 1;
      var q := RunOps(items, ops[..n]);
      OverLongJams(items, ops[..n], id);
      if ops[n].Recv? && Take(ops[n].id, q.items).received.Got? {
        TakeIsSomeonesQueue(ops[n].id, q.items, id);
        OwnedSnoc(id, q.deliveries, RunOps(items, ops).deliveries[|q.deliveries|]);
      }
    }
  }

  function Receives(id: U16, n: nat): seq<Op> {
    seq(n, _ => Recv(id))
  }

  lemma OneReceive(q: Queues, id: U16, box: seq<Message>)
    requires id != 0 && box != [] && Box(id, q.items) == box && !TooLong(box[0])
    ensures Box(id, RunOp(q, Recv(id)).items) == box[1..]
  {
    TakeIsOwnQueue(id, q.items);
  }

  lemma {:induction false} ReceivesTake(items: seq<Item>, id: U16, n: nat)
    requires id != 0 && n <= |Box(id, items)|
    requires forall k | 0 <= k < n :: !TooLong(Box(id, items)[k])
    ensures Box(id, RunOps(items, Receives(id, n)).items) == Box(id, items)[n..]
  {
    if n == 0 {
    } else {
      ReceivesTake(items, id, n - 1);
      assert Receives(id, n)[..n - 1] == Receives(id, n - 1);
      OneReceive(RunOps(items, Receives(id, n - 1)), id, Box(id, items)[n - 1..]);
    }
  }

  ghost predicate AllFit(ms: seq<Message>) {
    forall k | 0 <= k < |ms| :: !TooLong(ms[k])
  }

  lemma OwnedFitsSnoc(id: U16, ds: seq<Delivery>, d: Delivery)
    requires AllFit(Owned(id, ds)) && !TooLong(d.message)
    ensures AllFit(Owned(id, ds + [d]))
  {
    OwnedSnoc(id, ds, d);
  }

  lemma {:induction false} OwnedFits(items: seq<Item>, ops: seq<Op>, id: U16)
    ensures AllFit(Owned(id, RunOps(items, ops).deliveries))
  {
    if ops == [] {
    } else {
      var q, op := RunOps(items, ops[..|ops| - 1]), ops[|ops| - 1];
      OwnedFits(items, ops[..|ops| - 1], id);
      if op.Recv? && Take(op.id, q.items).received.Got? {
        var m := Take(op.id, q.items).received.message;
        OwnedFitsSnoc(id, q.deliveries, Delivery(op.id, Addressee(op.id, q.items), m));
      }
    }
  }

  /** As many receives as there are messages empty a process's box exactly when none of them is too long. */
  lemma DrainedIff(items: seq<Item>, id: U16)
    requires id != 0
    ensures Box(id, RunOps(items, Receives(id, |Box(id, items)|)).items) == []
      <==> AllFit(Box(id, items))
  {
    var n := |Box(id, items)|;
    if AllFit(Box(id, items)) {
      ReceivesTake(items, id, n);
    } else if Box(id, RunOps(items, Receives(id, n)).items) == [] {
      DrainedFits(items, id, Receives(id, n));
    }
  }

  lemma DrainedFits(items: seq<Item>, id: U16, ops: seq<Op>)
    requires forall k | 0 <= k < |ops| :: ops[k].Recv?
    requires Box(id, RunOps(items, ops).items) == []
    ensures AllFit(Box(id, items))
  {
    EachBoxInOrder(items, ops, id);
    NothingSent(id, ops);
    OwnedFits(items, ops, id);
    SameWithoutEmpty(Owned(id, RunOps(items, ops).deliveries), Box(id, items));
  }

  lemma SameWithoutEmpty(a: seq<Message>, b: seq<Message>)
    requires a + [] == b + []
    ensures a == b
  {
    assert a + [] == a && b + [] == b;
  }

  lemma {:induction false} NothingSent(id: U16, ops: seq<Op>)
    requires forall k | 0 <= k < |ops| :: ops[k].Recv?
    ensures SentTo(id, ops) == []
  {
    if ops == [] {
    } else {
      NothingSent(id, ops[..|ops| - 1]);
    }
  }

  class SharedQueue {
    var items: seq<Item>
    ghost var history: seq<Entry>

    /** Every recipient's messages, seen alone, are a queue of their own. */
    ghost predicate Valid()
      reads this
    {
      Addressed(items) && forall id: U16 :: Replay(Queue, HistoryOf(id, history)) == Pending(Box(id, items))
    }

    constructor ()
      ensures Valid() && items == [] && history == []
    {
      items, history := [], [];
    }

    /** `msgsnd` refuses recipient 0, since message types are positive. */
    method Send(sender: U16, recipient: U16, content: Content) returns (ok: bool)
      requires Valid()
      modifies this
      ensures Valid() && (ok <==> recipient != 0)
      ensures ok ==> items == old(items) + [Item(recipient, Letter(sender, content))]
      ensures ok ==> history == old(history) + [Entry(recipient, Posted(Letter(sender, content)))]
      ensures !ok ==> items == old(items) && history == old(history)
    {
      ok := recipient != 0;
      if ok {
        ghost var m := Letter(sender, content);
        forall id: U16
          ensures Replay(Queue, HistoryOf(id, history + [Entry(recipient, Posted(m))]))
            == Pending(Box(id, items + [Item(recipient, m)]))
        {
          HistoryOfSnoc(id, history, Entry(recipient, Posted(m)));
          ReplaySnoc(Queue, HistoryOf(id, history), Posted(m));
          BoxSnoc(id, items, Item(recipient, m));
        }
        items := items + [Item(recipient, Letter(sender, content))];
        history := history + [Entry(recipient, Posted(m))];
      }
    }

    /** Finds, as the kernel does, the first item for this recipient; a process with identifier 0 gets the first of
        all. Either way the item's own recipient loses its oldest message, and for any other identifier that is the
        caller itself. */
    method Receive(id: U16) returns (r: Received)
      requires Valid()
      modifies this
      ensures Valid()
      ensures Outcome(r, items) == Take(id, old(items))
      ensures r.Got? ==> history == old(history) + [Entry(Addressee(id, old(items)), TakenOut(r.message))]
      ensures !r.Got? ==> history == old(history)
    {
      var k := 0;
      while k < |items| && id != 0 && items[k].recipient != id
        invariant k <= |items|
        invariant Select(id, items) == k + Select(id, items[k..])
      {
        assert items[k..][1..] == items[k + 1..];
        k := k + 1;
      }
      if k == |items| {
        return Waiting;
      }
      if TooLong(items[k].message) {
        return Refused;
      }
      r := Got(items[k].message);
      ghost var e := Entry(items[k].recipient, TakenOut(items[k].message));
      forall other: U16
        ensures Replay(Queue, HistoryOf(other, history + [e])) == Pending(Box(other, Take(id, items).items))
      {
        TakenFrom(id, items, history, other);
      }
      items := items[..k] + items[k + 1..];
      history := history + [e];
    }

    /** Any sends and receives by any processes: what they receive is what the same operations give on values, and
        every recipient's messages stay in order. */
    method Run(script: seq<Op>) returns (deliveries: seq<Delivery>)
      requires Valid()
      modifies this
      ensures Valid()
      ensures Queues(items, deliveries) == RunOps(old(items), script)
      ensures forall id: U16 ::
        && Owned(id, deliveries) + Box(id, items) == Box(id, old(items)) + SentTo(id, script)
        && AllTaken(HistoryOf(id, history)) + Box(id, items) == AllPosted(HistoryOf(id, history))
    {
      deliveries := [];
      for k := 0 to |script|
        invariant Valid()
        invariant Queues(items, deliveries) == RunOps(old(items), script[..k])
      {
        assert script[..k + 1][..k] == script[..k];
        match script[k] {
          case Send(sender, recipient, content) =>
            var ok := Send(sender, recipient, content);
          case Recv(id) =>
            var owner := Addressee(id, items);
            var r := Receive(id);
            if r.Got? {
              deliveries := deliveries + [Delivery(id, owner, r.message)];
            }
        }
      }
      assert script[..|script|] == script;
      forall id: U16
        ensures Owned(id, deliveries) + Box(id, items) == Box(id, old(items)) + SentTo(id, script)
        ensures AllTaken(HistoryOf(id, history)) + Box(id, items) == AllPosted(HistoryOf(id, history))
      {
        EachBoxInOrder(old(items), script, id);
        QueueInOrder(HistoryOf(id, history));
      }
    }
  }
}
