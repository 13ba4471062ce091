/**
 * The FIFO transport: one inbox pipe, any number of senders that write header and content in three writes under
 * the inbox's semaphore, and one receiver that reads them back in three reads without it.
 */
module Fifo {
  import opened Messages
  import opened Mailbox

  datatype SenderPc = Outside | WriteSender | WriteLength | WriteContent | ReleaseLock

  datatype SenderState = SenderState(id: U16, pc: SenderPc, todo: seq<Content>, content: Content)

  datatype ReceiverPc = ReadSender | ReadLength | ReadContent

  datatype ReceiverState = ReceiverState(pc: ReceiverPc, sender: U16, length: U16, received: seq<Message>)

  /** `history` records, for the theorems only, each message at its sender's `acquire` and at its last read. */
  datatype State = State(
    lock: nat, pipe: Bytes, senders: seq<SenderState>, receiver: ReceiverState, history: seq<Event>)

  datatype Actor = Receiver | Sender(index: nat)

  /** How many bytes the receiver's next `read` asks for; it blocks until they are there. */
  function Asked(r: ReceiverState): nat {
    match r.pc
    case ReadSender => 2
    case ReadLength => 2
    case ReadContent => r.length
  }

  predicate Enabled(s: State, a: Actor) {
    match a
    case Receiver => |s.pipe| >= Asked(s.receiver)
    case Sender(i) =>
      i < |s.senders| && (s.senders[i].pc == Outside ==> s.senders[i].todo != [] && s.lock > 0)
  }

  function Step(s: State, a: Actor): State
    requires Enabled(s, a)
  {
    match a
    case Receiver => ReceiverStep(s)
    case Sender(i) => SenderStep(s, i)
  }

  function SenderStep(s: State, i: nat): State
    requires Enabled(s, Sender(i))
  {
    var c := s.senders[i];
    match c.pc
    case Outside =>
      s.(lock := s.lock - 1,
         senders := s.senders[i := c.(pc := WriteSender, content := c.todo[0], todo := c.todo[1..])],
         history := s.history + [Posted(Letter(c.id, c.todo[0]))])
    case WriteSender => s.(pipe := s.pipe + PutU16(c.id), senders := s.senders[i := c.(pc := WriteLength)])
    case WriteLength => s.(pipe := s.pipe + PutU16(|c.content|), senders := s.senders[i := c.(pc := WriteContent)])
    case WriteContent => s.(pipe := s.pipe + c.content, senders := s.senders[i := c.(pc := ReleaseLock)])
    case ReleaseLock => s.(lock := s.lock + 1, senders := s.senders[i := c.(pc := Outside)])
  }

  function ReceiverStep(s: State): State
    requires Enabled(s, Receiver)
  {
    var r := s.receiver;
    var rest := s.pipe[Asked(r)..];
    match r.pc
    case ReadSender => s.(pipe := rest, receiver := r.(pc := ReadLength, sender := GetU16(s.pipe[..2])))
    case ReadLength => s.(pipe := rest, receiver := r.(pc := ReadContent, length := GetU16(s.pipe[..2])))
    case ReadContent =>
      var m := Message(r.sender, r.length, s.pipe[..r.length]);
      s.(pipe := rest, receiver := r.(pc := ReadSender, received := r.received + [m]),
         history := s.history + [TakenOut(m)])
  }

  function After(s: State, schedule: seq<Actor>): State {
    if schedule == [] then s
    else
      var mid := After(s, schedule[..|schedule| - 1]);
      var a := schedule[|schedule| - 1];
      if Enabled(mid, a) then Step(mid, a) else mid
  }

  ghost predicate Initial(s: State) {
    && s.lock == 1 && s.pipe == [] && s.history == []
    && s.receiver.pc == ReadSender && s.receiver.received == []
    && forall i | 0 <= i < |s.senders| :: s.senders[i].pc == Outside
  }

  // Frames

  function Frame(m: Message): Bytes {
    PutU16(m.sender) + PutU16(m.length) + m.content
  }

  function Frames(ms: seq<Message>): Bytes {
    if ms == [] then [] else Frame(ms[0]) + Frames(ms[1..])
  }

  lemma {:induction false} FramesSnoc(ms: seq<Message>, m: Message)
    ensures Frames(ms + [m]) == Frames(ms) + Frame(m)
  {
    if ms == [] {
      assert ms + [m] == [m] && [m][1..] == [];
      assert Frame(m) + [] == Frame(m) == [] + Frame(m);
    } else {
      FramesSnoc(ms[1..], m);
      assert (ms + [m])[1..] == ms[1..] + [m];
      Regroup(Frame(ms[0]), Frames(ms[1..]), Frame(m));
    }
  }

  // The invariant

  /** What a sender still has to write of the frame for which it holds the lock. */
  function Unwritten(c: SenderState): Bytes {
    match c.pc
    case Outside => []
    case WriteSender => Frame(Letter(c.id, c.content))
    case WriteLength => PutU16(|c.content|) + c.content
    case WriteContent => c.content
    case ReleaseLock => []
  }

  function Owed(senders: seq<SenderState>): Bytes {
    if senders == [] then [] else Owed(senders[..|senders| - 1]) + Unwritten(senders[|senders| - 1])
  }

  lemma {:induction false} OwedAlone(senders: seq<SenderState>, i: int)
    requires forall j | 0 <= j < |senders| && j != i :: senders[j].pc == Outside
    ensures Owed(senders) == if 0 <= i < |senders| then Unwritten(senders[i]) else []
  {
    if senders == [] {
    } else {
      var n := |senders| - 1;
      OwedAlone(senders[..n], i);
      if i == n {
        assert [] + Unwritten(senders[n]) == Unwritten(senders[n]);
      } else {
        assert Unwritten(senders[n]) == [] && Owed(senders[..n]) + [] == Owed(senders[..n]);
      }
    }
  }

  /** What the receiver has already read of the frame it is in. */
  function Consumed(r: ReceiverState): Bytes {
    match r.pc
    case ReadSender => []
    case ReadLength => PutU16(r.sender)
    case ReadContent => PutU16(r.sender) + PutU16(r.length)
  }

  ghost predicate Locked(s: State) {
    && (forall i, j | 0 <= i < |s.senders| && 0 <= j < |s.senders| && i != j ::
         s.senders[i].pc == Outside || s.senders[j].pc == Outside)
    && (s.lock == 0 || s.lock == 1)
    && (s.lock == 1 <==> forall i | 0 <= i < |s.senders| :: s.senders[i].pc == Outside)
  }

  /** Bytes read of the current frame, bytes in the pipe and bytes still to be written are the frames of the
      pending messages. */
  ghost predicate InPipe(s: State, box: seq<Message>) {
    && (forall k | 0 <= k < |box| :: box[k].length == |box[k].content|)
    && Consumed(s.receiver) + s.pipe + Owed(s.senders) == Frames(box)
  }

  ghost predicate Inv(s: State) {
    && Locked(s)
    && Replay(Queue, s.history).Pending?
    && InPipe(s, Replay(Queue, s.history).messages)
    && s.receiver.received == AllTaken(s.history)
  }

  lemma SenderStepLocked(s: State, i: nat)
    requires Locked(s) && Enabled(s, Sender(i))
    ensures Locked(SenderStep(s, i))
    ensures forall j | 0 <= j < |s.senders| && j != i :: s.senders[j].pc == Outside
  {
    var t := SenderStep(s, i);
    assert s.senders[i].pc == ReleaseLock || t.senders[i].pc != Outside;
  }

  lemma FrameBehind(bytes: Bytes, box: seq<Message>, m: Message)
    requires bytes + [] == Frames(box)
    ensures bytes + Frame(m) == Frames(box + [m])
  {
    FramesSnoc(box, m);
    assert bytes + [] == bytes;
  }

  lemma AcquireOwes(s: State, i: nat)
    requires Locked(s) && Enabled(s, Sender(i)) && s.senders[i].pc == Outside
    ensures Owed(s.senders) == []
    ensures Owed(SenderStep(s, i).senders) == Frame(Letter(s.senders[i].id, s.senders[i].todo[0]))
  {
    SenderStepLocked(s, i);
    OwedAlone(s.senders, i);
    OwedAlone(SenderStep(s, i).senders, i);
  }

  lemma AcquireInPipe(s: State, i: nat, box: seq<Message>)
    requires Locked(s) && InPipe(s, box) && Enabled(s, Sender(i)) && s.senders[i].pc == Outside
    ensures InPipe(SenderStep(s, i), box + [Letter(s.senders[i].id, s.senders[i].todo[0])])
  {
    AcquireOwes(s, i);
    FrameBehind(Consumed(s.receiver) + s.pipe, box, Letter(s.senders[i].id, s.senders[i].todo[0]));
  }

  lemma AcquireKeeps(s: State, i: nat)
    requires Inv(s) && Enabled(s, Sender(i)) && s.senders[i].pc == Outside
    ensures Inv(SenderStep(s, i))
  {
    var m := Letter(s.senders[i].id, s.senders[i].todo[0]);
    SenderStepLocked(s, i);
    AcquireInPipe(s, i, Replay(Queue, s.history).messages);
    ReplaySnoc(Queue, s.history, Posted(m));
    TakenSnoc(s.history, Posted(m));
  }

  lemma WriteMovesBytes(s: State, i: nat)
    requires Enabled(s, Sender(i)) && s.senders[i].pc != Outside
    ensures var t := SenderStep(s, i);
      t.pipe + Unwritten(t.senders[i]) == s.pipe + Unwritten(s.senders[i])
  {
  }

  lemma WriteKeeps(s: State, i: nat)
    requires Inv(s) && Enabled(s, Sender(i)) && s.senders[i].pc != Outside
    ensures Inv(SenderStep(s, i))
  {
    var t := SenderStep(s, i);
    var read := Consumed(s.receiver);
    SenderStepLocked(s, i);
    OwedAlone(s.senders, i);
    OwedAlone(t.senders, i);
    WriteMovesBytes(s, i);
    Regroup(read, t.pipe, Owed(t.senders));
    Regroup(read, s.pipe, Owed(s.senders));
  }

  lemma PutGetU16(b: Bytes)
    requires |b| == 2
    ensures PutU16(GetU16(b)) == b
  {
  }

  lemma ReadHeaderKeeps(s: State)
    requires Inv(s) && Enabled(s, Receiver) && s.receiver.pc != ReadContent
    ensures Inv(ReceiverStep(s))
  {
    var t := ReceiverStep(s);
    PutGetU16(s.pipe[..2]);
    assert s.pipe == s.pipe[..2] + t.pipe;
    assert Consumed(t.receiver) == Consumed(s.receiver) + s.pipe[..2];
    assert Consumed(t.receiver) + t.pipe == Consumed(s.receiver) + s.pipe;
  }

  lemma SplitEqual(a: Bytes, b: Bytes, c: Bytes, d: Bytes)
    requires a + b == c + d && |a| == |c|
    ensures a == c && b == d
  {
    assert (a + b)[..|a|] == a && (c + d)[..|c|] == c;
    assert (a + b)[|a|..] == b && (c + d)[|c|..] == d;
  }

  lemma SameHeader(a: U16, b: U16, c: U16, d: U16, more: Bytes, others: Bytes)
    requires PutU16(a) + PutU16(b) + more == PutU16(c) + PutU16(d) + others
    ensures a == c && b == d && more == others
  {
    SplitEqual(PutU16(a) + PutU16(b), more, PutU16(c) + PutU16(d), others);
    SplitEqual(PutU16(a), PutU16(b), PutU16(c), PutU16(d));
    U16RoundTrip(a);
    U16RoundTrip(b);
    U16RoundTrip(c);
    U16RoundTrip(d);
  }

  lemma SameContent(pipe: Bytes, owed: Bytes, content: Bytes, others: Bytes)
    requires pipe + owed == content + others && |content| <= |pipe|
    ensures pipe[..|content|] == content && pipe[|content|..] + owed == others
  {
    assert pipe + owed == pipe[..|content|] + (pipe[|content|..] + owed);
    SplitEqual(pipe[..|content|], pipe[|content|..] + owed, content, others);
  }

  /** With a header read, the oldest pending message is the one whose header it is. */
  lemma HeaderIsOldest(s: State, box: seq<Message>)
    requires InPipe(s, box) && s.receiver.pc == ReadContent
    ensures box != [] && s.receiver.sender == box[0].sender && s.receiver.length == box[0].length
    ensures Enabled(s, Receiver) ==>
      && s.pipe[..s.receiver.length] == box[0].content
      && s.pipe[s.receiver.length..] + Owed(s.senders) == Frames(box[1..])
  {
    var r, owed := s.receiver, Owed(s.senders);
    assert |Frames(box)| > 0;
    var m, others := box[0], Frames(box[1..]);
    Regroup(Consumed(r), s.pipe, owed);
    Regroup(PutU16(m.sender) + PutU16(m.length), m.content, others);
    SameHeader(r.sender, r.length, m.sender, m.length, s.pipe + owed, m.content + others);
    if Enabled(s, Receiver) { SameContent(s.pipe, owed, m.content, others); }
  }

  lemma TakeOldest(s: State, box: seq<Message>)
    requires InPipe(s, box) && Enabled(s, Receiver) && s.receiver.pc == ReadContent
    ensures var t := ReceiverStep(s);
      && box != [] && t.history == s.history + [TakenOut(box[0])]
      && t.receiver.received == s.receiver.received + [box[0]]
      && InPipe(t, box[1..]) && t.lock == s.lock && t.senders == s.senders
  {
    HeaderIsOldest(s, box);
    var t := ReceiverStep(s);
    assert Consumed(t.receiver) + t.pipe == t.pipe;
  }

  lemma ReadContentKeeps(s: State)
    requires Inv(s) && Enabled(s, Receiver) && s.receiver.pc == ReadContent
    ensures Inv(ReceiverStep(s))
  {
    var box := Replay(Queue, s.history).messages;
    TakeOldest(s, box);
    ReplaySnoc(Queue, s.history, TakenOut(box[0]));
    TakenSnoc(s.history, TakenOut(box[0]));
  }

  lemma StepKeeps(s: State, a: Actor)
    requires Inv(s) && Enabled(s, a)
    ensures Inv(Step(s, a))
  {
    match a
    case Receiver =>
      if s.receiver.pc == ReadContent { ReadContentKeeps(s); } else { ReadHeaderKeeps(s); }
    case Sender(i) =>
      if s.senders[i].pc == Outside { AcquireKeeps(s, i); } else { WriteKeeps(s, i); }
  }

  lemma {:induction false} AfterInv(s0: State, schedule: seq<Actor>)
    requires Initial(s0)
    ensures Inv(After(s0, schedule))
  {
    if schedule == [] {
      OwedAlone(s0.senders, -1);
    } else {
      var mid, a := After(s0, schedule[..|schedule| - 1]), schedule[|schedule| - 1];
      AfterInv(s0, schedule[..|schedule| - 1]);
      if Enabled(mid, a) { StepKeeps(mid, a); }
    }
  }

  // Theorems

  /** Three writes and three reads, interleaved in any way, are a queue: messages come out whole, in the order in
      which their senders acquired the lock. */
  lemma {:induction false} RefinesQueue(s0: State, schedule: seq<Actor>)
    requires Initial(s0)
    ensures var s := After(s0, schedule);
      && Replay(Queue, s.history).Pending?
      && s.receiver.received == AllTaken(s.history)
      && s.receiver.received + Replay(Queue, s.history).messages == AllPosted(s.history)
      && Consumed(s.receiver) + s.pipe + Owed(s.senders) == Frames(Replay(Queue, s.history).messages)
      && (s.lock == 1 ==> Owed(s.senders) == [])
  {
    AfterInv(s0, schedule);
    var s := After(s0, schedule);
    QueueInOrder(s.history);
    if s.lock == 1 { OwedAlone(s.senders, -1); }
  }

  ghost predicate AllSent(s: State) {
    forall i | 0 <= i < |s.senders| :: s.senders[i].pc == Outside && s.senders[i].todo == []
  }

  ghost predicate Blocked(s: State) {
    forall a :: !Enabled(s, a)
  }

  /** Nothing can move exactly when all has been sent and all that was sent has been received. */
  lemma BlockedIff(s0: State, schedule: seq<Actor>)
    requires Initial(s0)
    ensures var s := After(s0, schedule);
      Blocked(s) <==> AllSent(s) && s.receiver.received == AllPosted(s.history)
  {
    var s := After(s0, schedule);
    AfterInv(s0, schedule);
    var box := Replay(Queue, s.history).messages;
    QueueInOrder(s.history);
    if AllSent(s) {
      OwedAlone(s.senders, -1);
      if box != [] { WholeFrameIsReadable(s, box); }
    } else {
      SomeSenderMoves(s);
    }
  }

  lemma SomeSenderMoves(s: State)
    requires Locked(s) && !AllSent(s)
    ensures !Blocked(s)
  {
    if j :| 0 <= j < |s.senders| && s.senders[j].pc != Outside {
      assert Enabled(s, Sender(j));
    } else {
      var i :| 0 <= i < |s.senders| && s.senders[i].todo != [];
      assert Enabled(s, Sender(i));
    }
  }

  lemma WholeFrameIsReadable(s: State, box: seq<Message>)
    requires InPipe(s, box) && Owed(s.senders) == [] && box != []
    ensures Enabled(s, Receiver)
  {
    assert |Frames(box)| >= |Frame(box[0])|;
    if s.receiver.pc == ReadContent { HeaderIsOldest(s, box); }
  }

  ghost predicate DistinctIds(s: State) {
    forall i, j | 0 <= i < |s.senders| && 0 <= j < |s.senders| && i != j :: s.senders[i].id != s.senders[j].id
  }

  /** Each sender has posted a prefix of its list. */
  ghost predicate Posting(s0: State, s: State) {
    && |s.senders| == |s0.senders|
    && forall i | 0 <= i < |s.senders| ::
      && s.senders[i].id == s0.senders[i].id
      && From(s.senders[i].id, AllPosted(s.history)) + s.senders[i].todo == s0.senders[i].todo
  }

  /** Posting the head of a sender's list moves it from what is left to what was posted. */
  lemma PostHead(id: U16, ms: seq<Message>, todo: seq<Content>)
    requires todo != []
    ensures From(id, ms + [Letter(id, todo[0])]) + todo[1..] == From(id, ms) + todo
  {
    FromSnoc(id, ms, Letter(id, todo[0]));
    assert todo == [todo[0]] + todo[1..];
  }

  lemma OtherPosting(id: U16, ms: seq<Message>, m: Message, todo: seq<Content>, list: seq<Content>)
    requires m.sender != id && From(id, ms) + todo == list
    ensures From(id, ms + [m]) + todo == list
  {
    FromSnoc(id, ms, m);
  }

  lemma AcquirePosting(s0: State, s: State, i: nat)
    requires Posting(s0, s) && DistinctIds(s0) && Enabled(s, Sender(i)) && s.senders[i].pc == Outside
    ensures Posting(s0, SenderStep(s, i))
  {
    var t, c, posted := SenderStep(s, i), s.senders[i], AllPosted(s.history);
    var m := Letter(c.id, c.todo[0]);
    TakenSnoc(s.history, Posted(m));
    assert AllPosted(t.history) == posted + [m];
    forall j | 0 <= j < |t.senders|
      ensures From(t.senders[j].id, posted + [m]) + t.senders[j].todo == s0.senders[j].todo
    {
      assert From(s.senders[j].id, posted) + s.senders[j].todo == s0.senders[j].todo;
      if j == i {
        PostHead(c.id, posted, c.todo);
      } else {
        OtherPosting(s.senders[j].id, posted, m, s.senders[j].todo, s0.senders[j].todo);
      }
    }
  }

  lemma StepPosting(s0: State, s: State, a: Actor)
    requires Posting(s0, s) && DistinctIds(s0) && Enabled(s, a)
    ensures Posting(s0, Step(s, a))
  {
    match a
    case Receiver =>
      if s.receiver.pc == ReadContent {
        var t := Step(s, a);
        TakenSnoc(s.history, t.history[|s.history|]);
        assert t.history == s.history + [t.history[|s.history|]];
      }
    case Sender(i) =>
      if s.senders[i].pc == Outside { AcquirePosting(s0, s, i); }
  }

  lemma {:induction false} AfterPosting(s0: State, schedule: seq<Actor>)
    requires Initial(s0) && DistinctIds(s0)
    ensures Posting(s0, After(s0, schedule))
  {
    if schedule == [] {
    } else {
      var mid, a := After(s0, schedule[..|schedule| - 1]), schedule[|schedule| - 1];
      AfterPosting(s0, schedule[..|schedule| - 1]);
      if Enabled(mid, a) { StepPosting(s0, mid, a); }
    }
  }

  /** The receiver gets from each sender a prefix of what it sends, in its order; all of it once nothing moves. */
  lemma EachSenderInOrder(s0: State, schedule: seq<Actor>, i: nat)
    requires Initial(s0) && DistinctIds(s0) && i < |s0.senders|
    ensures var s := After(s0, schedule);
      && From(s0.senders[i].id, s.receiver.received) <= s0.senders[i].todo
      && (Blocked(s) ==> From(s0.senders[i].id, s.receiver.received) == s0.senders[i].todo)
  {
    var s := After(s0, schedule);
    AfterPosting(s0, schedule);
    RefinesQueue(s0, schedule);
    BlockedIff(s0, schedule);
    var box := Replay(Queue, s.history).messages;
    FromConcat(s0.senders[i].id, s.receiver.received, box);
    assert From(s.senders[i].id, AllPosted(s.history)) + s.senders[i].todo == s0.senders[i].todo;
  }

  // Progress

  /** A sender's steps still to come, and the reads for the messages it has not posted: 8 for each of these. */
  function Ahead(c: SenderState): nat {
    8 * |c.todo| +
    match c.pc
    case Outside => 0
    case WriteSender => 4
    case WriteLength => 3
    case WriteContent => 2
    case ReleaseLock => 1
  }

  function Unsent(senders: seq<SenderState>): nat {
    if senders == [] then 0 else Unsent(senders[..|senders| - 1]) + Ahead(senders[|senders| - 1])
  }

  lemma {:induction false} UnsentUpdate(senders: seq<SenderState>, i: nat, c: SenderState)
    requires i < |senders|
    ensures Unsent(senders[i := c]) == Unsent(senders) - Ahead(senders[i]) + Ahead(c)
  {
    var n := |senders| - 1;
    if i == n {
      assert senders[i := c][..n] == senders[..n];
    } else {
      assert senders[i := c][..n] == senders[..n][i := c];
      UnsentUpdate(senders[..n], i, c);
    }
  }

  function ReadsMade(pc: ReceiverPc): nat {
    match pc
    case ReadSender => 0
    case ReadLength => 1
    case ReadContent => 2
  }

  /** All steps still to come: the senders', and three reads for each pending message, less those made. */
  function Work(s: State): int
    requires Replay(Queue, s.history).Pending?
  {
    Unsent(s.senders) + 3 * |Replay(Queue, s.history).messages| - ReadsMade(s.receiver.pc)
  }

  lemma WorkIsLeft(s: State)
    requires Inv(s)
    ensures Work(s) >= 0
  {
    assert |Consumed(s.receiver)| == 2 * ReadsMade(s.receiver.pc);
  }

  lemma SenderStepAhead(s: State, i: nat)
    requires Enabled(s, Sender(i))
    ensures var t := SenderStep(s, i);
      && t.receiver == s.receiver
      && Unsent(t.senders) == Unsent(s.senders) - if s.senders[i].pc == Outside then 4 else 1
  {
    UnsentUpdate(s.senders, i, SenderStep(s, i).senders[i]);
  }

  lemma SenderStepWorks(s: State, i: nat)
    requires Inv(s) && Enabled(s, Sender(i)) && Inv(SenderStep(s, i))
    ensures Work(SenderStep(s, i)) == Work(s) - 1
  {
    var c := s.senders[i];
    SenderStepAhead(s, i);
    if c.pc == Outside {
      ReplaySnoc(Queue, s.history, Posted(Letter(c.id, c.todo[0])));
    } else {
      assert SenderStep(s, i).history == s.history;
    }
  }

  lemma ReceiverStepWorks(s: State)
    requires Inv(s) && Enabled(s, Receiver) && Inv(ReceiverStep(s))
    ensures Work(ReceiverStep(s)) == Work(s) - 1
  {
    if s.receiver.pc == ReadContent {
      var box := Replay(Queue, s.history).messages;
      TakeOldest(s, box);
      ReplaySnoc(Queue, s.history, TakenOut(box[0]));
    }
  }

  lemma StepWorks(s: State, a: Actor)
    requires Inv(s) && Enabled(s, a)
    ensures Inv(Step(s, a)) && Work(Step(s, a)) == Work(s) - 1
  {
    StepKeeps(s, a);
    match a
    case Receiver => ReceiverStepWorks(s);
    case Sender(i) => SenderStepWorks(s, i);
  }

  /** How many of the scheduled steps were taken. */
  function Taken(s: State, schedule: seq<Actor>): nat {
    if schedule == [] then 0
    else
      var before := schedule[..|schedule| - 1];
      Taken(s, before) + if Enabled(After(s, before), schedule[|schedule| - 1]) then 1 else 0
  }

  /** Every step taken is one unit of work less; so no run goes on for ever. */
  lemma {:induction false} RunLength(s0: State, schedule: seq<Actor>)
    requires Initial(s0)
    ensures Inv(After(s0, schedule))
    ensures Taken(s0, schedule) + Work(After(s0, schedule)) == Unsent(s0.senders)
  {
    AfterInv(s0, schedule);
    if schedule == [] {
    } else {
      var before, a := schedule[..|schedule| - 1], schedule[|schedule| - 1];
      RunLength(s0, before);
      if Enabled(After(s0, before), a) { StepWorks(After(s0, before), a); }
    }
  }

  function Queued(senders: seq<SenderState>): nat {
    if senders == [] then 0 else Queued(senders[..|senders| - 1]) + |senders[|senders| - 1].todo|
  }

  lemma {:induction false} UnsentIsQueued(senders: seq<SenderState>)
    requires forall i | 0 <= i < |senders| :: senders[i].pc == Outside
    ensures Unsent(senders) == 8 * Queued(senders)
  {
    if senders == [] {
    } else {
      UnsentIsQueued(senders[..|senders| - 1]);
    }
  }

  lemma {:induction false} NothingQueued(senders: seq<SenderState>)
    requires forall i | 0 <= i < |senders| :: senders[i].todo == []
    ensures Queued(senders) == 0
  {
    if senders == [] {
    } else {
      NothingQueued(senders[..|senders| - 1]);
    }
  }

  /** Nothing can move exactly when eight steps have been taken for each message of the senders' lists. */
  lemma EightStepsEach(s0: State, schedule: seq<Actor>)
    requires Initial(s0)
    ensures Blocked(After(s0, schedule)) <==> Taken(s0, schedule) == 8 * Queued(s0.senders)
    ensures Taken(s0, schedule) <= 8 * Queued(s0.senders)
  {
    var s := After(s0, schedule);
    RunLength(s0, schedule);
    UnsentIsQueued(s0.senders);
    WorkIsLeft(s);
    if Blocked(s) {
      BlockedIff(s0, schedule);
      QueueInOrder(s.history);
      UnsentIsQueued(s.senders);
      NothingQueued(s.senders);
      var box := Replay(Queue, s.history).messages;
      if s.receiver.pc == ReadContent { HeaderIsOldest(s, box); }
    } else {
      var a :| Enabled(s, a);
      StepWorks(s, a);
      WorkIsLeft(Step(s, a));
    }
  }

  /** Every run can be continued to one where all has been sent and received. */
  lemma RunsEnd(s0: State, schedule: seq<Actor>) returns (full: seq<Actor>)
    requires Initial(s0)
    ensures |full| >= |schedule| && full[..|schedule|] == schedule
    ensures var s := After(s0, full);
      AllSent(s) && s.receiver.received == AllPosted(s.history) && Taken(s0, full) == 8 * Queued(s0.senders)
    decreases 8 * Queued(s0.senders) - Taken(s0, schedule)
  {
    EightStepsEach(s0, schedule);
    var s := After(s0, schedule);
    if Blocked(s) {
      full := schedule;
      BlockedIff(s0, schedule);
    } else {
      var a :| Enabled(s, a);
      assert (schedule + [a])[..|schedule|] == schedule;
      assert Taken(s0, schedule + [a]) == Taken(s0, schedule) + 1;
      EightStepsEach(s0, schedule + [a]);
      full := RunsEnd(s0, schedule + [a]);
    }
  }

  lemma {:induction false} AfterSenders(s0: State, schedule: seq<Actor>)
    ensures |After(s0, schedule).senders| == |s0.senders|
  {
    if schedule == [] {
    } else {
      AfterSenders(s0, schedule[..|schedule| - 1]);
    }
  }

  /** The pipe, its semaphore and the processes around it, changed in place. */
  class Inbox {
    var lock: nat
    var pipe: Bytes
    var senders: seq<SenderState>
    var receiver: ReceiverState
    ghost var history: seq<Event>

    ghost function View(): State
      reads this
    {
      State(lock, pipe, senders, receiver, history)
    }

    constructor (ids: seq<U16>, lists: seq<seq<Content>>)
      requires |ids| == |lists|
      ensures Initial(View()) && |senders| == |ids|
      ensures forall i | 0 <= i < |ids| :: senders[i].id == ids[i] && senders[i].todo == lists[i]
    {
      lock, pipe, history := 1, [], [];
      senders := seq(|ids|, i requires 0 <= i < |ids| => SenderState(ids[i], Outside, lists[i], []));
      receiver := ReceiverState(ReadSender, 0, 0, []);
    }

    method Acquire()
      requires lock > 0
      modifies this`lock
      ensures lock == old(lock) - 1
    {
      lock := lock - 1;
    }

    method Release()
      modifies this`lock
      ensures lock == old(lock) + 1
    {
      lock := lock + 1;
    }

    method Write(bytes: Bytes)
      modifies this`pipe
      ensures pipe == old(pipe) + bytes
    {
      pipe := pipe + bytes;
    }

    method Read(n: nat) returns (bytes: Bytes)
      requires n <= |pipe|
      modifies this`pipe
      ensures |bytes| == n && bytes + pipe == old(pipe)
    {
      bytes, pipe := pipe[..n], pipe[n..];
    }

    method RunSender(i: nat)
      requires Enabled(View(), Sender(i))
      modifies this
      ensures View() == SenderStep(old(View()), i)
    {
      var c := senders[i];
      match c.pc {
        case Outside =>
          Acquire();
          history := history + [Posted(Letter(c.id, c.todo[0]))];
          c := c.(pc := WriteSender, content := c.todo[0], todo := c.todo[1..]);
        case WriteSender => Write(PutU16(c.id)); c := c.(pc := WriteLength);
        case WriteLength => Write(PutU16(|c.content|)); c := c.(pc := WriteContent);
        case WriteContent => Write(c.content); c := c.(pc := ReleaseLock);
        case ReleaseLock => Release(); c := c.(pc := Outside);
      }
      senders := senders[i := c];
    }

    method RunReceiver()
      requires Enabled(View(), Receiver)
      modifies this
      ensures View() == ReceiverStep(old(View()))
    {
      var bytes := Read(Asked(receiver));
      assert old(pipe)[..|bytes|] == bytes && old(pipe)[|bytes|..] == pipe;
      match receiver.pc {
        case ReadSender => receiver := receiver.(pc := ReadLength, sender := GetU16(bytes));
        case ReadLength => receiver := receiver.(pc := ReadContent, length := GetU16(bytes));
        case ReadContent =>
          var m := Message(receiver.sender, receiver.length, bytes);
          receiver := receiver.(pc := ReadSender, received := receiver.received + [m]);
          history := history + [TakenOut(m)];
      }
    }

    /** Lets the named processes run, one step at a time; a blocked process waits. */
    method RunAll(schedule: seq<Actor>)
      modifies this
      ensures View() == After(old(View()), schedule)
    {
      for k := 0 to |schedule|
        invariant View() == After(old(View()), schedule[..k])
      {
        assert schedule[..k + 1][..k] == schedule[..k];
        match schedule[k] {
          case Receiver =>
            if |pipe| >= Asked(receiver) {
              RunReceiver();
            }
          case Sender(i) =>
            if i < |senders| && (senders[i].pc == Outside ==> |senders[i].todo| > 0 && lock > 0) {
              RunSender(i);
            }
        }
      }
      assert schedule[..|schedule|] == schedule;
    }

    /** From an empty inbox, whatever the order of execution: messages come out as from a queue, in the order of lock
        acquisition, and with distinct identifiers each sender's arrive in its own order. */
    method Run(schedule: seq<Actor>)
      requires Initial(View())
      modifies this
      ensures View() == After(old(View()), schedule)
      ensures Replay(Queue, history).Pending?
      ensures receiver.received + Replay(Queue, history).messages == AllPosted(history)
      ensures |senders| == |old(senders)|
      ensures old(DistinctIds(View())) ==> forall i | 0 <= i < |senders| ::
        && From(old(senders)[i].id, receiver.received) <= old(senders)[i].todo
        && From(old(senders)[i].id, AllPosted(history)) + senders[i].todo == old(senders)[i].todo
    {
      ghost var s0 := View();
      RunAll(schedule);
      RefinesQueue(s0, schedule);
      AfterSenders(s0, schedule);
      if DistinctIds(s0) {
        AfterPosting(s0, schedule);
        forall i: nat | i < |senders|
          ensures From(s0.senders[i].id, receiver.received) <= s0.senders[i].todo
        {
          EachSenderInOrder(s0, schedule, i);
        }
      }
    }
  }
}
