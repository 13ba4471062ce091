/**
 * The file transport: a message is appended content first, header last, and taken from the end of the file, which
 * is then cut. The inbox is a stack. It is one only while nothing is appended in the middle of a receive.
 */
module FileInbox {
  import opened Messages
  import opened Mailbox

  const HEADER := 4

  function Frame(m: Message): Bytes {
    m.content + PutU16(m.sender) + PutU16(m.length)
  }

  function Frames(ms: seq<Message>): Bytes {
    if ms == [] then [] else Frames(ms[..|ms| - 1]) + Frame(ms[|ms| - 1])
  }

  ghost predicate WellFormed(ms: seq<Message>) {
    forall k | 0 <= k < |ms| :: ms[k].length == |ms[k].content|
  }

  lemma FramesSnoc(ms: seq<Message>, m: Message)
    ensures Frames(ms + [m]) == Frames(ms) + Frame(m)
  {
    assert (ms + [m])[..|ms|] == ms;
  }

  lemma {:induction false} FramesConcat(a: seq<Message>, b: seq<Message>)
    ensures Frames(a + b) == Frames(a) + Frames(b)
  {
    if b == [] {
      assert a + b == a;
    } else {
      FramesConcat(a, b[..|b| - 1]);
      Regroup(Frames(a), Frames(b[..|b| - 1]), Frame(b[|b| - 1]));
      assert (a + b)[..|a + b| - 1] == a + b[..|b| - 1];
    }
  }

  lemma {:induction false} FramesLength(ms: seq<Message>)
    ensures |Frames(ms)| >= HEADER * |ms|
  {
    if ms == [] {
    } else {
      FramesLength(ms[..|ms| - 1]);
    }
  }

  datatype Header = Header(sender: U16, length: U16)

  function ReadHeader(file: Bytes): Header
    requires |file| >= HEADER
  {
    Header(GetU16(file[|file| - 4..|file| - 2]), GetU16(file[|file| - 2..]))
  }

  function ReadContent(file: Bytes, length: U16): Bytes
    requires |file| >= HEADER + length
  {
    file[|file| - HEADER - length..|file| - HEADER]
  }

  /** `ftruncate`: a negative size is refused, and the file stays as it is; a larger one adds zeros. */
  function Truncate(file: Bytes, size: int): Bytes {
    if size < 0 then file
    else if size <= |file| then file[..size]
    else file + seq(size - |file|, _ => 0)
  }

  lemma SplitAtEnd(front: Bytes, content: Bytes, sender: Bytes, length: Bytes)
    requires |sender| == 2 && |length| == 2
    ensures var file := front + (content + sender + length);
      && file[|file| - 4..|file| - 2] == sender && file[|file| - 2..] == length
      && file[|file| - 4 - |content|..|file| - 4] == content && file[..|file| - 4 - |content|] == front
  {
  }

  lemma FrameAtEnd(front: Bytes, m: Message)
    requires m.length == |m.content|
    ensures var file := front + Frame(m);
      && |file| >= HEADER + m.length
      && ReadHeader(file) == Header(m.sender, m.length)
      && ReadContent(file, m.length) == m.content
      && Truncate(file, |file| - HEADER - m.length) == front
  {
    SplitAtEnd(front, m.content, PutU16(m.sender), PutU16(m.length));
    U16RoundTrip(m.sender);
    U16RoundTrip(m.length);
  }

  lemma LastFrame(rest: seq<Message>, m: Message)
    requires m.length == |m.content|
    ensures var file := Frames(rest + [m]);
      && |file| >= HEADER + m.length
      && ReadHeader(file) == Header(m.sender, m.length)
      && ReadContent(file, m.length) == m.content
      && Truncate(file, |file| - HEADER - m.length) == Frames(rest)
  {
    FramesSnoc(rest, m);
    FrameAtEnd(Frames(rest), m);
  }

  lemma NewestFrame(box: seq<Message>)
    requires box != [] && WellFormed(box)
    ensures var file, m := Frames(box), box[|box| - 1];
      && |file| >= HEADER + m.length
      && ReadHeader(file) == Header(m.sender, m.length)
      && ReadContent(file, m.length) == m.content
      && Truncate(file, |file| - HEADER - m.length) == Frames(box[..|box| - 1])
  {
    var rest, m := box[..|box| - 1], box[|box| - 1];
    assert rest + [m] == box;
    LastFrame(rest, m);
  }

  datatype Taken = Taken(message: Message, file: Bytes)

  /** One receive, with what other processes append between the size sample and the header (`a`), between header
      and content (`b`), and between content and truncation (`c`). Every seek is relative to the end. */
  function Receive(file: Bytes, a: Bytes, b: Bytes, c: Bytes): Taken
    requires |file + a| >= HEADER && |file + a + b| >= HEADER + ReadHeader(file + a).length
  {
    var h := ReadHeader(file + a);
    var content := ReadContent(file + a + b, h.length);
    Taken(Message(h.sender, h.length, content), Truncate(file + a + b + c, |file| - HEADER - h.length))
  }

  /** A receive that nothing lands in. */
  function ReceiveAlone(file: Bytes): Taken
    requires |file| >= HEADER && |file| >= HEADER + ReadHeader(file).length
  {
    var h := ReadHeader(file);
    Taken(Message(h.sender, h.length, ReadContent(file, h.length)), Truncate(file, |file| - HEADER - h.length))
  }

  lemma NothingLands(file: Bytes)
    requires |file| >= HEADER && |file| >= HEADER + ReadHeader(file).length
    ensures file + [] == file && file + [] + [] == file
    ensures Receive(file, [], [], []) == ReceiveAlone(file)
  {
    assert file + [] == file && file + [] + [] == file && file + [] + [] + [] == file;
  }

  /** In bytes: `front` is what precedes the newest message `m` of the file at the time its header is read. */
  lemma BytesUndisturbedIff(file: Bytes, a: Bytes, b: Bytes, c: Bytes, front: Bytes, m: Message)
    requires file + a == front + Frame(m) && m.length == |m.content|
    ensures |file + a| >= HEADER && ReadHeader(file + a) == Header(m.sender, m.length)
    ensures |file + a + b| >= HEADER + m.length
    ensures Receive(file, a, b, c).file == front + b + c <==> a == [] && b == [] && c == []
    ensures b == [] ==> Receive(file, a, b, c).message == m
  {
    FrameAtEnd(front, m);
    if b == [] { assert file + a + b == file + a; }
    if a == [] && b == [] && c == [] {
      assert file + a + b + c == file + a == file;
      assert front + b + c == front;
    } else {
      TooLongOrTooShort(file, a, b, c, front, m);
    }
  }

  lemma TooLongOrTooShort(file: Bytes, a: Bytes, b: Bytes, c: Bytes, front: Bytes, m: Message)
    requires |file| + |a| == |front| + HEADER + m.length && |a| + |b| + |c| > 0
    ensures |Truncate(file + a + b + c, |file| - HEADER - m.length)| != |front + b + c|
  {
  }

  lemma NoFramesNoBytes(ms: seq<Message>)
    ensures Frames(ms) == [] <==> ms == []
  {
    FramesLength(ms);
  }

  /** A receive whose size sample saw `box`, while `a`, `b` and `c` land at the three points, takes the newest message
      `m` of `box + a`, sound unless something landed between header and content; and it leaves exactly the other
      messages if and only if nothing landed at all. */
  lemma UndisturbedIff(
    box: seq<Message>, a: seq<Message>, rest: seq<Message>, m: Message, b: seq<Message>, c: seq<Message>)
    requires box != [] && box + a == rest + [m] && m.length == |m.content|
    ensures |Frames(box) + Frames(a)| >= HEADER
    ensures |Frames(box) + Frames(a) + Frames(b)| >= HEADER + ReadHeader(Frames(box) + Frames(a)).length
    ensures Receive(Frames(box), Frames(a), Frames(b), Frames(c)).file == Frames(rest + b + c)
      <==> a == [] && b == [] && c == []
    ensures b == [] ==> Receive(Frames(box), Frames(a), Frames(b), Frames(c)).message == m
  {
    FramesConcat(box, a);
    FramesSnoc(rest, m);
    FramesConcat(rest, b);
    FramesConcat(rest + b, c);
    NoFramesNoBytes(a);
    NoFramesNoBytes(b);
    NoFramesNoBytes(c);
    BytesUndisturbedIff(Frames(box), Frames(a), Frames(b), Frames(c), Frames(rest), m);
  }

  /** `ftruncate`, byte for byte: as many bytes as asked for, those of the file and then zeros; none of it when the size
      is negative. */
  lemma TruncateBytes(file: Bytes, size: int)
    ensures var t := Truncate(file, size);
      if size < 0 then t == file
      else |t| == size && forall k | 0 <= k < size :: t[k] == if k < |file| then file[k] else 0
  {
  }

  datatype Received = Waiting | Got(message: Message)

  datatype Op = Send(sender: U16, content: Content) | Recv

  datatype StackResult = StackResult(received: seq<Message>, pending: seq<Message>)

  /** A receive on an empty stack waits and yields nothing. */
  function StackStep(r: StackResult, op: Op): StackResult {
    match op
    case Send(sender, content) => StackResult(r.received, r.pending + [Letter(sender, content)])
    case Recv =>
      if r.pending == [] then r
      else
        var top := |r.pending| - 1;
        StackResult(r.received + [r.pending[top]], r.pending[..top])
  }

  /** The same sequence on a stack of messages. */
  function StackRun(box: seq<Message>, script: seq<Op>): StackResult {
    if script == [] then StackResult([], box)
    else StackStep(StackRun(box, script[..|script| - 1]), script[|script| - 1])
  }

  function SentIn(script: seq<Op>): seq<Message> {
    if script == [] then []
    else
      var before, op := SentIn(script[..|script| - 1]), script[|script| - 1];
      if op.Send? then before + [Letter(op.sender, op.content)] else before
  }

  lemma StackRunSnoc(box: seq<Message>, script: seq<Op>, op: Op)
    ensures StackRun(box, script + [op]) == StackStep(StackRun(box, script), op)
    ensures SentIn(script + [op]) == SentIn(script) + SentIn([op])
  {
    assert (script + [op])[..|script|] == script;
    SentInOne(op);
  }

  lemma SentInOne(op: Op)
    ensures SentIn([op]) == if op.Send? then [Letter(op.sender, op.content)] else []
  {
    assert [op][..0] == [];
  }

  lemma PostedOnStack(history: seq<Event>, m: Message)
    requires Replay(Stack, history).Pending?
    ensures Replay(Stack, history + [Posted(m)]) == Pending(Replay(Stack, history).messages + [m])
    ensures AllPosted(history + [Posted(m)]) == AllPosted(history) + [m]
    ensures AllTaken(history + [Posted(m)]) == AllTaken(history) + []
  {
    ReplaySnoc(Stack, history, Posted(m));
    TakenSnoc(history, Posted(m));
  }

  lemma TakenOffStack(history: seq<Event>, m: Message)
    requires Replay(Stack, history).Pending? && Replay(Stack, history).messages != []
    requires var box := Replay(Stack, history).messages;
      m == box[|box| - 1]
    ensures var box := Replay(Stack, history).messages;
      Replay(Stack, history + [TakenOut(m)]) == Pending(box[..|box| - 1])
    ensures AllPosted(history + [TakenOut(m)]) == AllPosted(history) + []
    ensures AllTaken(history + [TakenOut(m)]) == AllTaken(history) + [m]
  {
    ReplaySnoc(Stack, history, TakenOut(m));
    TakenSnoc(history, TakenOut(m));
  }

  lemma StackStepAppends(received: seq<Message>, box: seq<Message>, op: Op)
    ensures var r := StackStep(StackResult([], box), op);
      StackStep(StackResult(received, box), op) == StackResult(received + r.received, r.pending)
  {
  }

  lemma StackStepLosesNothing(r: StackResult, op: Op)
    ensures var t := StackStep(r, op);
      multiset(t.received) + multiset(t.pending) == multiset(r.received) + multiset(r.pending)
        + if op.Send? then multiset{Letter(op.sender, op.content)} else multiset{}
  {
    if op.Recv? && r.pending != [] {
      var top := |r.pending| - 1;
      assert r.pending == r.pending[..top] + [r.pending[top]];
    }
  }

  /** What is received and what stays pending is what was there and what was sent. */
  lemma {:induction false} StackRunLosesNothing(box: seq<Message>, script: seq<Op>)
    ensures var r := StackRun(box, script);
      multiset(r.received) + multiset(r.pending) == multiset(box) + multiset(SentIn(script))
  {
    if script == [] {
    } else {
      var n := |script| - 1;
      StackRunLosesNothing(box, script[..n]);
      StackStepLosesNothing(StackRun(box, script[..n]), script[n]);
    }
  }

  /** The file is the frames of what a stack leaves of the history. */
  ghost predicate IsStack(file: Bytes, history: seq<Event>) {
    && Replay(Stack, history).Pending?
    && WellFormed(Replay(Stack, history).messages)
    && file == Frames(Replay(Stack, history).messages)
  }

  lemma TakeLeavesStack(file: Bytes, history: seq<Event>)
    requires IsStack(file, history) && Replay(Stack, history).messages != []
    ensures var box := Replay(Stack, history).messages;
      && file != [] && |file| >= HEADER && |file| >= HEADER + ReadHeader(file).length
      && var t := ReceiveAlone(file);
        && t.message == box[|box| - 1]
        && IsStack(t.file, history + [TakenOut(t.message)])
  {
    var box := Replay(Stack, history).messages;
    NewestFrame(box);
    ReplaySnoc(Stack, history, TakenOut(box[|box| - 1]));
  }

  /** An inbox file whose sends and receives do not overlap. */
  class Inbox {
    var file: Bytes
    ghost var history: seq<Event>

    ghost predicate Valid()
      reads this
    {
      IsStack(file, history)
    }

    constructor ()
      ensures Valid() && history == []
    {
      file, history := [], [];
    }

    method Append(sender: U16, content: Content)
      requires Valid()
      modifies this
      ensures Valid() && history == old(history) + [Posted(Letter(sender, content))]
    {
      var length: U16 := |content|;
      file := file + content;
      file := file + PutU16(sender);
      file := file + PutU16(length);
      ghost var m := Letter(sender, content);
      ReplaySnoc(Stack, history, Posted(m));
      FramesSnoc(Replay(Stack, history).messages, m);
      assert file == Frames(Replay(Stack, history).messages) + Frame(m);
      history := history + [Posted(m)];
    }

    /** Waits on an empty file; otherwise takes the message that was sent last. */
    method Take() returns (r: Received)
      requires Valid()
      modifies this
      ensures Valid()
      ensures r == Waiting <==> Replay(Stack, old(history)).messages == []
      ensures r == Waiting ==> history == old(history) && file == old(file)
      ensures r.Got? ==>
        && var box := Replay(Stack, old(history)).messages;
        && r.message == box[|box| - 1] && history == old(history) + [TakenOut(r.message)]
        && |old(file)| >= HEADER && |old(file)| >= HEADER + ReadHeader(old(file)).length
        && Taken(r.message, file) == ReceiveAlone(old(file))
    {
      var size := |file|;
      if size == 0 {
        FramesLength(Replay(Stack, history).messages);
        return Waiting;
      }
      TakeLeavesStack(file, history);
      var sender, length := GetU16(file[size - 4..size - 2]), GetU16(file[size - 2..]);
      var content := file[size - HEADER - length..size - HEADER];
      file := file[..size - HEADER - length];
      r := Got(Message(sender, length, content));
      history := history + [TakenOut(r.message)];
    }

    /** One operation has the effect of `StackStep`. */
    method Do(op: Op) returns (received: seq<Message>)
      requires Valid()
      modifies this
      ensures Valid()
      ensures StackStep(StackResult([], Replay(Stack, old(history)).messages), op)
        == StackResult(received, Replay(Stack, history).messages)
      ensures AllPosted(history) == AllPosted(old(history)) + SentIn([op])
      ensures AllTaken(history) == AllTaken(old(history)) + received
    {
      received := [];
      SentInOne(op);
      ghost var before := history;
      match op {
        case Send(sender, content) =>
          Append(sender, content);
          PostedOnStack(before, Letter(sender, content));
        case Recv =>
          var r := Take();
          if r.Got? {
            received := [r.message];
            TakenOffStack(before, r.message);
          } else {
            assert AllTaken(before) + [] == AllTaken(before) && AllPosted(before) + [] == AllPosted(before);
          }
      }
    }

    /** Any sequence of sends and receives has the effect of that sequence on a stack. */
    method Run(script: seq<Op>) returns (received: seq<Message>)
      requires Valid()
      modifies this
      ensures Valid()
      ensures var run := StackRun(Replay(Stack, old(history)).messages, script);
        received == run.received && file == Frames(run.pending)
      ensures AllPosted(history) == AllPosted(old(history)) + SentIn(script)
      ensures AllTaken(history) == AllTaken(old(history)) + received
    {
      received := [];
      ghost var box := Replay(Stack, history).messages;
      for k := 0 to |script|
        invariant Valid()
        invariant StackRun(box, script[..k]) == StackResult(received, Replay(Stack, history).messages)
        invariant AllPosted(history) == AllPosted(old(history)) + SentIn(script[..k])
        invariant AllTaken(history) == AllTaken(old(history)) + received
      {
        assert script[..k + 1] == script[..k] + [script[k]];
        StackRunSnoc(box, script[..k], script[k]);
        StackStepAppends(received, Replay(Stack, history).messages, script[k]);
        var more := Do(script[k]);
        Regroup(AllPosted(old(history)), SentIn(script[..k]), SentIn([script[k]]));
        Regroup(AllTaken(old(history)), received, more);
        received := received + more;
      }
      assert script[..|script|] == script;
    }
  }
}
