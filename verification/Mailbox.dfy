/** The one interface that the message transports share: what is posted, what is taken, and in which order. */
module Mailbox {
  import opened Messages

  datatype Event = Posted(message: Message) | TakenOut(message: Message)

  /** A queue hands out the oldest pending message, a stack the newest. */
  datatype Discipline = Queue | Stack

  datatype Pending = Impossible | Pending(messages: seq<Message>)

  /** The messages pending after a history, or Impossible when the discipline does not allow that history. */
  function Replay(d: Discipline, history: seq<Event>): Pending {
    if history == [] then Pending([])
    else
      var p := Replay(d, history[..|history| - 1]);
      if p.Impossible? then Impossible
      else Next(d, p.messages, history[|history| - 1])
  }

  function Next(d: Discipline, box: seq<Message>, e: Event): Pending {
    match e
    case Posted(m) => Pending(box + [m])
    case TakenOut(m) =>
      if box == [] then Impossible
      else if d == Queue && box[0] == m then Pending(box[1..])
      else if d == Stack && box[|box| - 1] == m then Pending(box[..|box| - 1])
      else Impossible
  }

  lemma ReplaySnoc(d: Discipline, history: seq<Event>, e: Event)
    ensures var p := Replay(d, history);
      Replay(d, history + [e]) == if p.Impossible? then Impossible else Next(d, p.messages, e)
  {
    assert (history + [e])[..|history|] == history;
  }

  function AllPosted(history: seq<Event>): seq<Message> {
    if history == [] then []
    else
      var e := history[|history| - 1];
      var before := AllPosted(history[..|history| - 1]);
      if e.Posted? then before + [e.message] else before
  }

  function AllTaken(history: seq<Event>): seq<Message> {
    if history == [] then []
    else
      var e := history[|history| - 1];
      var before := AllTaken(history[..|history| - 1]);
      if e.TakenOut? then before + [e.message] else before
  }

  lemma TakenSnoc(history: seq<Event>, e: Event)
    ensures AllTaken(history + [e]) == if e.TakenOut? then AllTaken(history) + [e.message] else AllTaken(history)
    ensures AllPosted(history + [e]) == if e.Posted? then AllPosted(history) + [e.message] else AllPosted(history)
  {
    assert (history + [e])[..|history|] == history;
  }

  /** A queue delivers in order: what was taken, followed by what is pending, is what was posted. */
  lemma {:induction false} QueueInOrder(history: seq<Event>)
    requires Replay(Queue, history).Pending?
    ensures AllTaken(history) + Replay(Queue, history).messages == AllPosted(history)
  {
    if history == [] {
    } else {
      var before, e := history[..|history| - 1], history[|history| - 1];
      QueueInOrder(before);
      var box := Replay(Queue, before).messages;
      if e.TakenOut? { assert [e.message] + box[1..] == box; }
    }
  }

  lemma NextLosesNothing(d: Discipline, box: seq<Message>, e: Event)
    requires Next(d, box, e).Pending?
    ensures e.Posted? ==> multiset(Next(d, box, e).messages) == multiset(box) + multiset{e.message}
    ensures e.TakenOut? ==> multiset(Next(d, box, e).messages) + multiset{e.message} == multiset(box)
  {
    if e.TakenOut? {
      assert box == [box[0]] + box[1..] && box == box[..|box| - 1] + [box[|box| - 1]];
    }
  }

  /** Either discipline neither loses nor invents messages. */
  lemma {:induction false} NothingLost(d: Discipline, history: seq<Event>)
    requires Replay(d, history).Pending?
    ensures multiset(AllTaken(history)) + multiset(Replay(d, history).messages) == multiset(AllPosted(history))
  {
    if history == [] {
    } else {
      var before, e := history[..|history| - 1], history[|history| - 1];
      NothingLost(d, before);
      NextLosesNothing(d, Replay(d, before).messages, e);
    }
  }

  /** The contents that one sender contributed to a sequence of messages. */
  function From(id: U16, ms: seq<Message>): seq<Bytes> {
    if ms == [] then []
    else
      var before, m := From(id, ms[..|ms| - 1]), ms[|ms| - 1];
      if m.sender == id then before + [m.content] else before
  }

  lemma FromSnoc(id: U16, ms: seq<Message>, m: Message)
    ensures From(id, ms + [m]) == if m.sender == id then From(id, ms) + [m.content] else From(id, ms)
  {
    assert (ms + [m])[..|ms|] == ms;
  }

  lemma {:induction false} FromConcat(id: U16, a: seq<Message>, b: seq<Message>)
    ensures From(id, a + b) == From(id, a) + From(id, b)
  {
    if b == [] {
      assert a + b == a;
    } else {
      var front, last := b[..|b| - 1], b[|b| - 1];
      FromConcat(id, a, front);
      assert a + b == (a + front) + [last];
      FromSnoc(id, a + front, last);
      if last.sender == id { Regroup(From(id, a), From(id, front), [last.content]); }
    }
  }

  /** Taking the oldest message takes its sender's oldest, and leaves the others' alone. */
  lemma FromRest(id: U16, box: seq<Message>)
    requires box != []
    ensures From(id, box) == if box[0].sender == id then [box[0].content] + From(id, box[1..]) else From(id, box[1..])
  {
    assert box == [box[0]] + box[1..];
    FromConcat(id, [box[0]], box[1..]);
    FromSnoc(id, [], box[0]);
    assert [] + [box[0]] == [box[0]];
  }
}
