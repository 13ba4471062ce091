/** The four-semaphore transport executed in place, and what its executions guarantee on the fields. */
module FourSemaphoresSystem {
  import opened Messages
  import opened Service
  import opened FourSemaphores
  import opened FourSemaphoresProofs

  datatype Name = CLIENT_WRITE | SERVER_READ | CLIENT_READ | SERVER_WRITE

  /** The mapped segment, the semaphore set and the processes, changed in place. */
  class System<S(!new)> {
    const serve: Service<S>
    var sems: Semaphores
    var sender: U16
    var length: U16
    var memory: Memory
    var clients: seq<ClientState>
    var server: ServerState
    var state: S
    ghost var admitted: seq<Admission>

    ghost function View(): State<S>
      reads this
    {
      State(sems, Slot(sender, length, memory), clients, server, state, admitted)
    }

    constructor (serve: Service<S>, state: S, id: U16, ids: seq<U16>, lists: seq<seq<Content>>, memory: Memory,
                 posix: bool)
      requires |ids| == |lists|
      ensures this.serve == serve && if posix then InitialPosix(View()) else InitialSystemV(View())
      ensures this.state == state && server.id == id && |clients| == |ids|
      ensures forall i | 0 <= i < |ids| :: clients[i].id == ids[i] && clients[i].todo == lists[i]
    {
      this.serve := serve;
      this.state := state;
      sems := if posix then Semaphores(0, 0, 0, 0) else Semaphores(1, 0, 0, 0);
      sender, length, this.memory := 0, 0, memory;
      clients := seq(|ids|, i requires 0 <= i < |ids| => ClientState(ids[i], Idle, lists[i], [], 0, 0, [], []));
      server := ServerState(id, if posix then Boot else Listen, 0, 0, [], []);
      admitted := [];
    }

    method Dec(which: Name)
      requires which == CLIENT_WRITE ==> sems.clientWrite > 0
      requires which == SERVER_READ ==> sems.serverRead > 0
      requires which == CLIENT_READ ==> sems.clientRead > 0
      requires which == SERVER_WRITE ==> sems.serverWrite > 0
      modifies this`sems
      ensures match which
        case CLIENT_WRITE => sems == old(sems).(clientWrite := old(sems).clientWrite - 1)
        case SERVER_READ => sems == old(sems).(serverRead := old(sems).serverRead - 1)
        case CLIENT_READ => sems == old(sems).(clientRead := old(sems).clientRead - 1)
        case SERVER_WRITE => sems == old(sems).(serverWrite := old(sems).serverWrite - 1)
    {
      match which
      case CLIENT_WRITE => sems := sems.(clientWrite := sems.clientWrite - 1);
      case SERVER_READ => sems := sems.(serverRead := sems.serverRead - 1);
      case CLIENT_READ => sems := sems.(clientRead := sems.clientRead - 1);
      case SERVER_WRITE => sems := sems.(serverWrite := sems.serverWrite - 1);
    }

    method Inc(which: Name)
      modifies this`sems
      ensures match which
        case CLIENT_WRITE => sems == old(sems).(clientWrite := old(sems).clientWrite + 1)
        case SERVER_READ => sems == old(sems).(serverRead := old(sems).serverRead + 1)
        case CLIENT_READ => sems == old(sems).(clientRead := old(sems).clientRead + 1)
        case SERVER_WRITE => sems == old(sems).(serverWrite := old(sems).serverWrite + 1)
    {
      match which
      case CLIENT_WRITE => sems := sems.(clientWrite := sems.clientWrite + 1);
      case SERVER_READ => sems := sems.(serverRead := sems.serverRead + 1);
      case CLIENT_READ => sems := sems.(clientRead := sems.clientRead + 1);
      case SERVER_WRITE => sems := sems.(serverWrite := sems.serverWrite + 1);
    }

    method RunClient(i: nat)
      requires Enabled(View(), Client(i))
      modifies this
      ensures View() == ClientStep(old(View()), i)
    {
      var c := clients[i];
      match c.pc {
        case Idle =>
          Dec(CLIENT_WRITE);
          admitted := admitted + [Admission(i, c.todo[0])];
          c := c.(pc := PutSender, request := c.todo[0], todo := c.todo[1..]);
        case PutSender => sender := c.id; c := c.(pc := PutLength);
        case PutLength => length := |c.request|; c := c.(pc := PutContent);
        case PutContent => memory := Memcpy(memory, c.request); c := c.(pc := PostRequest);
        case PostRequest => Inc(SERVER_READ); c := c.(pc := AwaitReply);
        case AwaitReply => Dec(CLIENT_READ); c := c.(pc := GetSender);
        case GetSender => c := c.(pc := GetLength, sender := sender);
        case GetLength => c := c.(pc := GetContent, length := length);
        case GetContent => c := c.(pc := Release, content := memory[..c.length]);
        case Release =>
          Inc(CLIENT_WRITE);
          c := c.(pc := Idle, received := c.received + [Message(c.sender, c.length, c.content)]);
      }
      clients := clients[i := c];
    }

    method RunServer()
      requires Enabled(View(), Server)
      modifies this
      ensures View() == ServerStep(serve, old(View()))
    {
      var v := server;
      match v.pc {
        case Boot => Inc(CLIENT_WRITE); v := v.(pc := Listen);
        case Listen => Dec(SERVER_READ); v := v.(pc := TakeSender);
        case TakeSender => v := v.(pc := TakeLength, sender := sender);
        case TakeLength => v := v.(pc := TakeContent, length := length);
        case TakeContent => v := v.(pc := HandOver, content := memory[..v.length]);
        case HandOver => Inc(SERVER_WRITE); v := v.(pc := Dispatch);
        case Dispatch =>
          var served := serve(state, v.content);
          if served.Silence? {
            v := v.(pc := Listen);
          } else {
            state := served.state;
            v := v.(pc := AwaitTurn, response := served.content);
          }
        case AwaitTurn => Dec(SERVER_WRITE); v := v.(pc := GiveSender);
        case GiveSender => sender := v.id; v := v.(pc := GiveLength);
        case GiveLength => length := |v.response|; v := v.(pc := GiveContent);
        case GiveContent => memory := Memcpy(memory, v.response); v := v.(pc := PostReply);
        case PostReply => Inc(CLIENT_READ); v := v.(pc := Listen);
      }
      server := v;
    }

    /** Lets the named processes run, one step at a time; a blocked process waits. */
    method RunAll(schedule: seq<Actor>) returns (taken: nat)
      modifies this
      ensures View() == After(serve, old(View()), schedule)
      ensures taken == Taken(serve, old(View()), schedule)
    {
      taken := 0;
      for k := 0 to |schedule|
        invariant View() == After(serve, old(View()), schedule[..k])
        invariant taken == Taken(serve, old(View()), schedule[..k])
      {
        assert schedule[..k + 1][..k] == schedule[..k];
        var a := schedule[k];
        match a {
        case Server =>
          if (server.pc == Listen ==> sems.serverRead > 0) && (server.pc == AwaitTurn ==> sems.serverWrite > 0) {
            RunServer();
            taken := taken + 1;
          }
        case Client(i) =>
          if && i < |clients|
             && (clients[i].pc == Idle ==> |clients[i].todo| > 0 && sems.clientWrite > 0)
             && (clients[i].pc == AwaitReply ==> sems.clientRead > 0) {
            RunClient(i);
            taken := taken + 1;
          }
        }
      }
      assert schedule[..|schedule|] == schedule;
    }

    /** From a start state, whatever the order of execution: what the clients hold and the server's state are those
        of a sequential run of the requests answered so far, and every step taken was one unit of finite work. */
    method Run(schedule: seq<Actor>) returns (taken: nat)
      requires Initial(View())
      modifies this
      ensures View() == After(serve, old(View()), schedule)
      ensures taken + Work(View()) == Work(old(View()))
      ensures server.id == old(server.id) && |clients| == |old(clients)|
      ensures forall i | 0 <= i < |clients| :: SentBy(i, admitted) + clients[i].todo == old(clients)[i].todo
      ensures var l := Replay(serve, server.id, old(state), Completed(View()));
        && (forall i | 0 <= i < |clients| :: clients[i].received == RepliesTo(i, l.replies))
        && (state == l.state || (InFlight(View()) && state == Replay(serve, server.id, old(state), admitted).state))
    {
      ghost var s0 := View();
      taken := RunAll(schedule);
      AfterInv(serve, s0, schedule);
      Linearizability(serve, s0, schedule);
      RunLength(serve, s0, schedule);
    }
  }
}
