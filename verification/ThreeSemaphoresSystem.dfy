/** The three-semaphore transport executed in place, and what its executions guarantee on the fields. */
module ThreeSemaphoresSystem {
  import opened Messages
  import opened Service
  import opened ThreeSemaphores
  import opened ThreeSemaphoresProofs
  import opened ThreeSemaphoresProgress

  /** The mapped segment, the semaphore set and the processes, changed in place. */
  class System<S(!new)> {
    const serve: Service<S>
    var sems: Semaphores
    var slot: F.Slot
    var clients: seq<ClientState>
    var server: ServerState
    var state: S
    ghost var admitted: seq<Admission>

    ghost function View(): State<S>
      reads this
    {
      State(sems, slot, clients, server, state, admitted)
    }

    constructor (serve: Service<S>, state: S, id: U16, ids: seq<U16>, lists: seq<seq<Content>>, slot: F.Slot)
      requires |ids| == |lists|
      ensures this.serve == serve && this.state == state && Initial(View())
      ensures |clients| == |ids| && forall i | 0 <= i < |ids| :: clients[i].id == ids[i] && clients[i].todo == lists[i]
    {
      this.serve, this.state, this.slot, admitted := serve, state, slot, [];
      sems := Semaphores(0, 0, 0);
      clients := seq(|ids|, i requires 0 <= i < |ids| => ClientState(ids[i], Idle, lists[i], [], 0, []));
      server := ServerState(id, EmitWrite, 0, 0, 0, [], []);
    }

    method RunClient(i: nat)
      requires Enabled(View(), Client(i))
      modifies this
      ensures View() == ClientStep(old(View()), i)
    {
      var c := clients[i];
      match c.pc {
        case Idle =>
          sems := sems.(clientCanWrite := sems.clientCanWrite - 1);
          admitted := admitted + [Admission(i, c.todo[0])];
          c := c.(pc := PutSender, request := c.todo[0], todo := c.todo[1..]);
        case PutSender => slot := slot.(sender := c.id); c := c.(pc := PutLength);
        case PutLength => slot := slot.(length := |c.request|); c := c.(pc := PutContent);
        case PutContent => slot := slot.(memory := F.Memcpy(slot.memory, c.request)); c := c.(pc := EmitRequest);
        case EmitRequest => sems := sems.(serverCanRead := sems.serverCanRead + 1); c := c.(pc := AwaitReply);
        case AwaitReply => sems := sems.(clientCanRead := sems.clientCanRead - 1); c := c.(pc := MeasureReply);
        case MeasureReply => c := c.(pc := CopyReply, measured := slot.length);
        case CopyReply => c := c.(pc := Idle, received := c.received + [Copy(slot, c.measured)]);
      }
      clients := clients[i := c];
    }

    method RunServer()
      requires Enabled(View(), Server)
      modifies this
      ensures View() == ServerStep(serve, old(View()))
    {
      var v := server;
      match v.pc {
        case EmitWrite => sems := sems.(clientCanWrite := sems.clientCanWrite + 1); v := v.(pc := AwaitRequest);
        case AwaitRequest => sems := sems.(serverCanRead := sems.serverCanRead - 1); v := v.(pc := MeasureRequest);
        case MeasureRequest => v := v.(pc := CopyRequest, measured := slot.length);
        case CopyRequest =>
          v := v.(pc := Dispatch, sender := slot.sender, length := slot.length, content := slot.memory[..v.measured]);
        case Dispatch =>
          var served := serve(state, v.content);
          if served.Silence? {
            v := v.(pc := EmitWrite);
          } else {
            state := served.state;
            v := v.(pc := GiveSender, response := served.content);
          }
        case GiveSender => slot := slot.(sender := v.id); v := v.(pc := GiveLength);
        case GiveLength => slot := slot.(length := |v.response|); v := v.(pc := GiveContent);
        case GiveContent => slot := slot.(memory := F.Memcpy(slot.memory, v.response)); v := v.(pc := EmitReply);
        case EmitReply => sems := sems.(clientCanRead := sems.clientCanRead + 1); v := v.(pc := EmitWrite);
      }
      server := v;
    }

    /** Lets the named processes run, one step at a time; a blocked process waits. */
    method RunAll(schedule: seq<Actor>) returns (taken: nat)
      modifies this
      ensures View() == After(serve, old(View()), schedule)
      ensures taken == Taken(serve, old(View()), schedule)
    {
      taken := 0;
      for k := 0 to |schedule|
        invariant View() == After(serve, old(View()), schedule[..k])
        invariant taken == Taken(serve, old(View()), schedule[..k])
      {
        assert schedule[..k + 1][..k] == schedule[..k];
        match schedule[k] {
          case Server =>
            if server.pc == AwaitRequest ==> sems.serverCanRead > 0 {
              RunServer();
              taken := taken + 1;
            }
          case Client(i) =>
            if && i < |clients|
               && (clients[i].pc == Idle ==> |clients[i].todo| > 0 && sems.clientCanWrite > 0)
               && (clients[i].pc == AwaitReply ==> sems.clientCanRead > 0) {
              RunClient(i);
              taken := taken + 1;
            }
        }
      }
      assert schedule[..|schedule|] == schedule;
    }

    /** From the start state, whatever the order of execution: the server's state is that of a sequential run of the
        requests dispatched so far, in the order of admission, and each client has got one response per request. When
        at most one client asks anything, the responses are those of that sequential run. */
    method Run(schedule: seq<Actor>) returns (taken: nat)
      requires Initial(View())
      modifies this
      ensures View() == After(serve, old(View()), schedule)
      ensures taken + Work(View()) + 4 * Silenced(serve, old(View()), View()) == 17 * Queued(old(clients)) + 1
      ensures server.id == old(server.id) && |clients| == |old(clients)|
      ensures state == Replay(serve, server.id, old(state), Dispatched(View())).state
      ensures forall i | 0 <= i < |clients| ::
        && SentBy(i, admitted) + clients[i].todo == old(clients)[i].todo
        && |SentBy(i, admitted)| == |clients[i].received| + if clients[i].pc == Idle then 0 else 1
      ensures old(AtMostOneAsks(View())) ==> forall i | 0 <= i < |clients| ::
        clients[i].received <= RepliesTo(i, Replay(serve, server.id, old(state), admitted).replies)
    {
      ghost var s0 := View();
      taken := RunAll(schedule);
      AfterTally(serve, s0, schedule);
      RequestsInOrder(serve, s0, schedule);
      RunLength(serve, s0, schedule);
      if AtMostOneAsks(s0) { AtMostOneIsFaithful(serve, s0, schedule); }
    }
  }
}
