# Movie tickets over shared memory, pipes, files and queues: a verified model

The modelled program is a movie-ticket server written in C: a small database of movies with twenty tickets each, and
several interchangeable transports between one server and its clients. This project models the database, the
server's request loop, and the transports whose correctness depends on synchronisation or on byte framing, and proves
what their runs promise. `dafny verify dfyconfig.toml` verifies all of it.

## How the model is laid out

- `Messages`, `Wire`: bytes, message headers, and the C structures of requests and responses as bytes.
- `Movies`, `Sales`: the database as a value and sequences of requests against it. `Database` is the same database as
  one process changes it in place, with arrays and its record lock.
- `SharedDatabase`, `SharedDatabaseProgress`, `SharedDatabaseDemand`: several server processes on one mapped database,
  every read and write a step of its own; what every interleaving guarantees, and which groups of processes always get
  through, for all databases and for a given one.
- `Service`: any server that answers one request at a time, and `Replay`, the sequential run that transports are
  measured by. `TicketService` is the ticket server as such a service.
- `FourSemaphores`, `FourSemaphoresProofs`, `FourSemaphoresSystem`: the System V and POSIX shared-memory transport, for
  any number of clients with any lists of requests: its steps, its proofs, and its execution in place.
- `ThreeSemaphores`, `ThreeSemaphoresProofs`, `ThreeSemaphoresProgress`, `ThreeSemaphoresSystem`: the same for the
  shared-memory transport that is part of the build.
- `Mailbox`: one abstract mailbox, with a queue and a stack discipline. `Fifo`, `FileInbox` and `MessageQueue` refine
  it from bytes in a pipe, bytes in a file and a shared queue.
- `MailboxServer`: a server and its clients with one queue or one stack each, a send or a receive being one step.
  `PipeServer`, with every write and read of every inbox a step of its own, and `QueueServer`, on one shared message
  queue, refine it with queues. `FileServer` has the inbox files, where a send can land in the middle of a receive; runs
  in which none does refine it with stacks, and every run of one asking client is such a run.
- `TicketSystem`, `TicketMailboxes`: the ticket server over four semaphores and over three; over pipes, the message
  queue and inbox files.
- `ClientTable`: the table of connected clients of the select loop.

An interleaved run is a *schedule*, a sequence naming who moves next. A process whose next step would block stays
where it is, so every sequence is a run and all theorems about schedules are about all interleavings. A field named
`admitted`, `returned`, `taken`, `requested` or `history` is written by the steps and never read by them; it exists to
state theorems.
The step functions (`ClientStep`, `ServerStep`, `SenderStep`, `ReceiverStep`, `Step`) follow the C functions line by
line; beside them stands a class that makes the same steps in place, each method proved equal to its step function, and
a method `Run` that executes a schedule and whose contract states the main theorems on the fields.

## What the code does that its comments do not say

- `db_buy_ticket` keeps its lock when it refuses (`src/database.c:107-113`). The lock is free afterwards exactly when
  a ticket was sold (`Database.Database.BuyFrom`, `SharedDatabase.LockKeptIff`); uniqueness survives all the same. Other
  processes may wait for ever. Everybody gets through exactly when no process's last call is a purchase that can find
  its movie missing or sold out while another process has a call left (`SharedDatabaseDemand.FinishesIff`); whatever the
  database holds, exactly when at most one process makes calls or nobody's last call is a purchase
  (`SharedDatabaseProgress.AlwaysFinishesIff`, and a smallest case in `SharedDatabaseProgress.LookupLeftWaiting`).
  A later lookup of its own makes a process let other lookups in (`SharedDatabase.LookupLetsIn`).
- `res_movie_list` copies the table without the lock (`src/actions.c:66-79`): a copy can catch one row in the middle of a
  purchase (`SharedDatabase.ListingTornIff`).
- Looking up ticket 0 finds a movie with an unsold slot (`Movies.FindZero`).
- A request of unknown type leaves the four-semaphore baton at SERVER_WRITE for ever, so runs finish exactly when no
  such request is sent (`TicketSystem.EveryRunFinishesIff`). Over pipes it holds up only the client that sent it
  (`TicketMailboxes.PipeClientFinishesIff`).
- The comment at `src/ipc/shmem.c:132` holds for requests. A response can be overwritten by another client's request
  before it is read; what clients receive is right in every run exactly when at most one client asks anything, or when
  nobody's first request is answered at all (`ThreeSemaphoresProofs.ResponsesFaithfulIff`; `Overtaken` and `Torn` there
  are runs in which a client gets another's request, whole or mixed with its own response). Every request still gets
  some response exactly when all are of known type (`TicketSystem.ThreeSemaphoresFinishIff`).
- A send that lands during a receive of the file transport destroys the inbox
  (`FileInbox.UndisturbedIff`, `src/ipc/filesig.c:157-183`): everybody is served in every run exactly when at most one
  client asks anything (`TicketMailboxes.FilesServeIff`; `FileServer.Lost` is the run in which a request is lost). In
  runs in which no send lands so, everybody is served, whatever the number of clients
  (`TicketMailboxes.UndisturbedFinishesIff`), and no response lands in a client's receive either.
- A listing of more than 230 movies does not fit its 16-bit length (`Wire.ResponseRoundTripIff`).
- A message-queue process whose truncated identifier is 0 receives other processes' messages
  (`MessageQueue.OthersUntouchedIff`), and a message too long for the receiver's buffer blocks its recipient's messages
  for ever (`MessageQueue.OverLongJams`). So a listing of more than 36 movies is never received
  (`TicketMailboxes.LoneListingIff`), and a request that is too long stops the server for everybody
  (`TicketMailboxes.QueueClientFinishesIff`).
- The select loop decides whether there is room before it removes the clients that hung up in the same round
  (`ClientTable.TurnedAwayTooEarlyIff`).
- The comment at `src/ipc/shmsystemv.c:107` says four zeros; `init_mutex` sets 1, 0, 0, 0, and the model follows it.

## Assumptions

- Semaphores are naturals, pipes and files byte sequences, locks a state per process. Semaphores start as
  `init_mutex`, `semget` or `ipc_create` leaves them; no process of an earlier run interferes.
- A client's identifier differs from the server's, as the branches in the transports presuppose. Identifiers of
  clients may coincide except where a theorem says otherwise (`Fifo.EachSenderInOrder`, and the servers with mailboxes).
- A request is of known type when its first byte is; the handlers do not look at its length. Behind a content that is
  too short for its type they read what the buffer holds; the model reads zeros (`Wire.Looked`).
- A `memcpy` is one step. A pipe read blocks until the requested bytes are there. The bytes of one file send arrive as
  one append, which happens at `fclose` and hence outside the sender's lock.
- The slot of shared memory can hold any content, up to 65535 bytes.
- Words are stored low byte first, on one machine, with the usual alignment of structures.

## Model

| member | source | states |
|---|---|---|
| Movies.FindIsLastHolder | src/database.c:129-144 | The nested scan returns the last movie that holds the ticket, and nothing when none does, for any table contents. |
| Movies.FindIsDecode | src/database.c:129-144 | For every ticket but 0 the scan equals the arithmetic decode, and its match is the only one. |
| Movies.FindZero | src/database.c:129-144 | Looking up 0 finds the last movie with an unsold slot. |
| Movies.FindSucceedsIff | src/database.c:129-144 | A lookup succeeds exactly for sold tickets, or for 0 while something is unsold. |
| Movies.MovieInitHolds | src/database.c:14-20 | Byte for byte: the name field holds the name and the time field the time, each cut at 100 bytes or with zeros behind it; twenty tickets remain and all twenty slots are 0. |
| Movies.FreshIsNumbered | src/database.c:14-20 | Movies from `movie_init` satisfy the database invariant with nothing sold. |
| Movies.BuyEffect | src/database.c:104-126 | A purchase keeps the invariant, touches one movie, and sells a number that resolved to nothing before and to its movie afterwards; each error code has its exact cause and changes nothing. |
| Sales.RunInvariant | src/database.c:104-144 | Slot k of movie i holds its own number when sold and 0 otherwise, after any sequence of requests. |
| Sales.RunKeepsTickets | src/database.c:129-144 | A ticket that resolves keeps resolving to the same movie, whatever is requested later. |
| Sales.IssuedTicket | src/database.c:115-126 | A sold ticket is new when issued, positive, at most 1310700, and found at the end of the run. |
| Sales.TicketsDistinct | src/database.c:115-126 | No two purchases of a run get the same ticket. |
| Sales.Conservation | src/database.c:104-126 | Remaining tickets plus successful purchases is constant over any run. |
| Sales.SoldOnDemand | src/database.c:112-122 | Each movie sells as often as it is asked for, up to twenty tickets. |
| Sales.FreshSales | src/database.c:14-20 | From freshly initialised movies, remaining plus sold is twenty times the count, and each movie sells the smaller of twenty and its attempts. |
| Database.Database.constructor | src/database.c:14-20 | The arrays start with each name and each time byte for byte in its own field, twenty tickets and empty slots for every movie; no lock is held. |
| Database.Database.BuyTicket | src/database.c:104-126 | In place: result and new contents are those of `Buy`; the write lock is requested, and released exactly on success. |
| Database.Database.GetTicket | src/database.c:129-144 | The two loops compute `Find` and change nothing; the read lock is requested and released. |
| Database.Database.BuyFrom | src/database.c:104-126 | After a purchase the file is unlocked exactly when the movie existed and had a ticket, and then the ticket is new and resolves. |
| SharedDatabase.StepLocked | src/database.c:60-90 | Every step keeps the locks exclusive and in agreement with each process's place in the code. |
| SharedDatabase.ReturnIsSequential | src/database.c:104-144 | A call returns the result that the committed database gives, and leaves the memory that the sequential call leaves. |
| SharedDatabase.Serializable | src/database.c:104-144 | Every interleaving of any number of processes gives each the results of a sequential run in the order of returning, in its own program order. |
| SharedDatabase.NoTicketTwice | src/database.c:104-126 | No two purchases by any processes return the same ticket. |
| SharedDatabase.LookupSeesWholePurchases | src/database.c:129-144 | A lookup answers from a database between complete purchases. |
| SharedDatabase.ReturnKeepsLockIff | src/database.c:104-126 | A return keeps the lock exactly when the call was a purchase that the committed database turns down: no such movie, or sold out. |
| SharedDatabase.LockKeptIff | src/database.c:104-126 | Outside the functions a process holds a lock exactly when its last call was a purchase turned down by the database that the calls returned before it leave. |
| SharedDatabase.LookupStartsIff | src/database.c:72-77 | In every run a lookup can start exactly when no other process is inside a purchase and none sits on the lock of a purchase that was turned down; lookups never wait for lookups. |
| SharedDatabase.PurchaseStartsIff | src/database.c:76-78 | In every run a purchase can start exactly when all other processes are outside the functions and none sits on a lock. |
| SharedDatabase.LookupsTogether | src/database.c:129-130 | From any start with movies, as many processes as there are can be inside the scan at once. |
| SharedDatabase.LookupLetsIn | src/database.c:60-74 | A process that sits on the write lock keeps others' lookups out until its own next lookup, which lets them in. |
| SharedDatabase.HolderNeverWaits | src/database.c:60-70 | A lock holder's next request is always granted, so no cycle of waiting processes can form. |
| SharedDatabase.NoFault | src/database.c:110-140 | No reachable step accesses a slot outside the arrays or decrements an empty counter. |
| SharedDatabase.StandsStillIff | src/database.c:104-113 | Processes stand still exactly when all calls have returned, or one with nothing left to do sits on the write lock. |
| SharedDatabase.ListingTornIff | src/actions.c:66-79 | At any moment of any run a row of the table is torn exactly while a process is between the two writes of a purchase of that movie, at most one is, and every other row is a committed one or that of a completed purchase. |
| SharedDatabaseProgress.AlwaysFinishesIff | src/database.c:104-113 | Whatever the database holds, every run that can go no further has returned from all calls, if and only if at most one process makes calls or no process's last call is a purchase. |
| SharedDatabaseProgress.LookupLeftWaiting | src/database.c:107-108 | The smallest run in which a call never returns: a refused purchase, then another process's lookup. |
| SharedDatabaseProgress.StepWorks | src/database.c:104-144 | Every step uses up exactly one unit of a finite amount of work; a refusal uses up more. |
| SharedDatabaseProgress.RunsEnd | src/database.c:104-144 | Every run can be continued to one that stands still. |
| SharedDatabaseDemand.FinishesIff | src/database.c:104-126 | For given lists and a given database, every run that can go no further has returned from all calls, if and only if no process's last call is a purchase that can find its movie missing or, from the stock and all attempts that can come first, sold out, while another process has a call left. |
| Wire.MovieRoundTrip | inc/database.h:19-25 | A movie structure reads back from its 284 bytes. |
| Wire.RequestBytes | src/exe/server.c:57-70 | The server's reading in numbers: byte 1 lists, byte 2 buys the movie in bytes 2 and 3, byte 3 looks up the signed word in bytes 4 to 7, low byte first, whatever stands in the padding and behind. |
| Wire.RequestWritten | src/actions.c:58-135 | What a client sends, in numbers: type, movie number and ticket at their offsets. |
| Wire.ResponseWritten | src/actions.c:66-151 | What the server sends, in numbers: types 1, 2, 3 and 59; count, ticket and code at their offsets; movies from byte 4 or 8, each with name at 0, time at 100, counter at 200 and tickets from 204. |
| Wire.ResponseBytes | inc/actions.h:42-73 | What a client reads of a sale and of an error, in numbers, whatever stands in the padding and behind. |
| Wire.RequestRoundTrip | src/actions.c:58-135 | A request reads back at the server; a movie number keeps its low 16 bits. |
| Wire.ResponseRoundTripIff | src/actions.c:66-151 | A response reads back at the client exactly when it is not a listing of more than 230 movies. |
| TicketService.AnswersTruthfully | src/actions.c:66-151 | What each response says about the database, with the exact cause of each refusal; a lookup of ticket 0 names the last movie that has an unsold slot. |
| TicketService.AskedAndAnswered | src/actions.c:58-151 | Whatever a client asks for is answered; what it reads is the answer to what arrived, the movie number to buy cut to 16 bits, exactly when that is no listing of more than 230 movies. |
| TicketService.ReplayIsRun | src/exe/server.c:54-77 | Serving bytes one by one drives the database as the decoded requests do. |
| TicketService.SoldMeansBought | src/actions.c:103-116 | In any sequential run a response that reads as a ticket comes from the one request that bought that ticket. |
| TicketService.RepliesNeverShareTickets | src/actions.c:103-116 | No two responses of a sequential run carry the same ticket, whatever else is in the run. |
| Service.RepliesCount | src/exe/server.c:54-77 | At most one reply per request, and one each exactly when none met silence. |
| Service.ClientHeardIff | src/exe/server.c:54-77 | A client has a reply for each of its requests exactly when none of its own met silence. |
| Service.HeardReplays | src/exe/server.c:72-73 | A run is the run of its answered requests alone. |
| Service.ReplayAt | src/exe/server.c:54-77 | Each reply answers one request of the log, from the state that the requests before it leave, goes to that request's client, and comes after exactly their replies. |
| Service.ClientReplyAt | src/exe/server.c:54-77 | A client's k-th reply answers one of its own requests, its k-th when none of them met silence. |
| Service.RepliesMatchRequests | src/exe/client.c:22-54 | When all are answered each client has as many replies as requests. |
| FourSemaphoresSystem.System.constructor | src/ipc/shmposix.c:97-110 | The POSIX initial state with four zeros and a server before its first post, or the System V initial state with CLIENT_WRITE at one, as the flag says. |
| FourSemaphoresSystem.System.Dec | src/ipc/shmsystemv.c:64-75 | Takes one from the named semaphore and touches no other. |
| FourSemaphoresSystem.System.Inc | src/ipc/shmsystemv.c:77-89 | Adds one to the named semaphore and touches no other. |
| FourSemaphoresSystem.System.Run | src/ipc/shmsystemv.c:166-204 | Any schedule executed in place from a start state: what the clients hold and the server's state are those of a sequential run of the requests answered so far, requests enter it in each client's order, and steps taken plus work left is constant. |
| FourSemaphoresProofs.ClientStepKeeps | src/ipc/shmsystemv.c:166-204 | Every step of any client keeps the invariant on baton, slot contents and books. |
| FourSemaphoresProofs.ServerStepKeeps | src/ipc/shmsystemv.c:166-204 | So does every step of the server. |
| FourSemaphoresProofs.AfterInv | src/ipc/shmposix.c:97-110 | The invariant holds in every reachable state, from either initial state. |
| FourSemaphoresProofs.Linearizability | src/ipc/shmsystemv.c:166-204 | In every interleaving, what clients have received and the server's state are those of a sequential run in the order of passing `dec(CLIENT_WRITE)`, which keeps each client's own order. |
| FourSemaphoresProofs.NthResponse | src/ipc/shmsystemv.c:180-204 | A client's k-th response answers the k-th request of its list, from the state that exactly the requests admitted before it leave. |
| FourSemaphoresProofs.ResponseMatching | src/ipc/shmsystemv.c:186-203 | A client leaving `ipc_recv` holds exactly sender, length and content of the answer to its own latest request. |
| FourSemaphoresProofs.BatonConservation | src/ipc/shmsystemv.c:64-89 | The four semaphores plus the processes inside a copy region always add up to one, from both initial states. |
| FourSemaphoresProofs.OneOutstanding | src/ipc/shmsystemv.c:166-204 | At most one client is between its request and the end of its reply. |
| FourSemaphoresProofs.BlockedIff | src/ipc/shmsystemv.c:166-204 | Nothing can move exactly when everything is answered or a request was dropped; a drop means that the server was silent. |
| FourSemaphoresProofs.RunLength | src/ipc/shmsystemv.c:166-204 | Every step taken uses up exactly one unit of a finite amount of work. |
| FourSemaphoresProofs.TwentyOneStepsEach | src/ipc/shmsystemv.c:166-204 | A finished run took 21 steps per request, and one more for the POSIX start. |
| FourSemaphoresProofs.RunsEnd | src/ipc/shmsystemv.c:166-204 | Every run can be continued to one where nothing moves. |
| TicketSystem.NoTicketSoldTwice | src/actions.c:103-116 | No two responses received anywhere in the system sell the same ticket. |
| TicketSystem.ClientReads | src/exe/client.c:52-75 | A client's k-th response is the answer to its k-th request, and is read back as meant exactly when it is no listing of more than 230 movies. |
| TicketSystem.EveryRunFinishesIff | src/exe/server.c:54-77 | All runs end with everything answered exactly when all requests are of known type. |
| TicketSystem.DatabaseAlwaysNumbered | src/database.c:104-126 | The database invariant holds in every reachable state of the system. |
| TicketSystem.ClientGetsWhatItAsks | src/exe/client.c:33-75 | From the request a user means to the response its client reads: the k-th response is the answer of the database, after exactly the requests admitted before as their users meant them, to the k-th request. |
| TicketSystem.AskingAlwaysFinishes | src/exe/client.c:33-53 | Clients that ask only what the menu offers always get all their responses. |
| TicketSystem.ThreeSemaphoresServeOneClient | src/ipc/shmem.c:106-140 | Over three semaphores, what clients receive is right in every run exactly when at most one client asks anything, or every list starts with a request of unknown type. |
| TicketSystem.ThreeSemaphoresFinishIff | src/ipc/shmem.c:106-140 | Over three semaphores, every run ends with a response for every request exactly when all requests are of known type. |
| ThreeSemaphoresProofs.RequestTokens | src/ipc/shmem.c:106-131 | CLIENT_CAN_WRITE, writing clients, SERVER_CAN_READ and a server that is not waiting always add up to one, for any number of clients. |
| ThreeSemaphoresProofs.RequestsInOrder | src/ipc/shmem.c:106-131 | For any number of clients, requests are served whole, once each, in the order of admission. |
| ThreeSemaphoresProofs.SingleClientResponses | src/ipc/shmem.c:121-140 | A single client gets the answers to its own requests in order, and what it copies is the whole answer to the latest one. |
| ThreeSemaphoresProofs.SingleClientSlotIsStable | src/ipc/shmem.c:118-137 | With a single client nothing is written to the slot between the emit of its response and its copy. |
| ThreeSemaphoresProofs.Overtaken | src/ipc/shmem.c:121-140 | With two clients there is a run in which one receives the other's request as its response. |
| ThreeSemaphoresProofs.Torn | src/ipc/shmem.c:121-140 | With two clients there is a run in which one receives the header and the bytes of the other's request, cut or continued with what is left of its own response. |
| ThreeSemaphoresProofs.ResponsesFaithfulIff | src/ipc/shmem.c:106-140 | Each client has in every run a prefix of what the sequential run sends it, if and only if at most one client has anything to ask or nobody's first request is answered. |
| ThreeSemaphoresProgress.AfterTally | src/ipc/shmem.c:106-140 | Waiting clients are always as many as ready responses, requests on their way or being served, and requests that met silence; each client has one response per request, but for the one it is busy with. |
| ThreeSemaphoresProgress.BlockedIff | src/ipc/shmem.c:106-140 | Nothing can move exactly when all is finished, each client with as many responses as requests, or when clients starve, as many as requests met silence. |
| ThreeSemaphoresProgress.RunLength | src/ipc/shmem.c:106-140 | Steps taken, work left and four steps for each silence always add up to 17 per request and one. |
| ThreeSemaphoresProgress.RunsEnd | src/ipc/shmem.c:106-140 | Every run can be continued to one where nothing moves. |
| ThreeSemaphoresSystem.System.Run | src/ipc/shmem.c:106-140 | Any schedule executed in place from the start state: the server's state is that of the dispatched requests in order of admission, requests and responses of each client match in number, and for a single asking client in content. |
| Mailbox.QueueInOrder | src/ipc/fifo.c:124-168 | A queue's taken messages followed by the pending ones are the posted ones, in order. |
| Mailbox.NothingLost | src/ipc/filesig.c:120-189 | Under either discipline, taken and pending messages together are the posted ones. |
| Fifo.HeaderIsOldest | src/ipc/fifo.c:150-163 | With a header read, the oldest pending message is its message, and the next read takes its content and leaves the frames of the rest. |
| Fifo.AfterInv | src/ipc/fifo.c:124-168 | Bytes read of the current frame, bytes in the pipe and bytes still to be written are always the frames of the pending messages. |
| Fifo.RefinesQueue | src/ipc/fifo.c:124-168 | All interleavings of three writes and three reads refine a queue in the order of lock acquisition. |
| Fifo.BlockedIff | src/ipc/fifo.c:39-59 | Nothing can move exactly when all is sent and all that was sent is received. |
| Fifo.EightStepsEach | src/ipc/fifo.c:124-168 | Nothing can move exactly after eight steps for each message. |
| Fifo.RunsEnd | src/ipc/fifo.c:124-168 | Every run can be continued to one where all has been sent and received. |
| Fifo.EachSenderInOrder | src/ipc/fifo.c:124-141 | The receiver gets from each sender a prefix of its list, in order, and all of it once nothing moves. |
| Fifo.Inbox.Run | src/ipc/fifo.c:124-168 | Any schedule executed in place from an empty inbox: received followed by pending is what was posted, and each sender's messages are a prefix of its list. |
| FileInbox.Inbox.Append | src/ipc/filesig.c:120-145 | The file stays the frames of the pending messages, with the new one last. |
| FileInbox.Inbox.Take | src/ipc/filesig.c:147-189 | Takes the newest message exactly, leaves precisely the frames of the others, and waits exactly when there is none. |
| FileInbox.Inbox.Run | src/ipc/filesig.c:120-189 | Any script of sends and receives on the bytes of the file receives exactly what it receives on a stack of messages, and leaves the frames of what that leaves. |
| FileInbox.StackRunLosesNothing | src/ipc/filesig.c:120-189 | Over any such script, what was there and what was sent is what is received and what stays. |
| FileInbox.UndisturbedIff | src/ipc/filesig.c:156-183 | With sends landing during a receive, the other messages survive if and only if none landed; the message taken is sound unless one landed between header and content. |
| MessageQueue.TakeIsOwnQueue | src/ipc/mqueues.c:61-71 | A receive is the queue operation on the recipient's own messages; an over-long one is refused and stays. |
| MessageQueue.OthersUntouchedIff | src/ipc/mqueues.c:61-71 | A receive leaves every other recipient's messages alone exactly when the identifier is not 0 or nothing is taken. |
| MessageQueue.SharedQueue.Send | src/ipc/mqueues.c:47-59 | Appends for the recipient, keeps all boxes queues of their own, and fails exactly for recipient 0. |
| MessageQueue.EachBoxInOrder | src/ipc/mqueues.c:47-71 | For any sends and receives by any processes, the messages delivered out of a recipient's box followed by those left in it are those that were in it and those sent to it, in order. |
| MessageQueue.EachProcessInOrder | src/ipc/mqueues.c:61-71 | Unless a process with identifier 0 receives, each process receives its own messages, in order. |
| MessageQueue.DeliveriesAreOwn | src/ipc/mqueues.c:61-71 | Every delivery goes to the message's recipient or to identifier 0, and none is too long. |
| MessageQueue.OverLongJams | src/ipc/mqueues.c:61-71 | Once an over-long message heads a box, nothing is delivered out of it, whatever anyone does. |
| MessageQueue.DrainedIff | src/ipc/mqueues.c:61-71 | As many receives as there are messages empty a box exactly when none of them is too long. |
| MessageQueue.SharedQueue.Receive | src/ipc/mqueues.c:61-71 | The search in place removes the item that the specification selects, and all boxes stay queues of their own. |
| MessageQueue.SharedQueue.Run | src/ipc/mqueues.c:47-71 | Any script of sends and receives in place delivers what it delivers on values, and every recipient's messages stay in order. |
| MailboxServer.InboxesKeepDiscipline | src/ipc/fifo.c:124-168 | In every run each mailbox holds what its own history of posts and takes leaves of its discipline, queue or stack, and its owner has received what was taken; received and waiting together are posted, and with queues received followed by waiting is posted, in order. |
| MailboxServer.Linearizability | src/exe/server.c:54-77 | With one queue or stack per process each client's responses are those of a sequential run in the server's order of taking requests, all but at most the last, and its requests enter that run in its own order. |
| MailboxServer.FinishedIff | src/exe/server.c:54-77 | When nothing can move, a client has all its responses exactly when none of its own requests met silence, none waits at the server and no response waits for it; what waits is behind a message that is too long to be received. |
| MailboxServer.RunsEnd | src/exe/server.c:54-77 | Every run can be continued to one where nothing moves. |
| MailboxServer.JamRun | src/ipc/mqueues.c:61-71 | With queues, a client served alone up to a request that is too long leads to a run in which the server never takes another. |
| PipeServer.AfterRefines | src/ipc/fifo.c:124-168 | Every run of server and clients on pipes, each acquire, write, read and release a step, is a run on one queue per process. |
| PipeServer.BlockedRefines | src/ipc/fifo.c:124-168 | Nothing moves on the pipes only when nothing moves on the queues. |
| PipeServer.Linearizability | src/ipc/fifo.c:124-168 | So over pipes responses and state are those of a sequential run in the server's order of taking requests. |
| PipeServer.RunsEnd | src/ipc/fifo.c:124-168 | Every run on pipes can be continued to one where nothing moves. |
| QueueServer.AfterRefines | src/ipc/mqueues.c:47-71 | Every run of server and clients on one shared message queue is, step by step, the same run on one queue per process with the receiver's limit. |
| QueueServer.Linearizability | src/ipc/mqueues.c:47-71 | So over the message queue responses and state are those of a sequential run in the server's order of taking requests. |
| FileServer.FilesAreStacks | src/ipc/filesig.c:120-189 | For any number of clients, in every run in which no send lands between the server's size sample and its truncation, each file, the server's and the clients', is the frames of what a stack leaves of what was posted to it and taken from it, a receive under way is at the newest, and nothing is lost. |
| FileServer.AfterRefines | src/ipc/filesig.c:120-189 | Every such run, read by read, is a run on one stack per process. |
| FileServer.EnabledRefines | src/ipc/filesig.c:156-158 | While the files are stacks a process can move on them exactly when it can move on the stacks. |
| FileServer.Linearizability | src/exe/server.c:54-77 | In such a run each client's responses are those of a sequential run in the server's order of taking requests, all but at most the last, and its requests enter that run in its own order. |
| FileServer.FinishedIff | src/exe/server.c:54-77 | When nothing can move at the end of such a run, a client has all its responses exactly when none of its own requests met silence. |
| FileServer.UndisturbedRunsEnd | src/ipc/filesig.c:120-189 | Every such run can be continued to one, again such, where nothing moves. |
| FileServer.AloneIsUndisturbed | src/ipc/filesig.c:156-183 | With one asking client every run is such a run, and the other clients do not move. |
| FileServer.AloneIsServed | src/ipc/filesig.c:120-189 | A client that alone asks anything receives, in order, the responses of a sequential run of its requests, and all of them unless one met silence. |
| FileServer.Lost | src/ipc/filesig.c:156-183 | With two asking clients there is a run in which one's request, landing before the truncation, is gone. |
| FileServer.EveryRunServesIff | src/ipc/filesig.c:120-189 | Over inbox files every run gives everybody the responses of the sequential run, and all of them, if and only if at most one client asks and none of its requests meets silence. |
| FileServer.RunsEnd | src/ipc/filesig.c:120-189 | Every run with one asking client can be continued to one where nothing moves. |
| TicketMailboxes.NoTicketSoldTwice | src/actions.c:103-116 | With one queue per process no two responses received by any clients sell the same ticket. |
| TicketMailboxes.FinishesIff | src/exe/server.c:54-77 | With one queue per process and a limit for receives, a client gets all its responses in every run exactly when it asks nothing, or all its requests are of known type, fit, and have responses that fit, and no list brings a request that does not fit before the server. |
| TicketMailboxes.PipesNeverShareTickets | src/ipc/fifo.c:124-168 | Over pipes, byte for byte, no two received responses sell the same ticket. |
| TicketMailboxes.PipeClientFinishesIff | src/ipc/fifo.c:124-168 | Over pipes, byte for byte, a client gets all its responses in every run exactly when all requests of its own list are of known type. |
| TicketMailboxes.QueueNeverSharesTickets | src/ipc/mqueues.c:47-71 | Over the message queue no two received responses sell the same ticket. |
| TicketMailboxes.QueueClientFinishesIff | src/ipc/mqueues.c:47-71 | Over the message queue a client gets all its responses in every run exactly when it asks nothing, or all its requests and their responses fit the buffer and are of known type, and no list brings a request that does not fit before the server. |
| TicketMailboxes.LoneListingIff | src/ipc/mqueues.c:61-71 | A client that asks for the list alone gets it over the message queue exactly when there are at most 36 movies. |
| TicketMailboxes.FilesServeIff | src/ipc/filesig.c:120-189 | Over inbox files everybody is served rightly in every run exactly when at most one client asks anything and all its requests are of known type. |
| TicketMailboxes.FilesNeverShareTickets | src/ipc/filesig.c:120-189 | Over inbox files, in a run in which no send lands in a receive, no two received responses sell the same ticket. |
| TicketMailboxes.UndisturbedFinishesIff | src/ipc/filesig.c:120-189 | Over inbox files, with any number of clients, a client gets all its responses in every run in which no send lands in a receive exactly when all requests of its own list are of known type. |
| ClientTable.TableIsConnected | src/ipc/socket/socketsrv.c:126-166 | Over whole runs the live table is the admitted clients that have not hung up, in the order of acceptance, and never more than nine. |
| ClientTable.BecomesClientIff | src/ipc/socket/socketsrv.c:57-68 | A successful accept becomes a client exactly when fewer than nine were connected at the head of its round. |
| ClientTable.NineFit | src/ipc/socket/socketsrv.c:57-68 | Of any number of connections in a row with no hang-up the table keeps the first nine. |
| ClientTable.TurnedAwayTooEarlyIff | src/ipc/socket/socketsrv.c:126-165 | A client is turned away although fewer than nine remain after the round exactly when the table was full at its head and someone hung up during it. |
| ClientTable.Table.MaxDescriptor | src/ipc/socket/socketsrv.c:25-40 | The largest descriptor, or 0 for an empty table. |
| ClientTable.Table.Reorganize | src/ipc/socket/socketsrv.c:70-88 | Compaction in place is the stable filter of live descriptors; cells behind the new end do not change. |
| ClientTable.Table.NewClient | src/ipc/socket/socketsrv.c:57-68 | Appends while fewer than nine are in the table, and turns the tenth away. |
| ClientTable.Table.Serve | src/ipc/socket/socketsrv.c:126-165 | One round of the loop; the bound given to `select` covers the listener and every polled client. |
| ClientTable.Table.Loop | src/ipc/socket/socketsrv.c:126-166 | From the empty table, any number of rounds keeps the table at the connected clients. |

## Left out

- Setting up and tearing down semaphores, segments, pipes, sockets and mappings, signal handlers, `sleep` and `exit`: foreign calls.
- Crashes, signal interruption, lost wake-ups of `pause`, short reads and full pipes: the code does not handle them.
- `SharedDatabase` has purchases and lookups as steps; a listing is the table at one moment, as a `memcpy` is one step (`SharedDatabase.ListingTornIff`). With one server process a listing is exact (`TicketSystem.ClientReads`).
- The release of record locks when a process ends or closes the file.
- `db_find`, `src/fixtures.c`, `src/exe/reset.c` and `src/utils.c`: not used by the server, or reading and printing of text. The initial database is any list of `movie_init` values.
- The `han_*` printing functions and the argument parsing of `src/exe/client.c`: user interface.
- `src/ipc/sockets.c`, `src/ipc/socket/socket.c` and `src/ipc/socket/socketcli.c`: thin wrappers over the socket interface. `ClientTable` takes arrivals and hang-ups as given.
- `src/ipc/Pipes` and `src/ipc/socket/socketsrv.c~`: abandoned or duplicate versions.
- The interleaved steps of `SharedDatabase` are on values; updating the arrays in place is in `Database`, one process at a time.
- Kernel limits on message queues; the receiver's own buffer limit is modelled.
- `PipeServer`, `QueueServer` and `FileServer` are on values; one inbox or queue changed in place is in the classes of `Fifo`, `FileInbox` and `MessageQueue`.
- What `FileServer` does after a truncation has left less than a frame: there a reader that finds too few bytes stops.
- SharedDatabase.Serializable: orders calls by their return; real-time order of overlapping lookups is not stated beyond that.
