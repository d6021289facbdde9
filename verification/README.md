# Verified model of MT-HVAC

MT-HVAC is a distributed read-through cache. A preloaded client library intercepts `open`,
`read`, `pread` and `close`; each tracked file is also opened on the server its path hashes to;
reads go to that server, and fall back to the real call when the remote side answers -1. A
server redirects opens to a node-local copy once its data mover has made one; a file is queued
for copying when a client closes it.

The project models that as interacting state machines and proves that the application sees an
ordinary file system, that server descriptors, queue entries and heap blocks are conserved, and
where exactly those statements stop being true of the code.

## How it is built

- `Files`, `Posix`: file contents, the meaning of `read`, `pread` and `lseek` (POSIX.1-2017,
  System Interfaces, section 3) and the simple specification: a map from (client, fd) to a path
  and two cursors over immutable contents, one for each side that can serve a read.
- `Server`, `ServerRuns`: one server process, its RPC handlers interleaved with its mover
  thread, with a history of what happened. The close handler's cache test and its push are two
  steps; so are creating, filling, completing and publishing a copy.
- `FdTables`, `Protocol`: the client's four maps and the whole job: any number of clients,
  servers, threads and messages. Each action is one atomic step of one thread; messages are
  delivered at most once and in any order. Open failure, failed sends of open, read and close,
  wait timeouts, short reads and copy failures are actions like any other.
- `ProtocolInv`, `ProtocolFrame`, `ProtocolSteps`, `ProtocolServed`, `Runs`: the inductive
  invariant of the job and its preservation by every action.
- `Transparency`, `Effects`: forward simulation of the job by the simple file system, and
  linearization: a remote read or seek takes effect at the server's handler, once.
- `Settling`, `Fallback`, `Streams`, `Conforming`: what the status of an fd can be, what reads at
  two cursors deliver, and when sequences of `read` calls in runs of the job deliver the file.
- `Resources`, `Progress`: ownership of server fds, delivery under reordering, leaks, map
  discipline, the status machine, routing; and that nobody is ever stuck.
- `Rendezvous`: sync contexts and state blocks with reuse of addresses.
- `Witnesses`: complete runs of the job in which it is not a plain file system.
- `ServerProcess`, `ClientProcess`, `Waiting`, `AddressFile`: the program's imperative code as
  classes and loops: handlers, the `read` and `pread` wrappers down to the handlers, the bounded
  wait on a status object, the mover's loops, the address lookup. `ClientRuns` shows that the
  client's code paths are runs of the job's steps.

## Assumptions

- A tracked file is not written while it is tracked or cached. Files opened `O_RDWR` are tracked
  (src/mthvac_client.cpp:112-118), so this is a real hypothesis.
- Handlers of one server run one at a time on its progress thread (src/mthvac_comm.cpp:102-116).
- Individual map operations are atomic.
- The application does not close an fd with an operation in flight, closes tracked fds through
  the wrapper, and does not `lseek` a tracked fd locally.
- Counts lie in 1..2^31-1, `pread` offsets are at least 0, and seek results fit 32 bits.
- Server reads on an open fd do not fail. A seek request can always be sent; the code asserts it.
- Sending a close message and erasing the mapping form one step.
- The job has at least one server; originals and node-local copies have different paths;
  `mkdtemp` gives a directory in which nothing lives yet.
- A returned fd was not open before. Nothing else is assumed about fd numbers.

## Where the code falls short

- Sequential `read`: each side keeps its own cursor and they never learn of each other. Over all
  runs, a handle that no seek reached since its open gets its file from the start and in order if and only if one
  of its two cursors has not moved; otherwise it gets the first byte twice
  (`Streams.InOrderIffOneCursorMoved`). For applications that use an fd only after its open has
  returned this comes down to one cause: some bytes were served, and some others were read
  locally because a request could not be sent (`Conforming.InOrderIffNotSentAndServed`, run in
  `Witnesses.UnsentReadRepeats`). When the open failed, or every request tried could be sent, the
  stream is right.
- The wait for READY has a timeout that such an application never meets: `open` returns only
  after the status is final (`Settling.NobodyWaitsOnceOpened`). For a thread that reads an fd
  before its open has returned, what holds is the general condition
  (`Streams.InOrderIffOneCursorMoved`).
- `hvac_remote_lseek` looks at neither the status nor the mapping: without a positive mapping its
  request names the server's fd 0 (`Resources.SeekReachesIffMapped` says exactly when,
  `Witnesses.SeekOnFailedOpenMisses` gives a run).
- `pread` at offset -1, which POSIX refuses, is taken for `read` on a mapped fd
  (`Transparency.PreadIsReadIffSentinel`, run in `Witnesses.PreadAtMinusOneReads`; on the server,
  `ServerRuns.CursorMovesIffSentinel`).
- A file whose remote open failed stays in `fd_map`, although `hvac_track_file` reports it as not
  tracked. Its reads then fall back one by one, which is harmless.
- Remote fd 0 counts as a failed open and is never closed; a close message that cannot be sent
  leaks its fd. These are the only leaks, and each of them lasts (`Resources.LeakFreeIff`, run in
  `Witnesses.UnsentCloseLeaks`).
- `hvac_remote_pread` and `hvac_remote_lseek` may insert a zero into `fd_redir_map` that outlives
  the fd; it never looks like a mapping.
- An empty address, or one with white space, is not read back from the address file
  (`AddressFile.RoundTripIff`).

## Model

| member | source | states |
|---|---|---|
| Transparency.Transparent | src/wrappers.c:95-370 | Every interleaving of clients, servers, messages and movers is a behaviour of the simple file system: each read, wherever and after whatever failure it is served, hands out what the client's own file holds at the cursor of the side that served it; each pread the slice at its offset; each seek that reached the fd what lseek would return at the remote cursor. |
| Transparency.StepSimulates | src/mthvac_comm.cpp:178-297 | Forward simulation: in every state that satisfies the invariant each action is an event the simple file system accepts, and moves its two cursors accordingly. |
| Transparency.RemoteReadSimulates | src/mthvac_comm.cpp:208-215 | The read handler hands out bytes that a read of the client's own file at the remote cursor may give, whichever copy the fd sits on and whatever was read locally before. |
| Transparency.RemoteSeekSimulates | src/mthvac_comm.cpp:284-297 | A remote seek that named the client's own fd returns what lseek on the original would. |
| Transparency.LocalReadSimulates | src/wrappers.c:282-292 | The fallback read hands out the file at the local cursor, whatever was served remotely before. |
| Transparency.ServedPreadIsTheSlice | src/mthvac_client.cpp:201-220 | A pread served remotely is the original's slice, whatever cursors and copies are around. |
| Transparency.PreadIsReadIffSentinel | src/mthvac_client.cpp:201-220 | On a mapped fd a pread puts the job in the state a read would if and only if its offset is -1. |
| Witnesses.PreadAtMinusOneReads | src/mthvac_comm.cpp:208-215 | A complete run: pread at offset -1 on a READY fd hands the application the next byte of the file and moves the remote cursor. |
| Transparency.LinkedFd | src/mthvac_comm_client.cpp:507-512 | A mapped client fd names a server fd that is open for the client's path, whose content is the original's and whose cursor is the specification's. |
| Posix.AcceptedLaws | src/wrappers.c:263-370 | What that acceptance means, byte by byte: at most count bytes, the file's from the position on, none only at the end of the file; and for a seek that reached the fd the offset, the cursor plus it, or the size plus it, or -1. |
| Files.ReadLaws | src/mthvac_comm.cpp:208-215 | A conforming read is exactly: at most count bytes, at least one before the end of the file, each the file's at its position. |
| Files.SeekLaws | src/mthvac_comm.cpp:284-297 | lseek by 0 tells cursor and size; a target that is not negative is reached and any other refused; a read after it begins there. |
| Runs.StepInv | src/mthvac_comm_client.cpp:359-570 | Every action of any thread of any process keeps the invariant of the whole job. |
| Runs.RunInv | src/mthvac_comm_client.cpp:359-570 | The invariant holds after every run. |
| Effects.TakesEffectOnce | src/mthvac_comm_client.cpp:453-570 | Linearization: an operation that returned began at one step of the run, took effect at one later step and at no other, with the result it returned, and returned at that step or later; and what took effect there is what its call asked for (same fd, count, offset, whence), answered as the simple file system accepts. |
| Settling.StepSettled | src/mthvac_comm_client.cpp:96-125 | Every action keeps: OPENING only while an open that has not settled is under way, a registered fd has a status but for the moments before and after, ERROR means unmapped. |
| Settling.NobodyWaitsOnceOpened | src/mthvac_comm_client.cpp:127-141 | Once the open of an fd has returned, and until close begins, its status is READY or ERROR, so the wait answers at once. |
| Streams.ReadsAtTwoCursors | src/wrappers.c:263-312 | In every run the reads of an fd since its open, if no seek reached it since, replay its own file at two cursors, which are the client's local cursor and the remote one. |
| Streams.InOrderIffOneCursorMoved | src/wrappers.c:282-292 | In every run the file is delivered from its start and in order if and only if one of the two cursors has not moved; for a file whose first byte occurs nowhere else the stream is a prefix of it if and only if that holds. |
| Streams.FailedOpenDeliversTheFile | src/mthvac_client.cpp:161-164 | In every run, when the remote open failed all reads were local and delivered a prefix of the file, and the whole file once a read gave nothing. |
| Streams.ReadingOnDeliversTheFile | src/wrappers.c:263-312 | In every run, reads in order up to one that asked for something and got nothing have delivered exactly the file. |
| Fallback.NothingMoreMeansAll | src/wrappers.c:282-292 | An empty answer to a read that asked for something means that the whole file was delivered. |
| Conforming.InOrderIffNotSentAndServed | src/mthvac_comm_client.cpp:513-522 | When the reads since the fd was opened began only after that open returned, the file is delivered in order unless some bytes were served and others were read locally because HG_Forward failed; and only then. |
| Conforming.AllSentDeliversTheFile | src/mthvac_comm_client.cpp:467-477 | If moreover every request of these reads that was tried could be sent, one side served all reads and they delivered a prefix of the file, and the whole file once a read gave nothing. |
| Witnesses.UnsentReadRepeats | src/mthvac_comm_client.cpp:513-522 | A complete run of a conforming application: open, one served read, one whose request cannot be sent; the file's first byte is delivered twice. |
| Fallback.InOrderIff | src/wrappers.c:282-292 | For any sequence of reads by the two sides the positions delivered are 0, 1, 2, ... if and only if one side delivered nothing. |
| Fallback.StreamIffInOrder | src/wrappers.c:282-292 | Positions in order mean a prefix of the file; otherwise the first byte comes again. |
| Resources.OneHolder | src/mthvac_comm_client.cpp:242-250 | A server fd is open for clients if and only if one of four holders has it (open response under way, a client's positive mapping, close message under way, leaked), and never two. |
| Resources.RequestsNameOpenFds | src/mthvac_comm.cpp:266-268 | However closes are reordered with opens and reads, every read, close and mapped seek request names an fd that is open on the file that client had opened; the server's close assertion cannot fail, and the path it queues is that client's. |
| Resources.ReadsCanBeServed | src/mthvac_comm.cpp:208-215 | A read request that was sent always has a server that can answer it, so no waiting reader is stranded by a closed fd. |
| Progress.NobodyIsStuck | src/mthvac_comm_client.cpp:316-334 | In every reachable state every thread and every message has a step of its own to take, unless the server it waits for is inside a close handler, which then can finish. |
| Progress.CallsCanBegin | src/wrappers.c:95-370 | Whatever the application may call can begin, with any arguments and beside any other operations. |
| Progress.FailuresCanStrike | src/mthvac_comm_client.cpp:417-530 | Every failure is among the runs: failed sends, timeouts, opens refused or answered with any free fd, short reads of any length. |
| Progress.MoversGoOn | src/mthvac_data_mover.cpp:34-67 | Every server's mover has a step in the job at every point of its loop. |
| Resources.NobodyClosesItUnderMe | src/mthvac_comm_client.cpp:373-386 | Until the client closes its fd, no step of anyone unmaps, closes or reuses the server fd behind it. |
| Resources.SeekReachesIffMapped | src/mthvac_comm_client.cpp:554-556 | A seek request carries the caller's offset and whence, and names the client's own server fd if and only if a positive mapping exists; otherwise it names fd 0. |
| Witnesses.SeekOnFailedOpenMisses | src/mthvac_client.cpp:222-238 | A complete run in which a seek request on a tracked fd names server fd 0. |
| Resources.QuiescentServersHoldLeaksOnly | src/mthvac_comm.cpp:266-280 | With all tracked fds closed and nothing in flight, a server's open fds and its non-negative fd_to_path keys are exactly its leaked fds. |
| Resources.LeakFreeIff | src/mthvac_comm_client.cpp:373-389 | At quiescence every server is empty if and only if in the run no close message of a mapped fd failed to leave and no server answered an open with fd 0. |
| Witnesses.UnsentCloseLeaks | src/mthvac_comm_client.cpp:376-382 | A complete run: the close message cannot be sent, all is closed and quiet, and the server still has the fd open. |
| Resources.ClientMaps | src/wrappers.c:228-241 | Keys of fd_state_map and positive keys of fd_redir_map lie within fd_map, whose keys are really open; an fd number handed out anew carries no old state and owns no server fd. |
| Resources.SettlesOnce | src/mthvac_comm_client.cpp:106-125 | A status object leaves OPENING at most once; READY and ERROR stay until it is erased. |
| Resources.ReadyMeansMapped | src/mthvac_comm_client.cpp:467-477 | Without a concurrent close READY implies a positive mapping, and a read that saw READY passes the later mapping check. |
| Resources.OneServerPerPath | src/mthvac_client.cpp:153-158 | Only the server a path hashes to ever opens, queues, copies or maps it. |
| Files.HostLaws | src/mthvac_client.cpp:153-158 | Two paths share a server exactly when their hashes agree modulo the count; a hash below the count is its own server. |
| Resources.RequestsGoToTheHost | src/mthvac_client.cpp:184-243 | Every read, seek and close request is addressed to the server that issued the fd, the one the path hashes to. |
| Rendezvous.EveryWaiterGetsItsOwnAnswer | src/mthvac_comm_client.cpp:209-334 | With any number of operations outstanding and addresses reused: nothing released is touched, nothing is signalled or freed twice; a thread that returned got the value of the one answer the run gave its request, or -1 when it could not be sent and was never answered; each block is freed exactly once. |
| Rendezvous.StepInv | src/mthvac_comm_client.cpp:417-530 | Each step of threads and callbacks keeps contexts and blocks apart and alive as long as someone may use them. |
| Rendezvous.NobodyIsStuck | src/mthvac_comm_client.cpp:316-334 | Every operation that is not over has a step, and any value can be its answer. |
| Rendezvous.NothingLeftBehind | src/mthvac_comm_client.cpp:444-450 | When all threads returned and all callbacks ran, no context or block is left. |
| Server.StepInv | src/mthvac_comm.cpp:235-297 | Every handler and mover step keeps the books: fd_to_path matches the open fds, values are originals of this server, copies are whole, the queue history adds up. |
| Server.SeekMovesOneCursor | src/mthvac_comm.cpp:284-297 | A seek changes one fd's cursor and nothing else. |
| ServerRuns.FdContent | src/mthvac_comm.cpp:243-251 | An open fd reads like the original it was opened for, on the original or on any copy, superseded ones included. |
| ServerRuns.RedirectionIsOneLevel | src/mthvac_comm.cpp:243-251 | Redirecting twice is redirecting once; it ends on a complete copy equal to the original, and no copy is ever queued or cached. |
| ServerRuns.MoverLeavesFdsAlone | src/mthvac_data_mover.cpp:57-65 | No mover step, republication included, changes an open fd or the bytes behind it. |
| ServerRuns.PublishedStaysPublished | src/mthvac_data_mover.cpp:57-59 | Once a path is published every later open of it is redirected to a complete copy. |
| ServerRuns.OpensAreRedirected | src/mthvac_comm.cpp:243-251 | Over every run, an open that succeeds leads to a complete copy, at its start, exactly when a copy of the path was ever published, and to the original otherwise; no other fd changes. |
| ServerRuns.PublishedOpensTheCopy | src/mthvac_data_mover.cpp:57-59 | Once a path is published, every later open of it that succeeds opens a published copy and not the original. |
| ServerRuns.FifoConservation | src/mthvac_data_mover.cpp:34-66 | Items done with, then local_list, then data_queue spell the full history of pushes: nothing lost, duplicated or reordered. |
| ServerRuns.BoundedCopying | src/mthvac_comm.cpp:270-278 | Copy attempts for a path never exceed the close requests whose cache test ran before its first publication. |
| ServerRuns.WorkStep | src/mthvac_data_mover.cpp:47-66 | Every mover step but the wakeup uses up a measure that the handlers do not touch. |
| ServerRuns.MoverTerminates | src/mthvac_data_mover.cpp:34-67 | After a wakeup the mover waits again within a bounded number of its own steps, whatever the handlers do. |
| ServerRuns.MoverNeverStuck | src/mthvac_data_mover.cpp:47-66 | While awake it always has a step. |
| ServerRuns.OnePassRetiresTheQueue | src/mthvac_data_mover.cpp:39-66 | One wakeup up to the next wait publishes or fails everything pushed before it, in order, once; what was pushed since is still queued. |
| ServerProcess.HvacServer.OpenRpcHandler | src/mthvac_comm.cpp:235-256 | The new fd is at the start of the copy when the path is in path_cache_map and of the original when it is not, and reads like the original; fd_to_path gets the original path. |
| ServerProcess.HvacServer.RpcHandler | src/mthvac_comm.cpp:178-230 | The buffer holds the original's bytes at the cursor (offset -1) or at the offset, at least one before the end of the file, and the cursor moves by them in the first case only. |
| ServerProcess.HvacServer.SeekRpcHandler | src/mthvac_comm.cpp:284-297 | On a client's fd the result is lseek's on the original and the cursor goes there unless it is -1; on any other fd nothing of the clients' changes. |
| ServerProcess.HvacServer.CloseRpcHandler | src/mthvac_comm.cpp:258-282 | The handler is cache test, push and erase; the path is queued if and only if it is uncached. |
| ServerProcess.HvacServer.Drain | src/mthvac_data_mover.cpp:35-44 | The drain loop moves the whole shared queue, in order, behind the private one. |
| ServerProcess.HvacServer.CopyOne | src/mthvac_data_mover.cpp:49-65 | One round publishes a complete copy, equal to the original, or nothing, however much of it had been written when it failed; and takes one item off the list. |
| ServerProcess.HvacServer.CopyAll | src/mthvac_data_mover.cpp:47-67 | The copy loop is a run of mover steps that empties local_list; every item whose copy succeeded is mapped, and no mapping is lost. |
| Waiting.Deadline | src/mthvac_comm_client.cpp:142-149 | The deadline lies exactly timeout_ms after now and has its nanoseconds in [0, 10^9). |
| Waiting.WaitFdReady | src/mthvac_comm_client.cpp:127-163 | True exactly on READY at entry or at the first wakeup that ends the wait without a timeout; a timeout is never early; no status object means false. |
| ClientProcess.OpenSettles | src/mthvac_comm_client.cpp:233-264 | READY if and only if a positive remote fd came back, if and only if it is mapped, whatever zero an earlier file left behind. |
| ClientProcess.CloseUndoesOpen | src/mthvac_client.cpp:263-267 | Closing takes back everything a tracked open put into the maps, whatever the server answered; all that can differ is that a stale zero is gone. |
| ClientProcess.HvacClient.TrackFile | src/mthvac_client.cpp:103-169 | Files opened for writing only or appending leave client and server as they were and count as untracked; others are in fd_map with their path, the maps end as the open protocol says, and with a positive answer the mapped fd is open on the server for this path, at its start, with the original's content. |
| ClientProcess.HvacClient.Read | src/wrappers.c:282-292 | The read wrapper down to the handler: the bytes are the file's at the remote cursor when the fd is tracked, the wait says READY, a mapping is there and the request is sent, and at the local cursor otherwise, at least one before the end of the file; that cursor alone moves, and the maps change only by what other threads do during a wait. |
| ClientProcess.HvacClient.Pread | src/wrappers.c:333-341 | The pread wrapper down to the handler: the file's slice at the offset, whoever serves it, at least one byte before the end of the file; no cursor moves, a mapping that is there stays, and the zero it may insert is the only change of its own. |
| ClientRuns.OpenRun | src/mthvac_client.cpp:145-165 | The job's steps of one tracked open, nobody else moving, change the maps as TrackedOpen says and the server by its open step. |
| ClientRuns.CloseRun | src/wrappers.c:228-241 | The job's steps of one close change the maps as TrackedClose says and leave a close message for the mapped fd exactly when it could be sent. |
| ClientRuns.ReadRun | src/wrappers.c:282-292 | The job's steps of one read: served, the server takes its read step and those bytes return; otherwise the bytes at the local cursor return and it moves. |
| ClientRuns.PreadRun | src/wrappers.c:333-341 | The job's steps of one pread: the slice at the offset returns, no cursor moves on either side. |
| ClientRuns.SeekRun | src/mthvac_comm_client.cpp:533-570 | The job's steps of one lseek of a mapped fd: the caller is told, and the remote cursor goes to, the offset, the cursor plus it or the size plus it; a negative target or unknown whence gives -1 and moves nothing. |
| ClientRuns.ReachesAgree | src/mthvac_comm_client.cpp:467-477 | Outside a wait the wrapper and the job's steps reach the server under the same condition: tracked, READY, mapped, sent. |
| ClientProcess.HvacClient.RemoveFd | src/mthvac_client.cpp:240-267 | The close message carries the mapped fd; mapping, status and fd_map entry go even when it cannot be sent. |
| AddressFile.LineText | src/mthvac_comm.cpp:141-148 | The text of a posted line: rank in decimal, a space, the address, a newline. |
| AddressFile.RoundTrip | src/mthvac_comm.cpp:141-148 | What servers post is what the lookup's scan parses, for all ranks and whitespace-free non-empty addresses. |
| AddressFile.RoundTripIff | src/mthvac_comm_client.cpp:598-606 | That condition is exact: a posting is read back unchanged if and only if every address is a non-empty word. |
| AddressFile.EmptyAddressIsLost | src/mthvac_comm_client.cpp:598-606 | A concrete posting that is not read back. |
| AddressFile.FirstIsStable | src/mthvac_comm_client.cpp:598-606 | The first address found for a rank stays the first as the file grows. |
| AddressFile.AddressBook.LookupAddr | src/mthvac_comm_client.cpp:576-614 | Hit or miss, the answer is the address first posted for the rank, and none exactly when none was posted; the cache stays in agreement. |

## Left out

- Mercury itself (progress loop, bulk registration, handles): only delivery at most once in any order, bulk completion before the response, and no callback after a failed send are modelled.
- The kernel, file systems and `dlsym` interception: fd allocation, immutable contents, a fresh directory, and a copy that completes or fails.
- Torn maps and data races on unlocked accesses; the 64 shard locks (src/mthvac_comm_client.cpp) that guard one shared map.
- Liveness of wakeups: a signal sent while the mover is copying is lost, and the queue then waits for the next one. Nothing is lost from the queue, but how long it waits is not bounded.
- The commented-out `lseek`, `fopen`, `readv` and `write` wrappers and code under `#if 0`; seek is reached through `hvac_remote_lseek` only.
- Logging, timers, statistics and the print-stats RPC.
- Server start-up, signals, PID file, job scripts, build files.
- Path canonicalisation and the test for tracking: whether a file is tracked is arbitrary.
- Fixed-size buffers (`PATH_MAX`), the 32-bit rank in `fscanf`, and address resolution after the lookup.
- Capacity limits and tier placement, which the documentation mentions; no such code is there.
- ServerProcess.HvacServer.CopyOne: the states in which a copy is partly written and still growing are steps of the state machine only; the method writes what `fs::copy` leaves behind at once.
- ServerProcess.HvacServer.CloseRpcHandler: runs test and push together; their interleaving with the mover is in the state machine.
- ClientProcess.HvacClient.Read: what other threads do during the wait (the clock, the wakeups, the fd an open callback stores) and whether the request can be sent are inputs; their interleaving is in the state machine.
- ClientProcess.HvacClient.TrackFile: the open is answered before the method goes on, so it shows no read beside an open under way; the state machine does.
- Resources.LeakFreeIff: says nothing about a file whose server process ends.
