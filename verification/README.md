# Winston's backend cores, modelled and proved in Dafny

Winston's backend has a few small parts on which a hard guarantee rests: a file transfer that spans
two processes, a job queue with leases, commands that must not be started twice, refresh tokens that
work once, a registry of who controls which browser window, and some algorithms that are easy to get
subtly wrong. This project models those parts and proves what they are for. `dafny verify
dfyconfig.toml` checks all of it.

Each part has the same shape. The state of an object of the source is a datatype, each of its
operations is a function on that state, and a class keeps the fields as the source does, with one
method per operation whose contract says that the new fields are the function of the old ones, and in
plain terms what has changed and what the caller is told. The
properties are then lemmas about those functions: invariants that every operation keeps, and
theorems over every run. Where two processes talk, a system of both and the channel between them
takes one step at a time, in any order the channel allows. Loops of the source are loops here, with
invariants.

| module | what it models |
|---|---|
| `Transfers`, `PushQueue`, `FileOps`, `Daemon` | a file transfer's four parts: gateway registry, async queue, atomic write, VM frame handler |
| `TransferSystem`, `TransferTheorems`, `TransferFates`, `TransferArrives` | a gateway and a VM over a channel that loses, repeats and reorders frames |
| `JobQueue` | the Postgres job queue, one statement at a time, on the database's clock |
| `Execs`, `Executor`, `Reports`, `ExecutorTruth`, `Runner`, `ExecSystem`, `ExecTheorems`, `ExecTail`, `ExecEnds` | commands by id: gateway, VM, and sockets that come and go between them |
| `RotatingTokens` | services with private caches that share one row of rotating tokens |
| `Handoffs` | who watches and who controls a browser window |
| `EditDistance` | the one-row edit distance and the suggestion made from it |
| `FreeSlots` | interval merging and the sweep for free time |
| `SqlText`, `SqlSplit`, `SqlTokens`, `Migrations` | the SQL splitter, the tokens it reads, and the migration runner |
| `Envelopes`, `EnvelopeReader` | the envelope renderer, and a reader that undoes it |
| `SiteUsage`, `MailPages` | usage accrual and caps; keyset paging of the mailbox |
| `Bytes`, `Texts`, `Wrappers` | byte strings cut into pieces; texts joined; `Option` |

## What is assumed

- **Transfers.** Frames are not altered, the frame that opens a transfer arrives at most once, and
  ids are fresh. Chunk and end frames may be lost, repeated and reordered, in both directions. Other
  VMs may send anything. Nothing is assumed of the hash: the upload theorem does not need it, and the
  download theorem says what a collision would have to look like.
- **Job queue.** A statement is atomic, a lease's token is fresh, the database's clock does not go
  back. Which due rows a lease picks is any result its query allows, including rows skipped because
  another transaction holds them.
- **Commands.** A socket is first in, first out; the gateway hears a VM only over its current socket.
  Ids may be asked about any number of times, on one socket or many.
  The text decoder, where a lemma says so, comes to the same text however the bytes are cut.
- **Refresh tokens.** The provider never issues a token twice. A crash is a step of its own, at any
  point of a call; a request that was under way is still answered, or not, later. A request that fails
  on its way back is such a crash. The theorems say exactly what one costs.
- **Live views.** View ids are fresh, as the gateway makes them, and a VM's id holds no colon, so a
  window's key is a pair. A VM's socket closing and its pages being signed out is one step, as in the
  gateway's handler. A socket that closes is the VM's live one, or the one a new socket has just
  replaced (`apps/gateway/src/connections.ts:16-20`), and then its close is handled before anything is
  sent on the new one.
- **Free slots.** Days follow time and a day's working window lies inside that day (`Lawful`).
- **Migrations.** A bundle's file names are distinct, as the paths of an archive are
  (`packages/site-host/src/bundle.ts:34-50`); `Migrations.AppliesAllIff` says what that is needed for.
  A call to the site host has its effect or none, and its answer may be lost after it.
- **Usage.** Passes are serialized at times that do not go back, and site ids are fresh. Costs are
  reals, rounded to the micro-dollar; CPU milliseconds are whole.
- **Mail pages.** Dates are whole milliseconds, which is what a cursor can carry, and an id's text is
  not empty and has no bar in it.

## Where the code does less than it says

- A write that its caller gave up on (`TimedOut`, `Unavailable`) may still be renamed into place later
  (`TransferFates.GivenUpMayLand`, for any bytes that fit). `LandsIffMayLand` says when: some
  continuation commits a write if and only if its path leads to a file, its size is within the limit,
  and the VM has not begun it or holds it open without having seen a chunk out of turn. Once the VM
  itself has refused a write, its file was not and will not be touched (`RefusedMeansUntouched`).
- A write whose end is lost leaves its temp file: the VM's `uploads` are not cleared when a socket dies
  (`apps/winstond/src/daemon.ts:144`, `:388-421`). There is a temp file exactly while a writer is at work
  (`TransferFates.TempWhileWriting`), and one that sleeps keeps it until a frame of its own comes or the
  disk fails (`SleepingTempStays`); `GivenUpTempStays` is such a write, whose caller was rejected.
- A caller can be told only the end of a command's output: when the gateway has given up on a command,
  and is asked for it again on the same socket while it still runs (`ExecTail.OnlyTheTail`).
  `ExecTheorems.WholeIff` says when, for each call by itself: until its id is forgotten it gets the
  recorded result if and only if nothing had been heard of the command on that socket, since its last
  exit, before the request the call waits on was sent, be it its own or one it joined, or else it was
  told the result by `exec.result`. Otherwise it misses just that.
- A waiter whose command id is taken over by a call for another VM is never told
  (`ExecTheorems.TwoVmsOneId`). `EveryWaiterIsToldOnce` says that this is the only way to be forgotten.
- A crash while a token is being traded, before the provider's answer or after it, can lose the grant
  (`RotatingTokens.CrashLosesTheGrant`, both ways); a spent token is presented exactly when one has.
- When another viewer's stream of a window ends, the window's holder loses control and is not told
  (`Handoffs.LoserIsTold` gives the condition both ways, `HolderIsNotTold` a run).
- Dropping control is meant to close the holder's full desktop, but a desktop has a view id of its own
  (`apps/gateway/src/gateway.ts:310`), so it closes none (`Handoffs.DropControlKeeps`).
- A site over its request cap is left running by a pass that has just lifted its database pause
  (`SiteUsage.OverTheCapIsPaused` gives the condition both ways, `LeftRunning` a run).
- A trigger's body is meant to stay whole (`packages/site-host/src/sql.ts:2-4`), but the `END` of a `CASE`
  in it closes it as well. A trigger is one statement if and only if every semicolon of its body stands
  inside some `BEGIN` that no `END` has closed (`SqlTokens.TriggerIsWholeIff`); `CaseCutsTrigger` is one
  that is cut.
- A migration reported as failed, and said not to have been applied
  (`packages/site-host/src/migrations.ts:52`), was applied and recorded if and only if its batch went
  through and the answer was lost (`Migrations.ExactlyThoseBefore`; `FailedButApplied` for any migration).
  The next call finds it recorded, so nothing is applied twice, and neither call reports it
  (`Resumes`).
- A queued job has no attempt left when it was enqueued with none (`JobQueue.QueuedHasAttemptsLeft`,
  `NoneGranted`). Only the function allows that: no caller in the repository asks for fewer than one.

## Model

| member | source | states |
|---|---|---|
| PushQueue.PushQueue.PushItem | apps/winstond/src/queue.ts:12-15 | an item goes to the back of the queue and a sleeping consumer wakes |
| PushQueue.PushQueue.CloseQueue | apps/winstond/src/queue.ts:16-19 | the queue is closed and the consumer wakes |
| PushQueue.PushQueue.FailQueue | apps/winstond/src/queue.ts:20-23 | the queue has failed and the consumer wakes |
| PushQueue.PushQueue.Turn | apps/winstond/src/queue.ts:24-35 | one turn of the iterator: it throws if the queue has failed, else yields the oldest item, else ends if closed, else sleeps; nothing else changes |
| PushQueue.QueueIsFifo | apps/winstond/src/queue.ts:2-37 | over any operations the consumer sees the items pushed, first in first out; it sleeps or finishes only when it has seen them all, so no wake-up is lost |
| FileOps.FileSystem.TakeAll | apps/winstond/src/file-ops.ts:126-137 | the temp file holds the whole source exactly when it fits the promised size and the disk did not fail |
| FileOps.FileSystem.WriteAtomically | apps/winstond/src/file-ops.ts:93-151 | the target gets exactly the source's bytes if and only if the size is within 50 MiB and is theirs, the hash is theirs, and path, source and disk are all right; otherwise no file changes; no temp file is left either way; and which error when |
| Transfers.FileTransfers.Send | apps/gateway/src/files.ts:56 | a frame goes out, in order, exactly when the VM is connected |
| Transfers.FileTransfers.FailTransfer | apps/gateway/src/files.ts:59-72 | the transfer ends with an error: a rejection, or, once a stream has begun, its error after the bytes so far; an unknown id changes nothing |
| Transfers.FileTransfers.ReadFile | apps/gateway/src/files.ts:87-115 | the request is sent and the read in flight from the first chunk on, or the call is rejected at once if the VM is not connected |
| Transfers.FileTransfers.WriteFile | apps/gateway/src/files.ts:118-159 | what is sent is the size and hash, the bytes in numbered chunks, and the end; the write is in flight |
| Transfers.FileTransfers.SendChunks | apps/gateway/src/files.ts:142-155 | the loop sends piece k of the bytes as chunk k, all of them, in order |
| Transfers.FileTransfers.HandleFrame | apps/gateway/src/files.ts:162-214 | every branch of a frame from a VM, by what the caller sees: another VM's or an unknown id ignored; an error, or a chunk out of turn, ends the transfer with it; a chunk in turn is streamed; at the end a write resolves, and a read's stream closes if the hash is that of the bytes received and fails as a mismatch if not |
| Transfers.FileTransfers.SocketClosed | apps/gateway/src/files.ts:217-220 | exactly the transfers on that socket fail as unavailable; the others and their callers are untouched |
| Transfers.ReceiveKeeps | apps/gateway/src/files.ts:59-72 | a frame leaves every caller either waiting with its transfer in flight or settled for good, never both and never neither |
| Transfers.CloseSocketKeeps | apps/gateway/src/files.ts:217-220 | the same for a closing socket, after which none of its transfers is in flight |
| Bytes.CutKeepsAll | apps/gateway/src/files.ts:143-146 | cutting bytes into pieces loses nothing, and each piece is non-empty and fits a frame |
| Daemon.QueuedInOrder | apps/winstond/src/daemon.ts:387-421 | whatever frames of an upload arrive, lost, repeated or out of order, its queue was pushed the first pieces of the bytes, in order, as many as were counted |
| Daemon.FileDaemon.SendFile | apps/winstond/src/daemon.ts:234-264 | a file's stream is sent as chunks numbered without gap, then its size and the hash of all its bytes |
| Daemon.FileDaemon.SendPieces | apps/winstond/src/daemon.ts:241-253 | the inner loop sends one chunk of the stream as pieces that fit a frame, numbered on |
| Daemon.TurnsWriteAtomically | apps/winstond/src/daemon.ts:387-406 | taken turn by turn, a writer whose queue holds the whole source renames it into place exactly when size and hash match, reports which, and leaves no temp file |
| TransferSystem.StepKeeps | apps/gateway/src/files.ts:56-222 | every step of gateway, VM or channel keeps the invariant: what a writer has taken is the first pieces of what was asked, what was committed is all of it, and every report and promise is so |
| TransferTheorems.ResolvedMeansWritten | apps/gateway/src/files.ts:118-159 | upload, end to end: over any run a write resolves only with its own size and hash, and only once exactly its bytes were renamed over its target |
| TransferTheorems.AskedWasAsked | apps/gateway/src/files.ts:118-130 | the bytes meant there are those of the call that made the id |
| TransferTheorems.FilesAreCommits | apps/winstond/src/file-ops.ts:137-150 | over any run the VM's files are the files at the start with the committed writes applied in order, each write at most once, so a target holds the bytes of the last write to it |
| TransferTheorems.RefusedMeansUntouched | apps/winstond/src/daemon.ts:391-406 | a write the VM refused was never committed, leaves no temp file, and is not committed in any continuation; what may become of one its caller gave up on is `LandsIffMayLand` |
| TransferTheorems.SettledOnce | apps/gateway/src/files.ts:59-72 | in every reachable state a caller is settled exactly when its transfer is gone, and what it was told never changes |
| TransferTheorems.ClosedMeansWhole | apps/gateway/src/files.ts:198-211 | download, end to end: a stream that closed carried a prefix of the file with the file's own hash, so the file itself unless a shorter prefix has the same hash |
| TransferTheorems.StreamsArePrefixes | apps/gateway/src/files.ts:182-197 | every stream, open, broken or closed, has carried a prefix of the file |
| TransferTheorems.StreamsAreFiles | apps/winstond/src/daemon.ts:234-241 | that file is the one at the path asked for, as it was when the VM opened it |
| TransferTheorems.InOrderArrives | apps/winstond/src/daemon.ts:387-421 | frames of a write that arrive once and in order end with exactly its bytes in place and the VM saying so |
| TransferArrives.InOrderReads | apps/gateway/src/files.ts:182-211 | the frames of a file, heard once and in order, end a new read with all of its bytes and a stream closed cleanly |
| TransferArrives.ReadArrives | apps/winstond/src/daemon.ts:234-264 | download, end to end: from every reachable state a read of a path that leads to a file of at most 50 MiB has a run, asked, opened, streamed and delivered in order, that ends with exactly that file and a closed stream |
| TransferArrives.ReadRefusedWhy | apps/winstond/src/daemon.ts:234-240 | a read of a path that is refused, is no file, or is too large has a run that rejects the caller with that very reason |
| TransferArrives.WriteArrives | apps/gateway/src/files.ts:118-159 | upload, end to end: from every reachable state a write that fits has a run that commits it and resolves with its size and hash |
| TransferArrives.WriteRefusedWhy | apps/winstond/src/file-ops.ts:100-113 | a write that is too large, or whose path is refused, has a run that rejects the caller with that reason and touches no file |
| TransferFates.LandsIffMayLand | apps/winstond/src/daemon.ts:387-421 | in every reachable state, whatever its caller was told, a write not yet committed is committed in some continuation if and only if its path leads to a file, it is within the size limit, and the VM has not begun it or holds it open with no failure in its queue |
| TransferFates.GivenUpMayLand | apps/gateway/src/files.ts:74-83 | for any write that fits, a run in which it times out, or its socket closes, and the file is written all the same |
| TransferFates.TempWhileWriting | apps/winstond/src/file-ops.ts:113-150 | in every reachable state there is a temp file exactly while its upload is being written |
| TransferFates.SleeperHasAll | apps/winstond/src/queue.ts:12-35 | in every reachable state a sleeping writer has written all the pieces whose turn has come, and its queue is empty and neither closed nor failed: no wake-up is lost |
| TransferFates.SleepingTempStays | apps/winstond/src/daemon.ts:387-421 | over any run a temp file whose writer sleeps stays as it is, until a frame of its own comes or its disk fails |
| TransferFates.GivenUpTempStays | apps/winstond/src/daemon.ts:144 | a run whose caller is rejected, since its socket closed, and whose temp file is left through every continuation without such a step |
| JobQueue.Queue.Enqueue | packages/db/src/queue.ts:44-83 | with no queued job of the key, a new id with a queued row of exactly the options, due after the delay, else when asked, else now, and no other row changes; with one, its id, and only its due time moves if the call reschedules, and nothing otherwise |
| JobQueue.Queue.LeaseJobs | packages/db/src/queue.ts:89-121 | only due rows of these kinds that nobody has locked, queued ones or those whose lease ran out, become running under the new token, with one more attempt each and a snapshot of each returned; a due row is passed over only when the limit was reached by earlier ones |
| JobQueue.Queue.CompleteJob | packages/db/src/queue.ts:133-145 | the job is done if the lease still holds it; otherwise nothing changes and the answer is false |
| JobQueue.Queue.FailJob | packages/db/src/queue.ts:152-185 | if the lease still holds the job it is failed for good when the attempt was its last, else queued again after the delay, keeping its key unless a queued sibling has it; nothing if the lease is lost |
| JobQueue.Queue.ExtendLease | packages/db/src/queue.ts:188-195 | the lease runs from now if it still holds the job; nothing if it is lost |
| JobQueue.InsertKeepsKeys | packages/db/src/queue.ts:60-72 | the insert's conflict rule keeps at most one queued job a key |
| JobQueue.FailKeepsKeys | packages/db/src/queue.ts:172-180 | going back to the queue beside a sibling keeps at most one queued job a key |
| JobQueue.StepKeeps | packages/db/src/queue.ts:44-195 | every operation and every tick keeps the keys, the leases, their snapshots and the attempt counts consistent |
| JobQueue.ReachableInv | packages/db/src/queue.ts:44-195 | so does every interleaving from the empty table |
| JobQueue.OneHolder | packages/db/src/queue.ts:124-130 | at most one lease of a job is current, and a running job has one |
| JobQueue.LostStaysLost | packages/db/src/queue.ts:132-145 | a lost lease stays lost in every run, so it changes nothing ever again |
| JobQueue.HeldUntilExpiry | packages/db/src/queue.ts:102 | until it expires nothing that other workers do takes a lease away |
| JobQueue.FinalIsForever | packages/db/src/queue.ts:132-143 | a finished job never changes again |
| JobQueue.NoEnqueueLost | packages/db/src/queue.ts:44-83 | from a keyed call on, until a later lease takes the job that carries it, that job is queued under the key; a job already running never carries it |
| JobQueue.ThrowMeansLeased | packages/db/src/queue.ts:75-82 | if the second statement finds no job and the call throws, the job that carried the request was leased in between |
| JobQueue.QueuedHasAttemptsLeft | packages/db/src/queue.ts:153 | a queued job has an attempt left if and only if it was enqueued with at least one |
| JobQueue.NoneGranted | packages/db/src/queue.ts:44-72 | a reached table with a queued job that has no attempt left |
| JobQueue.AttemptsCountLeases | packages/db/src/queue.ts:116 | a job's attempts are the number of leases it was given, each with its own number |
| JobQueue.NothingStuck | packages/db/src/queue.ts:100-103 | an unfinished job becomes leasable if nothing else happens to it, also when its worker is gone |
| Execs.ExecTracker.SettleExec | apps/gateway/src/execs.ts:46-53 | everyone who waits on the id is told the outcome, and it is no longer in flight |
| Execs.ExecTracker.TrackCall | apps/gateway/src/execs.ts:56-85 | a call joins the one in flight on that VM with nothing sent, or is sent on its socket and waits, or is rejected when the VM is not connected |
| Execs.ExecTracker.HandleReport | apps/gateway/src/execs.ts:133-161 | every branch of a report: another VM's ignored, output buffered, exit and found settle with a result, not found by who asked |
| Execs.ExecTracker.Closed | apps/gateway/src/execs.ts:169-172 | exactly the commands of that VM fail |
| Execs.MissingIsAnError | apps/gateway/src/execs.ts:112-130 | a result the VM does not have is an answer to a fetch and an error to a run, and nothing else a caller sees is changed |
| Execs.TrackKeeps | apps/gateway/src/execs.ts:63-85 | a new call waits or is told, and leaves every other caller as it was, but for those waiting on the same id at another VM |
| Execs.SettleKeeps | apps/gateway/src/execs.ts:46-53 | settling tells everyone who waits on the id, and nobody twice |
| Execs.CloseVmKeeps | apps/gateway/src/execs.ts:169-172 | a closing VM's waiters are told, and nobody twice |
| Runner.ExecRunner.Run | apps/winstond/src/exec.ts:80-105 | an id is spawned exactly if the VM does not know it, so once more than it was forgotten; what is said on every socket stays true to what is recorded |
| Runner.ExecRunner.FetchResult | apps/winstond/src/exec.ts:190-195 | nothing is spawned; the answer is a recorded result, or that there is none, or comes when the command ends; what is said stays true |
| Runner.ExecRunner.WaitFor | apps/winstond/src/exec.ts:190-195 | a finished command's recorded result is told whole at once, and of a running one nothing is said and the waiter is in line; what is said stays true |
| Runner.ExecRunner.PumpAll | apps/winstond/src/exec.ts:133-157 | the loop over a stream, with the decoder's rest at the end, says on the command's own socket all it adds to the record; what is said stays true |
| Runner.ExecRunner.PumpChunk | apps/winstond/src/exec.ts:140-150 | one chunk: what fits under the cap is kept and said, and the record flagged when something does not |
| Runner.ExecRunner.Exited | apps/winstond/src/exec.ts:159-178 | the new record is the command's output, the exit code the process ended with, and whether `timeout` ended it (124, or 137 no earlier than the limit); its own socket gets that exit, and then everyone who waited the whole result, in order; what is said stays true |
| Runner.ExecRunner.RetentionEnds | apps/winstond/src/exec.ts:177 | a finished command is forgotten, and has been forgotten as often as spawned |
| Executor.KeepsUpToTheCap | apps/winstond/src/exec.ts:138-150 | however a stream is chunked, exactly its first 1 MiB of bytes is kept, and the result is flagged just when a chunk came at or over the cap |
| Executor.RecordedIsDecoded | apps/winstond/src/exec.ts:133-157 | with a decoder that comes to the same text however bytes are cut, the recorded text is the decoding at once of the stream's first 1 MiB |
| Reports.SlicesJoin | apps/winstond/src/exec.ts:149-150 | cutting a text into frames loses nothing, and each frame carries between one character and 16 Ki |
| Reports.ReplyTells | apps/winstond/src/exec.ts:83-95 | a retry is told all of the output, stream by stream, and then the exit; a fetch is told the result |
| ExecutorTruth.TakeKeeps | apps/winstond/src/exec.ts:80-105 | any request, from any socket, about an id asked about there before or not, keeps every socket's reports true to what is recorded |
| ExecutorTruth.PumpKeeps | apps/winstond/src/exec.ts:133-151 | so does output: what a socket was told of a running command, since its last exit, is its record so far |
| ExecutorTruth.ExitsKeeps | apps/winstond/src/exec.ts:163-178 | so does the exit, with every waiter's answer |
| ExecutorTruth.TrueReply | apps/winstond/src/exec.ts:83-95 | on a socket where nothing of the command is under way, replaying a result as output and an exit tells exactly that result |
| ExecSystem.StepKeeps | apps/gateway/src/execs.ts:41-178 | every step of gateway, VM and sockets keeps the invariant: what was heard of a command before its request was sent, and its buffers since, are the text heard of it since its last exit |
| ExecTheorems.StartedAtMostOnce | apps/winstond/src/exec.ts:81-95 | over any run, however often an id is asked for on one socket or many, it is spawned as often as it was forgotten, plus once while known: once until its retention ends, with at most one result |
| ExecEnds.RecordedIsHowItEnded | apps/winstond/src/exec.ts:159-175 | over any run each result recorded of an id is of a step at which a process at that id ended: its output, its exit code, and timed out exactly when `timeout` ended it |
| ExecEnds.ExitCodeIsTheProcess | apps/gateway/src/execs.ts:144-156 | over any run the exit code and flags a caller gets are those of a process that ended at its id |
| ExecEnds.ResultComes | apps/gateway/src/execs.ts:133-161 | in every state, when what ends its command lies ahead on the live socket, a waiting call has its result once the gateway has heard that far, whatever else comes on the way |
| ExecTheorems.ResultIsRecorded | apps/gateway/src/execs.ts:115-161 | over any run a result a caller gets is one the VM recorded for that id, with the same exit code and flags, and the same output less the head the call missed; only a fetch resolves without one |
| ExecTheorems.WholeUnlessMissed | apps/gateway/src/execs.ts:115-161 | so until its id is forgotten what a caller gets is the recorded result if and only if it missed nothing |
| ExecTheorems.WholeIff | apps/gateway/src/execs.ts:56-161 | for each call by itself, over any run: what it misses is what had been heard of the command on the socket, since its last exit, before the request it waits on was sent, its own or one it joined, and nothing if it was told a found result; so until the id is forgotten it gets the recorded result if and only if that is nothing or the result was found |
| ExecTheorems.OnceIsWhole | apps/gateway/src/execs.ts:115-161 | in a run that sends no request on a socket where its id was asked about before, every result is the recorded one |
| ExecTail.OnlyTheTail | apps/gateway/src/execs.ts:63-85 | a run in which a caller is told B while AB is recorded |
| ExecTheorems.EveryWaiterIsToldOnce | apps/gateway/src/execs.ts:46-53 | over any run a waiter goes on waiting or is told once and for good, unless, and only unless, its id is taken over for another VM |
| ExecTheorems.TwoVmsOneId | apps/gateway/src/execs.ts:63-70 | a run in which a waiter is so left behind |
| RotatingTokens.AccessTokens.AccessToken | packages/connectors/src/rotating-tokens.ts:129-162 | one call's outcome, the row and the cache, with the clock in it: a token that was cached or stored is handed out only with more than a minute left and if it was not rejected; without one the provider is asked with the stored refresh token, and what it gives is stored and handed out; a connection that has ended, or ends now, is unavailable |
| RotatingTokens.AccessTokens.Refreshed | packages/connectors/src/rotating-tokens.ts:81-123 | under the lock: the stored token if it is good, else what the provider gives, stored with the new refresh token |
| RotatingTokens.StepKeeps | packages/connectors/src/rotating-tokens.ts:81-162 | every step of any number of calls, the provider, crashes at any point, answers that reach nobody and reconnects keeps the invariant |
| RotatingTokens.StoredIsLive | packages/connectors/src/rotating-tokens.ts:104-121 | while the lock is free the stored refresh token is the provider's live one as long as the grant lasts, and a spent one exactly when a rotation has reached nobody since a caller crashed |
| RotatingTokens.SpentIsPresentedOnlyAfterACrash | packages/connectors/src/rotating-tokens.ts:96-98 | a token presented is spent if and only if such a rotation happened, be it while the request is under way; only the holder of the lock presents one |
| RotatingTokens.OneRefreshForAll | packages/connectors/src/rotating-tokens.ts:91-93 | after a token is stored the provider is asked again only when that token runs out, is rejected itself, or goes with its grant |
| RotatingTokens.RejectedIsNotHandedBack | packages/connectors/src/rotating-tokens.ts:57-60 | a caller never gets the token it said was rejected |
| RotatingTokens.HandedOutIsGood | packages/connectors/src/rotating-tokens.ts:57-60 | over any run a call that ends with a token was just granted it, or took one with more than a minute left at the moment it decided |
| RotatingTokens.AskedIffNeeded | packages/connectors/src/rotating-tokens.ts:93-101 | under the lock the provider is asked if and only if the connection has not ended, has a refresh token, and its stored token is missing, rejected, or has a minute left or less |
| RotatingTokens.QueuedIffNeeded | packages/connectors/src/rotating-tokens.ts:151-162 | a call waits for the lock if and only if the connection has not ended and neither its cache nor the row has such a token |
| RotatingTokens.CrashLosesTheGrant | packages/connectors/src/rotating-tokens.ts:96-121 | runs in which a crash, after the provider's answer or before it, leaves the next call presenting a spent token |
| Handoffs.LiveViews.WatchWindow | apps/gateway/src/handoffs.ts:238-261 | a signed-in page watches the window: its old stream stops, the new one starts, and it is told whether it has control; a VM that is not connected leaves it watching nothing, told nothing; no control changes hands |
| Handoffs.LiveViews.DropWindow | apps/gateway/src/handoffs.ts:141-163 | that window alone is free; its holder, and nobody else, is told and comes to believe it is not in control, and its stream of that window starts over; no desktop closes; the registry's invariant is kept |
| Handoffs.LiveViews.GrantControl | apps/gateway/src/handoffs.ts:282-294 | the watching page holds the window it watches and is told so, after whoever had it was told that it is not theirs; no other window changes hands, and a page that watches nothing gets nothing |
| Handoffs.LiveViews.InputFrom | apps/gateway/src/handoffs.ts:297-307 | one input goes to the VM exactly if the page is signed in and holds the window it watches, which then streams; the invariant is kept |
| Handoffs.LiveViews.ReleaseWindows | apps/gateway/src/handoffs.ts:210-230 | exactly the windows that some signed-in page watches for that owner, or the one asked for, are free, and last the VM is told |
| Handoffs.LiveViews.Disconnected | apps/gateway/src/handoffs.ts:310-317 | the page is signed out, its stream stopped and exactly the windows it held free; no other page notices |
| Handoffs.LiveViews.HandleEnded | apps/gateway/src/handoffs.ts:384-401 | the page watches nothing and is told so, and the window it watched is free, whoever held it; a VM's word counts for its own pages only; the invariant is kept |
| Handoffs.LiveViews.VmDisconnected | apps/gateway/src/handoffs.ts:414-434 | all pages of that VM are signed out, its windows free and its desktops closed, nobody is told, and nothing of another VM changes |
| Handoffs.LiveViews.VmConnected | apps/gateway/src/connections.ts:16-20 | the VM is connected; if it was already, its old socket's pages, windows and desktops go, and no others; if not, nothing else changes |
| Handoffs.LiveViews.OpenFullDesktop | apps/gateway/src/handoffs.ts:320-335 | the desktop is open exactly when the VM is connected, which is told, and otherwise nothing changes |
| Handoffs.LiveViews.StopStream | apps/gateway/src/handoffs.ts:125-133 | on a consistent registry nothing streams to the page any more, on any VM, and it stays consistent |
| Handoffs.LiveViews.CloseFullDesktop | apps/gateway/src/handoffs.ts:116-122 | on a consistent registry no desktop is open at the view any more, on any VM, and it stays consistent |
| Handoffs.DropControlKeeps | apps/gateway/src/handoffs.ts:141-163 | dropping control frees just that window, changes no page and closes no desktop |
| Handoffs.ReleaseEachKeeps | apps/gateway/src/handoffs.ts:215-222 | a release frees exactly the windows some page is watching for that owner, and nobody stops watching |
| Handoffs.DoKeeps | apps/gateway/src/handoffs.ts:141-434 | every operation keeps the registry's invariant |
| Handoffs.ControlIsConsistent | apps/gateway/src/handoffs.ts:238-317 | in every run who watches is signed in on a connected VM, and who controls a window is signed in on its VM and was last told that it does |
| Handoffs.StreamsMatchPages | apps/gateway/src/handoffs.ts:125-163 | in every run the log of starts, stops, ends and closed sockets adds up to exactly what pages watch, with no start without an end before it and no stop, end or input of a view that does not stream; desktops likewise |
| Handoffs.OnlyTheHolderActs | apps/gateway/src/handoffs.ts:297-307 | no operation but a page's own input sends input, and then the page is signed in, holds the window it watches, and streams it |
| Handoffs.LoserIsTold | apps/gateway/src/handoffs.ts:141-161 | a signed-in page that loses a window is told, unless and only unless another page's stream of it ended |
| Handoffs.HolderIsNotTold | apps/gateway/src/handoffs.ts:384-401 | a reachable registry where another page's stream ends and the holder, who lost the window, still believes it is in control |
| EditDistance.Distance | apps/cli/src/suggest.ts:2-18 | the result is the least cost of all edit scripts that turn one text into the other |
| EditDistance.NextRow | apps/cli/src/suggest.ts:7-15 | the inner loop overwrites a row of the table of prefix distances with the next one, in place |
| EditDistance.Suggest | apps/cli/src/suggest.ts:21-31 | the earliest closest candidate exactly when one is within two edits or within a third of the input's length, else none |
| EditDistance.LevIsDistance | apps/cli/src/suggest.ts:9-13 | the recurrence is the minimum over all edit scripts |
| EditDistance.TableAchieved | apps/cli/src/suggest.ts:9-13 | some script costs what a cell of the table says |
| EditDistance.TableIsLeast | apps/cli/src/suggest.ts:9-13 | no script costs less |
| EditDistance.Symmetric | apps/cli/src/suggest.ts:2-18 | the distance is symmetric |
| EditDistance.Triangle | apps/cli/src/suggest.ts:2-18 | the triangle inequality |
| EditDistance.ZeroIsEquality | apps/cli/src/suggest.ts:2-18 | the distance is zero just for equal texts |
| EditDistance.OneEarliestClosest | apps/cli/src/suggest.ts:22-27 | there is only one earliest closest candidate |
| FreeSlots.MergeIntervals | packages/connectors/src/free-slots.ts:31-43 | the result covers the same instants, ordered, non-empty and never touching |
| FreeSlots.SeparatedIsCanonical | packages/connectors/src/free-slots.ts:31-43 | there is only one such list |
| FreeSlots.WindowSlots | packages/connectors/src/free-slots.ts:104-114 | the sweep of one window adds exactly its long enough maximal free stretches, in order |
| FreeSlots.FreeSlots | packages/connectors/src/free-slots.ts:73-117 | the slots are exactly the long enough maximal free stretches of the open days' windows clipped to the request, ordered and disjoint |
| FreeSlots.SlotsAreFree | packages/connectors/src/free-slots.ts:68-72 | every instant of a slot is free, asked for, and inside one open day's window, and a slot is as long as asked |
| FreeSlots.NoFreeTimeMissed | packages/connectors/src/free-slots.ts:68-72 | a long enough free interval inside one window lies in a slot |
| FreeSlots.SlotsAreDetermined | packages/connectors/src/free-slots.ts:106-114 | those promises leave only one list of slots |
| SqlSplit.SplitSql | packages/site-host/src/sql.ts:7-60 | the scanner returns the pieces between the cuts, trimmed, without those that are only comments; what is cut is said by the token lemmas below |
| SqlSplit.ScanToken | packages/site-host/src/sql.ts:19-56 | a token (quoted, comment, word or character) is taken over whole, with the depth it leads to |
| SqlSplit.NothingLost | packages/site-host/src/sql.ts:12-58 | a script is its pieces joined by the semicolons it was cut at |
| SqlSplit.PiecesAreTheOnlyCut | packages/site-host/src/sql.ts:50-52 | no other cut keeps tokens whole and cuts at every top-level semicolon |
| SqlSplit.RejoinSplits | packages/site-host/src/sql.ts:7-60 | splitting the statements joined by newline, semicolon, newline gives the same list, for every script |
| SqlSplit.StatementIsWhole | packages/site-host/src/sql.ts:7-60 | splitting a returned statement gives just that statement |
| SqlSplit.DroppedMeansOnlyComments | packages/site-host/src/sql.ts:12-17 | the statements dropped are exactly those that are nothing but comments and space, token by token |
| SqlSplit.SpaceBefore | packages/site-host/src/sql.ts:13 | leading space changes no cut |
| SqlSplit.SpaceAfter | packages/site-host/src/sql.ts:13 | trailing space can be traded for one line break without changing a cut |
| SqlTokens.EveryScriptReads | packages/site-host/src/sql.ts:18-57 | every script is a list of tokens (quoted, bracketed, comments, words, single marks), each written as SQLite writes it and ending where the next one starts; a token that is never closed runs to the end |
| SqlTokens.TokenWritten | packages/site-host/src/sql.ts:21-49 | the scanner takes each token over exactly as it was written, whatever its text holds, doubled quotes and semicolons included, and only words count as words |
| SqlTokens.FirstStatement | packages/site-host/src/sql.ts:12-53 | up to the first semicolon token outside every trigger body a script is one statement, trimmed, or none if it has only space and complete comments; the rest is split on its own |
| SqlTokens.LastStatement | packages/site-host/src/sql.ts:12-58 | a script without such a semicolon is one statement, or none |
| SqlTokens.WholeIff | packages/site-host/src/sql.ts:50-52 | a script is one piece if and only if none of its tokens is a semicolon outside every trigger body |
| SqlTokens.QuotedIsOne | packages/site-host/src/sql.ts:21-32 | a text in single, double or back quotes between plain texts is at most one statement, whatever it holds, with its own quotes doubled; one that is never closed swallows the rest |
| SqlTokens.BracketedIsOne | packages/site-host/src/sql.ts:21-32 | so is a text in brackets |
| SqlTokens.LineCommentIsOne | packages/site-host/src/sql.ts:33-37 | so is a comment up to the end of its line |
| SqlTokens.BlockCommentIsOne | packages/site-host/src/sql.ts:38-42 | so is a comment up to its first end, or to the end of the script |
| SqlTokens.SemicolonCuts | packages/site-host/src/sql.ts:50-52 | a semicolon after plain text that names no trigger is cut at: the text before it, trimmed, is a statement unless it is all space, whatever follows |
| SqlTokens.TriggerIsOne | packages/site-host/src/sql.ts:43-49 | a trigger whose body has no other BEGIN or END is cut off right after its END, with all the semicolons of its body inside |
| SqlTokens.TriggerIsWholeIff | packages/site-host/src/sql.ts:43-52 | a trigger is one piece if and only if every semicolon of its body stands inside some BEGIN that no END has closed |
| SqlTokens.CaseEndsTheBody | packages/site-host/src/sql.ts:46-47 | with one END more in its body, as a CASE has, a trigger is cut at the next semicolon |
| SqlTokens.CaseCutsTrigger | packages/site-host/src/sql.ts:46-47 | such a trigger, which is cut in two |
| Migrations.ApplyMigrations | packages/site-host/src/migrations.ts:18-50 | the loop over the sorted migrations, skipping what is recorded, stopping at the first failure with what was applied |
| Migrations.LessIff | packages/site-host/src/migrations.ts:32-34 | the order of names: at the first difference the smaller character comes first, and a name comes before one that goes on after it |
| Migrations.ExactlyThoseBefore | packages/site-host/src/migrations.ts:32-48 | wherever a run ends, exactly the pending migrations before that point are applied, recorded and reported, in order, and the one it failed at is applied and recorded too if and only if its batch went through and the answer was lost |
| Migrations.FailedButApplied | packages/site-host/src/migrations.ts:36-58 | any migration that goes through can be reported as failed and be applied all the same |
| Migrations.Resumes | packages/site-host/src/migrations.ts:18-50 | a call after a failed one, lost answers included, reaches the same database as one undisturbed call, with nothing applied twice or left out; each migration is reported by one of the two, but for one whose answer was lost |
| Migrations.AgainAppliesNothing | packages/site-host/src/migrations.ts:35 | a further call applies nothing |
| Migrations.AppliesAllIff | packages/site-host/src/migrations.ts:30-48 | a call whose statements all succeed ends with everything applied if and only if no unrecorded name is given twice |
| Envelopes.EscapesEachChar | packages/domain/src/envelope.ts:72-82 | the sequential replacements equal one escape per character |
| Envelopes.EscapedIsPlain | packages/domain/src/envelope.ts:72-82 | what is escaped has no angle bracket, and in an attribute no quote |
| Envelopes.UnescapesBack | packages/domain/src/envelope.ts:72-82 | escaping has a left inverse |
| EnvelopeReader.BatchReadsBack | packages/domain/src/envelope.ts:283-295 | from a rendered batch a reader recovers one envelope per item, with its type, element names, attributes and texts, for all payloads |
| EnvelopeReader.OnlyTheUserSpeaks | packages/domain/src/envelope.ts:111-165 | an envelope has the type of a user's message, or a user's email, if and only if its item is one |
| EnvelopeReader.ItemPrints | packages/domain/src/envelope.ts:112-245 | what an item renders to is its envelope printed, in every branch |
| EnvelopeReader.ReadsEnvelope | packages/domain/src/envelope.ts:95-101 | a printed envelope reads back, whatever follows it |
| Envelopes.AttachmentSaid | packages/domain/src/envelope.ts:168-191 | a saved file is given by its path and without a status, any other by its name and what became of it, and why it is not there or not transcribed is said |
| Envelopes.ReplySaid | packages/domain/src/envelope.ts:104-130 | a reply quotes its message whole up to 300 characters, else the first 300 and an ellipsis |
| Envelopes.MailSaid | packages/domain/src/envelope.ts:149-156 | a mail gives its account, message, thread and subject, and its sender by name and address where the name is known and not empty |
| Envelopes.OutcomeSaid | packages/domain/src/envelope.ts:239-244 | a task's outcome says what triggered it, and whether it was capped or cancelled |
| Envelopes.EventIffType | packages/domain/src/envelope.ts:69-221 | an event is rendered if and only if its type is two or more words of lower-case letters and underscores, each starting with a letter, with dots between |
| SiteUsage.SiteMeter.PassSite | packages/site-host/src/usage.ts:101-158 | one site in a pass: the interval since it was last counted; the month's counters, fresh in a new month, which lifts the pauses for requests and spending; over a million requests, or a database over 500 MiB, it is paused for that, and a database pause is lifted when it has shrunk; the charge is 0.3 micro-dollars a request and 0.02 a CPU millisecond, rounded; a site removed meanwhile changes nothing |
| SiteUsage.SiteMeter.Accrue | packages/site-host/src/usage.ts:89-185 | each deployed site is counted up to now, once; the ledger grows by exactly what those intervals cost; and a site is then paused for spending exactly if it is deployed and running and its owner, one of the counted sites' owners, has charges of more than ten dollars since the start of the month |
| SiteUsage.SiteMeter.PauseAllSites | packages/site-host/src/usage.ts:188-195 | exactly the deployed sites that are not paused are paused by the kill switch, and how many; the meter's invariant is kept |
| SiteUsage.SiteMeter.ResumeAllSites | packages/site-host/src/usage.ts:198-205 | exactly the sites the kill switch paused resume, and how many; the meter's invariant is kept |
| SiteUsage.PassKeeps | packages/site-host/src/usage.ts:111-135 | counted intervals tile the site's life, the month's counters are the sum since their reset, and paused holds exactly when there is a reason |
| SiteUsage.DoKeeps | packages/site-host/src/usage.ts:46-205 | every pass, spend check, kill switch and resume, with sites made, deployed and removed meanwhile, keeps the ledger equal to what the passes charged and every site in order by what they counted of it |
| SiteUsage.CountedOnceOverAnyRun | packages/site-host/src/usage.ts:123-135 | over any run of those, a site's usage counted in pieces comes to what the host says of its whole time |
| SiteUsage.LedgerIsNearOverAnyRun | packages/site-host/src/usage.ts:137-147 | over any run of those, the ledger, and what it says any user has spent, are within half a micro-dollar a pass of the exact cost |
| SiteUsage.OverTheCapIsPaused | packages/site-host/src/usage.ts:152-157 | a counted site over its request cap is left running if and only if the pass has just lifted its database pause |
| SiteUsage.SpentIsTheirs | packages/site-host/src/usage.ts:165-176 | what a user is taken to have spent is the sum of their own charges from the start of the month on |
| SiteUsage.LeftRunning | packages/site-host/src/usage.ts:152-157 | a run that leaves such a site running |
| SiteUsage.KillSwitchIsUndone | packages/site-host/src/usage.ts:188-205 | pausing all and resuming all gives back every site as it was |
| MailPages.CursorsReadBack | packages/connectors/src/winston-mail.ts:199-207 | a cursor decodes to the place it was made from |
| MailPages.PageAt | packages/connectors/src/winston-mail.ts:348-373 | the page after the first n messages, dates falling and ids falling among equal dates, is the next ones, with a cursor exactly when there are more |
| MailPages.NothingByZero | packages/connectors/src/winston-mail.ts:366-370 | a page size of zero shows nothing and offers no further page |
| MailPages.PagesPartition | packages/connectors/src/winston-mail.ts:348-373 | following cursors ends and visits every matching message exactly once, newest first, with equal dates too |

## Left out

- Transfers: base64 and JSON framing, the path rules behind `locate`, and the pipe to the helper
  process that does file operations in production; a failing queue is taken to end the write it feeds,
  as the local implementation does. A VM process that stops, and the wording of error messages.
- Job queue: `retryDelayMs` and its jitter (the delay is a parameter), the planner's choice of rows
  (any result the query allows), and two statements of one call interleaving with others, except for
  the two of `enqueue`.
- Commands: the shell script and environment that start a command, UTF-8 decoding (any incremental
  decoder), and a command whose start itself throws, which is one that never ends. Other VMs than the
  one looked at appear only through what they report.
- Refresh tokens: sealing, the events told to Winston, and other writers of the row than reconnecting,
  disconnecting and dropping the grant.
- Live views: the relayed bytes of frames and desktops, closing a page's socket, and the questions a VM
  answers (`hold`, `transfer`, `list`).
- Free slots: time zones; a calendar gives days and windows.
- Migrations: what a statement does to a database is a function; a migration that edits the record
  table itself, and creating that table, are not modelled.
- Envelopes: formatting of times, sizes and JSON; rendering of sent messages, actions and attachment
  contents, which are made of the same pieces.
- Usage: a host call that fails, the event recorded for a pause, and the route told to the host.
- Mail: which messages a filter matches; the query's ordering is taken as given.
- Configuration, HTTP routes, OAuth, providers, the web app, infrastructure and the plain state tables:
  they would add only easy members or rest on services the model cannot see.
