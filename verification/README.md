# A verified model of the communication core of afblib

afblib is a C library of small utilities for processes and networks. This project models the
parts of it in which several parties act on shared data, and proves what their documentation
promises, for all inputs, all interleavings and all runs:

- **The shared communication domain** (`shared_domain.c`). Every process owns a bounded byte
  ring in shared memory. Any number of senders and reader threads move messages of any length
  through it, with one mutex, four condition variables and two flags per ring.
  `RingBuffer.dfy` holds the ring, its copy loops as methods on a class, and what a chunk does to
  the contents. `BufferProtocol.dfy` is a step system over any number of concurrent calls:
  program counters, the owner of the mutex, sleepers, woken calls contending for the mutex,
  `notify_one` that picks any sleeper, spurious wakeups, and `sd_shutdown` at any moment. It
  contains the inductive invariant. `BufferProperties.dfy` and `BufferProgress.dfy` draw the
  conclusions, with the arguments of the calls in `BufferArguments.dfy`. `Barrier.dfy`,
  `BarrierProperties.dfy`, `BarrierWakeups.dfy`, `BarrierProgress.dfy` and
  `BarrierOvertaking.dfy` do the same for `sd_barrier`, with processes that die at any point.
  `Layout.dfy` covers the arithmetic of the shared segment.
- **The event loop** (`multiplexor.c`), in `Connections.dfy`, `EventLog.dfy` and
  `Multiplexor.dfy`: a doubly linked list of connections with output queues, changed by user
  handlers while the loop works off a snapshot of it. A log records all handler calls, polls and
  writes. `EventLog.MayFollow` says what the loop may do next: it serves what poll has reported
  completely, in order and nothing else before it sets up the next round. The code keeps every
  log orderly in this sense, and statements about whole runs are lemmas about orderly logs.
- **Record framing** (`mpx_session.c` on top of `sliding_buffer.c`), in `Framing.dfy` and
  `SlidingBuffer.dfy`: the cutting of a byte stream into records, independent of how the network
  cuts it into reads.
- **The hash table with an iterator** (`strhash.c`), in `StrHash.dfy`: chains spliced through a
  pointer to a slot, a finite map as their meaning, and an iterator that goes on while the table
  changes.

`Bytes.dfy` holds bytes and concatenation, `Sums.dfy` sums of a measure over a sequence.

## What is assumed

- `bufsize` is positive (`shared_rts.c:183` enforces it), each process has at most one caller in
  `sd_barrier`, and operations on mutexes and condition variables do not fail, except that in the
  barrier the robust mutex reports a dead owner.
- Buffers share nothing but the flag `terminating`, so one buffer is modelled at a time, with an
  `sd_shutdown` that may start and visit it at any moment.
- The regular expression is any function from the unread bytes to match, partial or no match. A
  match is not empty, and neither a match nor the absence of one changes when more bytes follow,
  which is what PCRE_PARTIAL_HARD is for.
- User handlers of the event loop use links of the list only, call `read_from_link` at most once,
  on their own link and in the input handler only, and do not use a link after a read that
  returned no input. Within this contract they may do anything. What `poll`, `accept`, `read`,
  `write`, `malloc` and `realloc` return is an arbitrary parameter (`Multiplexor.Answers`), except
  that `accept` does not return the listening descriptor and `poll` reports POLLIN and POLLOUT only
  where they were asked for.
- The hash function is any function from keys to numbers.

## Where code and documentation differ

The model follows the code.

- `shared_domain.c:89-92` says that a caller of `sd_barrier` is suspended until all have called
  it, which suggests that it then continues. A process that comes back to the barrier before an
  earlier waiter has looked at `sync_count` sets it again (`shared_domain.c:511-512`), and that
  waiter goes back to sleep (519). `BarrierProperties.OvertakingDeadlock` is a run of two healthy
  processes in which both sleep for ever. `BarrierOvertaking.OvertakenIff` says which step does
  this to a waiter, and `BarrierOvertaking.StuckIffOvertaken` that a call in which all have
  arrived does not return if and only if such a step was taken. Safety is not affected.
- `mpx_session.c:93-95` says that after `close_session` no further input packets will be
  processed. Nothing here contradicts this if a packet is what one read returns, as in
  `multiplexor.c:98-99`. If it is a record, the code does otherwise: records that are already in
  the buffer are still handled (243-257), so that the outcome depends on the network.
  `Framing.ClosingDependsOnTheNetwork` is an example. `Framing.NoneAfterCloseIff` says that nothing
  is handled after a closing record, however the input is cut into reads, if and only if the
  handler closes at none of the records of the input but the last one.
- `multiplexor.c:110-112` says that the input handler is no longer called after `close_link`.
  If another handler closes a link in the round in which POLLIN was reported for it, its input
  handler is still called (311-313); `Multiplexor.LateInput` is an example.
  `EventLog.CalledAfterShutIff` says that a link closed during a round is called in that round if
  and only if its input has been reported and its handler was not called before, and
  `EventLog.NoInputAfterShut` that it is not called after the next call of `setup_polls`.
- `strhash.c:68-69` says that `strhash_length` returns the number of entries; `strhash_remove`
  (157-164) does not decrement it. `StrHash.LengthAfterRemove` is an example, and by
  `StrHash.LengthIsCountIff` and `StrHash.LengthAfterAnyCalls` the number is right if and only if
  no `strhash_remove` has succeeded.

## Model

| member | source | states |
|---|---|---|
| `BufferProperties.StreamRefinement` | shared_domain.c:553-587 | In every reachable state of any run with any number of writers and readers: all bytes ever copied in are all bytes ever copied out followed by the ring contents; the first are whole messages, as they were passed to sd_write, in the order of the turns and a prefix of the last one, the second the completed reads and a last partial one. Writes never mix (80-87). |
| `BufferProperties.TrueMeansAll` | shared_domain.c:585-591 | A call that returns true has moved exactly the nbytes of its invocation, a writer the very bytes it was called with, and has had its place in the order of turns. |
| `BufferProperties.FalseMeansShutdown` | shared_domain.c:536-571 | A call returns false only after terminating was set, and never with nbytes 0. |
| `BufferArguments.ArgumentsAlways` | shared_domain.c:534-593 | In every state of a run the calls are exactly the invocations so far, with their role, length and bytes. |
| `BufferArguments.CallIsBegun` | shared_domain.c:534-539 | The call begun by an invocation keeps its role, length and bytes ever after, and is late exactly if terminating was set when it was made. |
| `BufferProperties.FramedReads` | shared_domain.c:619-649 | If reads ask for the lengths of the messages in the order of turns, the k-th completed read holds exactly the bytes passed to the k-th sd_write, also for messages larger than the ring. |
| `BufferProperties.NoLostWakeups` | shared_domain.c:553-588 | Whenever the mutex is free: a writer asleep for space means a full ring, a reader asleep for data an empty one, and a call asleep for its turn means the flag is set or another one has been woken. |
| `BufferProperties.StuckIsBlocked` | shared_domain.c:610-645 | When no call can go on, an unfinished write implies a full and an unfinished read an empty ring. |
| `BufferProperties.NoDeadlock` | shared_domain.c:610-645 | With an unfinished write and an unfinished read some call can step, although only notify_one is used. |
| `BufferProperties.NobodySleepsAfterShutdown` | shared_domain.c:672-680 | Once sd_shutdown has visited the buffer nobody is asleep on it, in any later state. |
| `BufferProperties.WokenOrLateCallsFail` | shared_domain.c:538-571 | Every call that sd_shutdown woke from a wait, and every nonempty call begun after the flag was set, returns false. |
| `BufferProperties.LostNeverSucceeds` | shared_domain.c:538-571 | Once terminating is set, a nonempty call that has not begun, waits for the mutex, has not tested the flag under it, sleeps or was woken but has not tested the flag again never returns true. |
| `BufferProperties.ShutdownDrains` | shared_domain.c:651-682 | After terminating is set, if neither a call nor sd_shutdown can go on, the buffer was visited and every call has returned. |
| `BufferProgress.BoundedWork` | shared_domain.c:566-584 | Between new calls and spurious wakeups a run takes at most Variant steps; no schedule makes the calls wake each other for ever. |
| `BufferProgress.BalancedTrafficCompletes` | shared_domain.c:566-588 | When nothing can go on and readers asked for as many bytes in all as writers, in whatever portions, every call has returned true. |
| `BufferProtocol.NextKeepsInv` | shared_domain.c:534-649 | Every step of a call, a spurious wakeup, a new call and every step of sd_shutdown keeps the invariant that ties flags, sleepers, turns, streams and ring together. |
| `BufferProtocol.InvAlways` | shared_domain.c:534-649 | The invariant holds in every state of every run. |
| `BufferProtocol.InvIsSane` | shared_domain.c:572-582 | Where the invariant holds, the memcpy of any step that can be taken stays within the ring and the caller's buffer. |
| `RingBuffer.CopyInAppends` | shared_domain.c:572-582 | A chunk copied in at write_index, wrapping, is appended to the contents; indices and filled stay in range and consistent. |
| `RingBuffer.CopyOutTakes` | shared_domain.c:630-640 | A chunk copied out at read_index, wrapping, is the front of the contents, and the rest stays. |
| `RingBuffer.WriteCount` | shared_domain.c:572-578 | The three-way minimum is at least one while the writer need not wait, and stays inside the payload and the message. |
| `RingBuffer.ReadCount` | shared_domain.c:630-636 | The same for the reader. |
| `RingBuffer.WriteProgress` | shared_domain.c:579-582 | One chunk extends what has been appended of the source by exactly that chunk. |
| `RingBuffer.ReadProgress` | shared_domain.c:637-640 | One chunk moves the front of the ring behind what was already read, and touches nothing else of the destination. |
| `RingBuffer.SharedBuffer.WriteUntilFull` | shared_domain.c:566-584 | The loop between two waits appends exactly the bytes it has counted and ends with the message or with a full ring. |
| `RingBuffer.SharedBuffer.ReadUntilEmpty` | shared_domain.c:624-642 | The loop between two waits takes exactly the bytes it has counted from the front and ends with the request or with an empty ring. |
| `RingBuffer.SharedBuffer.WriteChunk` | shared_domain.c:572-582 | One memcpy with its index updates is CopyIn of the next bytes. |
| `RingBuffer.SharedBuffer.ReadChunk` | shared_domain.c:630-640 | One memcpy with its index updates is CopyOut of the next bytes. |
| `BarrierProperties.BarrierSafety` | shared_domain.c:488-532 | When the k-th sd_barrier of a process returns true, every process has made exactly k arrivals, over any number of rounds, with deaths, shutdown, spurious wakeups and re-entry. |
| `BarrierProperties.LostNeverSucceeds` | shared_domain.c:490-531 | A process that has failed once, has found a dead owner, has not yet decided when sync_count is -1, has not yet tested terminating when it is set or waits then, or was overtaken never returns true again; nor does anybody when the mutex can no longer be locked. |
| `BarrierProperties.FalseMeansDoomed` | shared_domain.c:490-531 | A call returns false only if sd_shutdown was called, sync_count is -1 or the mutex can no longer be locked. |
| `BarrierWakeups.WokenAlways` | shared_domain.c:500-517 | In every run, whoever dies: when sync_count is 0 or negative and the mutex is sound, and its holder is not just about to notify, nobody is asleep. |
| `BarrierWakeups.SleeperHasReason` | shared_domain.c:516-521 | Whenever the mutex is free, a sleeper waits for arrivals that are still missing. |
| `BarrierWakeups.StuckSleeper` | shared_domain.c:496-521 | If nobody can go on, somebody sleeps only for missing arrivals, or because a dead owner of the mutex was found by nobody or only by a waiter. |
| `BarrierWakeups.NobodySleepsAfterFailure` | shared_domain.c:497-504 | Once a caller has found a dead owner and has let go of the mutex, nobody is or falls asleep in the barrier. |
| `BarrierWakeups.DeadOwnerIsFatal` | shared_domain.c:493-505 | A caller that finds a dead owner, when locking or when waking up, never returns true again. |
| `BarrierProperties.NobodySleepsAfterShutdown` | shared_domain.c:669-671 | Once sd_shutdown has visited the header nobody is asleep in the barrier, in any later state. |
| `BarrierProperties.StuckWaiter` | shared_domain.c:518-522 | Without shutdown and deaths, a process that is stuck in its k-th call waits for one that has not made its k-th arrival, or has been overtaken. |
| `BarrierProperties.OvertakingDeadlock` | shared_domain.c:511-519 | A run of two healthy processes in which a re-entry leaves both asleep for ever: the documented promise (89-92) does not hold for progress. |
| `BarrierOvertaking.OvertakenIff` | shared_domain.c:511-519 | In any run, a step makes a waiter overtaken if and only if another process finds sync_count at 0 and sets it while the waiter has not yet looked. |
| `BarrierOvertaking.StuckIffOvertaken` | shared_domain.c:511-522 | Without shutdown and deaths, when nobody can go on and all have made their k-th arrival, the k-th call of a process has not returned if and only if another one set sync_count again while it was waiting in that call. |
| `BarrierProgress.BoundedWork` | shared_domain.c:488-532 | Between new calls and spurious wakeups a run of the barrier takes at most Variant steps, whoever dies or shuts down, and so ends in a state in which nobody can go on. |
| `Barrier.NextKeepsInv` | shared_domain.c:488-532 | Every step keeps the invariant: sync_count is N times the round minus all arrivals while it is not negative. |
| `Barrier.InvAlways` | shared_domain.c:488-532 | The invariant holds in every state of every run. |
| `Barrier.AllReached` | shared_domain.c:511-516 | If nobody is ahead of the round and all arrivals add up to N rounds, everybody has arrived in this round. |
| `Layout.MaskClearsLowBits` | shared_domain.c:192-194 | And with the complement of 2^k - 1, bit by bit, subtracts the remainder modulo 2^k. |
| `Layout.AlignToIsLeastMultiple` | shared_domain.c:192-194 | For a power of two the bit trick gives the least multiple not below size if and only if the addition does not overflow size_t, and 0 otherwise. |
| `Layout.SegmentIsLaidOut` | shared_domain.c:196-213 | Without overflow, header, buffers, payloads and extra space lie in this order without overlap inside the mapped size, each aligned. |
| `Layout.SetupKeepsParameters` | shared_domain.c:287-382 | Header and domain carry nofprocesses, bufsize and the extra size they were set up with; exactly the ids below nofprocesses have a buffer, each with a payload of bufsize bytes; there is extra space exactly if asked for, of this size and at the offset in the header. |
| `Layout.ConnectorAgrees` | shared_domain.c:393-445 | A connector succeeds exactly for a rank below nofprocesses while the domain is not terminating, and then has the offsets of the creator (287-293, 343-382) from the header alone. System calls are taken to succeed. |
| `Multiplexor.RunMultiplexor` | multiplexor.c:281-323 | For all answers of the system and all handlers within the contract: the log of the run is orderly; every round is complete and answers what poll reported; every queue is conserved; a link closed without a write failure has been sent everything; when the loop finishes every connection has been closed. |
| `Multiplexor.Multiplexor.Run` | multiplexor.c:302-319 | As many rounds as there are answers, each of them complete, unless the socket has failed and the list is empty, poll fails or memory runs out. |
| `Multiplexor.Multiplexor.Round` | multiplexor.c:302-318 | Unless something fails: poll is called once, all it reports is served, accept has led to a new connection or to giving up the socket exactly if there was an event on it, and links that were done before are gone or were polled for new output. |
| `Multiplexor.Multiplexor.Await` | multiplexor.c:303-318 | The report that is served is the answer of poll: exactly the links it was asked about and that are ready. |
| `EventLog.RoundIsServed` | multiplexor.c:304-318 | In an orderly log, before the next call of setup_polls exactly the links with reported input have got a call of their input handler, and exactly those reported to be writable have been written to. |
| `EventLog.LifeCycle` | multiplexor.c:157-172 | In an orderly log the open handler of a connection is called first and once, the close handler last and at most once. |
| `EventLog.GoneIffClosed` | multiplexor.c:157-172 | An accepted connection has left the list exactly if its close handler was called. |
| `EventLog.ClosedWhenDone` | multiplexor.c:185-276 | A link is closed without a write failure only at end of file and without pending output. |
| `EventLog.NoInputAfterShut` | multiplexor.c:207-214 | After close_link and a further call of setup_polls the input handler is never called for the link. |
| `EventLog.OncePerSnapshot` | multiplexor.c:302-313 | Between two calls of the input handler for a link poll has been called. |
| `EventLog.CalledAfterShutIff` | multiplexor.c:304-313 | In the round of a call of close_link the input handler of the link is still called afterwards if and only if its input was reported and it was not called before. |
| `Multiplexor.LateInput` | multiplexor.c:304-318 | Two links are accepted, polled and have input; the input handler of the first reads and closes the second; the dispatch loop then calls the input handler of the second, against 110-112. |
| `Multiplexor.Multiplexor.CleanlyClosed` | multiplexor.c:185-278 | Closed without a write failure means end of file was reached and all that was passed to write_to_link has been sent. |
| `Multiplexor.Multiplexor.AllServed` | multiplexor.c:176-216 | With an empty list every connection there ever was has been closed and, unless a write failed, been sent everything. |
| `Multiplexor.Multiplexor.ReportIsAnswer` | multiplexor.c:196-303 | What poll reports on the snapshot is what it was asked about and is ready, each link at most once. |
| `Multiplexor.Multiplexor.SnapshotIsPending` | multiplexor.c:196-216 | Right after poll, every polled entry is a different live link, writable only if it has output. |
| `Multiplexor.Multiplexor.ServedIsVisited` | multiplexor.c:304-318 | Whatever serving one entry does within its contract, the entries not yet visited remain live links, and those polled for output keep a nonempty queue. |
| `Multiplexor.Multiplexor.Visit` | multiplexor.c:304-318 | An entry with an event leads to accept, or to the input handler and the write that were reported for it; nothing else is called, and the rest of the snapshot stays valid. |
| `Multiplexor.Multiplexor.Dispatch` | multiplexor.c:304-318 | The whole scan: every reference is live when it is used, and all that was reported has been served, once each and in order. |
| `Multiplexor.Multiplexor.Serve` | multiplexor.c:310-316 | The input handler cannot take the link or its output away from the write that follows; if write accepts bytes they are sent, otherwise the link is removed. |
| `Multiplexor.Multiplexor.WriteToSocket` | multiplexor.c:259-279 | Needs a live link with output. Exactly as many bytes as write accepts leave the queue, or it fails and the link is removed; after a success it is removed exactly if it is at end of file with nothing left. |
| `Multiplexor.Multiplexor.ReadFromLink` | multiplexor.c:248-256 | Returns what read returns, or 0 at end of file; the link is removed exactly at a first end of file with an empty queue; queue and sent bytes never change. |
| `Multiplexor.Multiplexor.InputHandler` | multiplexor.c:311-313 | Any handler within the contract: the other links stay, no queue is emptied, its own link leaves only if it had no output. |
| `Multiplexor.Multiplexor.RemoveLink` | multiplexor.c:157-172 | Removal at head, middle or tail leaves the list of the others in order; the close handler runs once the link is out of the list. |
| `Multiplexor.Multiplexor.Unlink` | multiplexor.c:159-168 | The pointers represent the sequence without this one element. |
| `Multiplexor.Multiplexor.AddConnection` | multiplexor.c:220-245 | A link with the accepted descriptor is at the end of the list and its open handler is called; or accept has failed and the socket is given up; or malloc has failed and nothing is changed. |
| `Multiplexor.Multiplexor.SetupPolls` | multiplexor.c:176-216 | The arrays hold the listening socket and all links in order and are never exceeded; links that were done are gone or have new output; with memory, 0 means that accepting has failed and no link is left. |
| `Multiplexor.Multiplexor.Weed` | multiplexor.c:180-187 | Every link at end of file with an empty queue is removed unless a close handler has given it new output meanwhile. |
| `Multiplexor.Multiplexor.WriteToLink` | multiplexor.c:325-341 | A nonempty buffer is appended to the queue or, exactly without memory, nothing changes; an empty one always succeeds. |
| `Multiplexor.Multiplexor.CloseLink` | multiplexor.c:343-346 | Marks end of file and keeps everything else. |
| `Framing.DeliveryIsTokens` | mpx_session.c:231-263 | For every stable matcher, every handler and every way to cut the stream into reads: the records handled are the greedy tokenisation of the bytes read, the window is the rest, and the session is closed exactly by an unmatchable rest or a record. |
| `Framing.ChunkIndependence` | mpx_session.c:231-263 | If the handler never closes, the delivery does not depend on how the input is cut into reads. |
| `Framing.NoneAfterCloseIff` | mpx_session.c:243-257 | However the input is cut into reads, no record is handled after one that closes the session, if and only if the handler closes at none of the records of the input but the last. |
| `Framing.AllDelivered` | mpx_session.c:243-257 | Under this condition all ways to cut the input deliver all of its records. |
| `Framing.SplitsAgreeIff` | mpx_session.c:243-257 | All ways to cut the input deliver the same records if and only if no prefix on which the handler closes falls short of a record. |
| `Framing.ClosingDependsOnTheNetwork` | mpx_session.c:243-257 | Two records in one read are both handled although the first closes the session, against 93-95; in two reads only one is. |
| `Framing.TokensExtend` | mpx_session.c:243-257 | Tokenising a prefix, keeping the rest and going on equals tokenising the whole. |
| `Framing.TokensAreTheInput` | mpx_session.c:249-256 | Records and rest are the input; nothing is lost or repeated. |
| `Framing.SessionState.Input` | mpx_session.c:226-263 | One call of the input handler on the real buffer, across shift and growth, reads a prefix of what is pending and is the step Feed. |
| `Framing.SessionState.Records` | mpx_session.c:239-262 | The loop delivers the tokenisation of the window and leaves the rest. |
| `Framing.SessionState.Serve` | mpx_session.c:226-263 | All calls for a whole stream, however it arrives: if the handler closes at no record but the last, the requests are exactly the tokenisation of the stream. |
| `SlidingBuffer.SlidingBuffer.Ready` | sliding_buffer.c:72-93 | On the reset, both shift paths and the growth path the window is kept and minspace bytes are free; it fails only without memory when no shift helps. |
| `SlidingBuffer.SlidingBuffer.Append` | sliding_buffer.c:40-45 | The window is everything appended without what has expired. |
| `SlidingBuffer.SlidingBuffer.Expire` | sliding_buffer.c:44-45 | Raising offset takes exactly the front off the window. |
| `StrHash.ReturnedExactlyOnce` | strhash.c:187-211 | Whatever is added or removed between the calls of strhash_next, a key present throughout is returned at most once, and exactly once when strhash_next has returned 0. |
| `StrHash.UnmodifiedEnumerates` | strhash.c:187-211 | On an unmodified table the iteration ends and returns exactly the keys, each once. |
| `StrHash.FoundAtHome` | strhash.c:117-125 | A key is in the table exactly if it is in the chain of its hash. |
| `StrHash.TableAdd` | strhash.c:148-151 | Appending to the home chain represents the map with the new pair; keys stay unique and in the chain of their hash. |
| `StrHash.TableRemove` | strhash.c:160-161 | Cutting an entry out of its chain represents the map without its key. |
| `StrHash.AddKeepsIteration` | strhash.c:148-152 | An addition leaves the iterator valid and what is still to come unchanged but for the new key. |
| `StrHash.RemoveIteration` | strhash.c:160-162 | A removal leaves the iterator usable exactly if the entry is not the one it points to, and then takes just this key from what is still to come. |
| `StrHash.StrHash.Find` | strhash.c:117-125 | The returned slot points to the entry with the key or is the end of its chain; success if and only if the key is in the map. |
| `StrHash.StrHash.Exists` | strhash.c:172-176 | Membership in the map. |
| `StrHash.StrHash.Lookup` | strhash.c:179-184 | The value of the map, or failure with the caller's value unchanged. |
| `StrHash.StrHash.Add` | strhash.c:142-154 | The map with the new pair and length one more, refused for a present key or without memory, then with nothing changed; a running iteration goes on. |
| `StrHash.StrHash.Remove` | strhash.c:157-164 | The map without the key, false if there is none; a running iteration goes on exactly unless its next entry was removed; length stays. |
| `StrHash.StrHash.Start` | strhash.c:187-190 | All keys of the map are to come, each once. |
| `StrHash.StrHash.Next` | strhash.c:193-211 | Returns the first key still to come; 0 exactly if there is none. |
| `StrHash.LengthIsCountIff` | strhash.c:166-169 | length is the number of entries if and only if no strhash_remove has succeeded, and never less. |
| `StrHash.LengthAfterRemove` | strhash.c:157-169 | A table with one key added and removed is empty and has length 1. |
| `StrHash.LengthAfterAnyCalls` | strhash.c:142-169 | After any additions and removals on a new table, length exceeds the number of entries by the number of successful removals. |
| `StrHash.Enumerate` | strhash.c:187-211 | The iteration of an unmodified table ends and has returned exactly the keys of the map, each once. |
| `StrHash.IterateWhileChanging` | strhash.c:142-211 | Any additions, and any removals but of the very next key, between the calls of strhash_next: when 0 is returned, every key present throughout was returned exactly once. |

## Left out

- `BufferProtocol.NextKeepsInv`: does not model the death of a process in `sd_write` or `sd_read` (`shared_domain.c:542-548`), after which the code deliberately leaves the buffer as it is, nor the check of the recipient (537), which touches no state.
- `BarrierOvertaking.StuckIffOvertaken`: says nothing of runs with deaths or shutdown, for which the documentation advises against barriers; safety and the bound on the work cover them.
- `Layout.SegmentIsLaidOut`: takes sizes and alignments of the structures as parameters and covers sums below the limit of ptrdiff_t; what happens beyond is described for `alignto` only.
- `EventLog.NoInputAfterShut`: is about the time after the next call of setup_polls; the round in which the link is closed is described by `CalledAfterShutIff`.
- `Multiplexor.Multiplexor.SetupPolls`: does not model the pollfds pointer after a failed realloc, since the event loop returns at once.
- `Multiplexor.Multiplexor.Run`: takes the answers of the system for any finite number of rounds; the fields handle and mpx_handle, signal dispositions and the bytes read are not modelled, and freed links stay in memory as unreachable objects.
- `Framing.SessionState.Input`: only reads of at least one byte; at end of file the link may be gone before the records are processed.
- `StrHash.IterateWhileChanging`: excludes the removal of the key that comes next, after which the iterator refers to an entry that is gone (`RemoveIteration`).
- Mutexes and condition variables themselves (`shared_mutex.c`, `shared_cv.c`), with their signal masks and the workaround for macOS: they are given by the behaviour that POSIX promises.
- Creating, mapping and unlinking the file behind a domain, and undoing this after an error: this is the operating system's work, and no process shares the domain yet.
- PCRE set-up, `mpx_session_scan` and the printf functions of `mpx_session.c`: they depend on what the libraries behind them do.
- `compute_hash` and `strhash_free`: nothing depends on which hash function is used, and memory is not given back in the model.
- `udp_session.c` and `inbuf_scan.c`: retransmission over datagrams and scanning with a regular expression are separate from the streams modelled here.
- `service.c`, `mt_service.c`, `preforked_service.c`, `pconnect.c`, `ssystem.c`, `transmit_fd.c`, `shared_rts.c`: they start processes and threads and hand descriptors to them, and hold no shared data of their own.
- `inbuf.c`, `outbuf.c`, the readline files, `strlist.c`, `tokenizer.c` and `hostport.c`: sequential code without shared state.
