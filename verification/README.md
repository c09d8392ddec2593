# Verified model of the lock library

The library offers several user-level locks (test-and-set, priority, ticket, MCS), variants of them
that speculate or elide in hardware transactions, and two condition variables.  This project models
its concurrent algorithms and proves what they keep over every interleaving of any number of threads.

How a protocol is modelled:

- The words and records a thread updates in place are classes (`CondVar`, `TicketLock`, `TasLock`,
  `McsThread`, `TxCond`), each method proved against a function on values or stating the whole new
  state.
- The interleavings are a state machine: `Enabled` and `Step` say what one atomic step of one thread
  does, `At(s, es, n)` is the state after the first `n` events of a run, `Inv` is an invariant kept by
  every step, and the guarantees are statements about every reachable state or every run.
- History that the code does not have (who joined when, how often something happened) is kept beside
  the state; each datatype's comment names the parts no step tests.

| files | subject |
|---|---|
| `Common`, `Runs` | word arithmetic, finite sets, linked lists as sequences; induction over runs |
| `CondCounters`, `CondProtocol`, `CondGuarantees` | sequence-counter condition variable (`pthread_cond.c`) |
| `TasWord`, `PriorityLock` | test-and-set word and priority lock (`txlock.c`) |
| `Ticket` | ticket lock with wrapping 32-bit tickets (`txlock.c`) |
| `Htm`, `Elision` | transactional memory; the elided test-and-set lock (`txlock.c`) |
| `Speculation`, `TasSpeculation`, `TicketSpeculation` | the prefetching `_tm` locks (`txlock.c`, `txutil.h`) |
| `McsLists`, `McsProtocol`, `McsGuarantees` | MCS queue lock with recycled nodes (`txlock.c`) |
| `Lcg`, `TxQueue` | the generator and the fairness of the semaphore queue (`txcond.c`) |
| `TxCondQueue`, `TxNodes`, `TxNodeGuarantees` | the linked waiter queue and who frees its nodes (`txcond.c`) |

## Assumptions

- Atomic steps are sequentially consistent; the stretches under the internal lock of
  `pthread_cond.c` and under `ul_lock` are one step each.  `ul_lock` is the loop of the plain
  test-and-set lock, whose mutual exclusion is `TasSpeculation.PlainExclusive`; the internal lock of
  `pthread_cond.c` is taken as ideal.
- The 64-bit sequence counters of `pthread_cond.c` do not wrap.  Its 32-bit words do, and are
  modelled with wrap-around.  `Timely` is the condition under which they are still conclusive: fewer
  than 2^32 futex changes between a sample and going to sleep on it, and fewer than 2^32 broadcasts
  between registering and looking again.  `StaleSample` says exactly when a sample is mistaken for a
  current one.
- A wait of `pthread_cond.c` may return inside a transaction (line 715).  Its guarantees are stated for
  setups in which no such wait is committed: waits do not speculate (`TM_COND_VARS` is false or there are
  no tries), or the user mutex's unlock ends no transaction.  The elided lock's unlock does end one
  (`txlock.c:139-142`), and `TM_COND_VARS` is true by default.  `CountsHoldExactly` shows that the
  condition is exact, and `CommittedWaitLeaks` gives the run that goes wrong.  Such a commit also comes
  without the lock word in the read set, so `Elision.Serializable` does not speak of it.
- The kernel wakes at least one thread parked on the futex when a signal asks for one, and may wake
  any number; threads also leave the futex for no reason.
- The ticket lock is used by at most 2^32 threads (`ThreadBound` shows that this is exactly what it
  bears), the priority lock by fewer than 2^15, and `nwaiters` is read back for fewer than 2^31 waiters.
- Hardware transactions have a read log and a write buffer.  An abort restores the checkpoint and can
  come at any time; a commit needs the log to agree with memory and takes effect at once.  Inside a
  transaction a thread may see any mixture of old and new values.

One place where the code is not what it looks like: the futex call of `__pthread_cond_timedwait` is
`syscall` (line 298), which reports errors as -1 and in `errno`, so the comparison with `-ETIMEDOUT`
(line 1079) never holds and a timed wait ends at the deadline test (line 1043).  The model lets `err` be
any value and so covers both.

## Model

| member | source | states |
|---|---|---|
| CondCounters.CondVar.Init | pthread_cond.c:545-565 | all counters start at 0 and the lowest bit of `nwaiters` holds the clock |
| CondCounters.CondVar.Enter | pthread_cond.c:953-1051 | registering: rejected calls leave no trace, an already expired one is counted in and out again, any other is given its sequence number, generation and futex sample (also lines 664-708) |
| CondCounters.CondVar.Recheck | pthread_cond.c:1066-1107 | the tests after the futex call, case by case in the fields: a broadcast since, a wakeup pending, a deadline reached, or none of these; and the updates each makes (also lines 728-755) |
| CondCounters.CondVar.Signal | pthread_cond.c:797-814 | a signal moves `wakeup_seq` and the futex word exactly when somebody has not been woken |
| CondCounters.CondVar.Broadcast | pthread_cond.c:853-867 | an effective broadcast brings all counters to `total_seq`, doubles it into the futex word and starts a generation |
| CondCounters.Expired | pthread_cond.c:1033-1043 | the borrowed-nanoseconds test is exactly "deadline before now" |
| CondProtocol.TimelyTests | pthread_cond.c:722-733 | in time, nobody parks on an old sample, and the 32-bit comparison of generations decides whether a broadcast came between |
| CondProtocol.WordsStep | pthread_cond.c:676-678 | every step keeps the futex word equal to `total_seq + wakeup_seq`, `broadcast_seq` to the generation and `nwaiters` to the registered threads, all modulo 2^32 |
| CondProtocol.InvStep | pthread_cond.c:664-903 | every step of wait (with its speculative return and rollback), timed wait, signal, broadcast and wake-all keeps the invariant |
| CondProtocol.InvRun | pthread_cond.c:664-1116 | the invariant holds throughout every run |
| CondGuarantees.CounterOrder | pthread_cond.c:1082-1093 | `woken_seq <= wakeup_seq <= total_seq` although the timeout path does not compare; `total_seq - woken_seq` is the number of waiters of the present generation; the futex word agrees; `nwaiters` counts the registered |
| CondGuarantees.FutexMoves | pthread_cond.c:800-864 | the futex word moves forward at registrations, effective signals and broadcasts and timeouts, and at nothing else |
| CondGuarantees.StaleSample | pthread_cond.c:705-723 | a thread can park on its sample exactly when the word has made whole turns since |
| CondGuarantees.TimesOutExactly | pthread_cond.c:1066-1090 | in every reachable state a waiter that looks again counts a timeout exactly when no broadcast has come since it registered, no wakeup is there for it, it has a deadline, and the futex call or the clock says that it has passed |
| CondGuarantees.WaitsOnExactly | pthread_cond.c:1033-1079 | it waits on exactly when no broadcast has come, no wakeup is there for it, and it has no deadline or has not reached it |
| CondGuarantees.TakesWakeupExactly | pthread_cond.c:728-741 | it takes a wakeup that was sent exactly when no broadcast has come and one is pending that came after it registered |
| CondGuarantees.PendingHasConsumers | pthread_cond.c:694-741 | at least as many waiters may take a wakeup as wakeups are pending |
| CondGuarantees.SignalWakes | pthread_cond.c:800-814 | an effective signal sends the sleepers it wakes, any of them and no other thread, to look again; an ineffective one changes nothing |
| CondGuarantees.BroadcastWakes | pthread_cond.c:855-900 | an effective broadcast owes a wake-all, after which nobody sleeps; any other is over at once |
| CondGuarantees.ThreadsCanMove | pthread_cond.c:664-903 | whatever a thread is doing it has a step of its own to take |
| CondGuarantees.QuietSleeps | pthread_cond.c:705-728 | a waiter goes to sleep when nothing has changed since its sample, and one of the present generation looks again whenever it wakes |
| CondGuarantees.NoStrandedWakeup | pthread_cond.c:703-741 | while no wake-all is due, at least as many of those waiters are awake, and none of them can park before it has looked again |
| CondGuarantees.NoLostWakeup | pthread_cond.c:738-741 | at rest no wakeup is left over, and a signal is effective exactly when somebody sleeps |
| CondGuarantees.BroadcastReleases | pthread_cond.c:731-733 | a waiter leaves because of a broadcast exactly when one took effect after it registered |
| CondGuarantees.NoneAsleepKept | pthread_cond.c:896-898 | a wake-all leaves nobody of an older generation asleep, and no step puts such a waiter to sleep |
| CondGuarantees.BroadcastComplete | pthread_cond.c:855-900 | after an effective broadcast and a later wake-all nobody who was waiting then is ever asleep again |
| CondGuarantees.CountersTally | pthread_cond.c:800-803 | the counters are the tally of signals, timeouts and wakeups since the last effective broadcast |
| CondGuarantees.CommittedWaitLeaks | pthread_cond.c:713-720 | when a speculative return is committed, a run of three steps leaves everybody at rest with a waiter counted that is not there |
| CondGuarantees.AttemptsBounded | pthread_cond.c:709-722 | in every run one wait enters a transaction at most as often as it has tries, and never when waits do not speculate |
| CondGuarantees.CountsHoldExactly | pthread_cond.c:713-720 | the counters count the waiters in every run exactly when waits do not speculate or unlocking the user mutex ends no transaction |
| CondGuarantees.WakeupsConserved | pthread_cond.c:675-745 | waits that return because of signals never outnumber the effective signals of the generation, and equal them at rest |
| Ticket.TicketLock.TakeTicket | txlock.c:296 | fetch-and-add on a wrapping word |
| Ticket.TicketLock.TrySwap | txlock.c:305-317 | the 64-bit swap succeeds exactly when both words are the value read; it then takes a ticket and leaves `now`, and otherwise changes nothing |
| Ticket.TicketLock.StoreNow | txlock.c:319-320 | the second half of `now++`: only `now` is written, with the loaded value plus one |
| Ticket.InvStep | txlock.c:294-323 | every step keeps ticket numbers, owner and history in order |
| Ticket.TicketLockSafe | txlock.c:287-323 | `next - now` counts the outstanding tickets modulo 2^32, one owner at most, the value loaded by unlock is still there at its store, and ownership follows ticket order |
| Ticket.TryLockOwns | txlock.c:305-314 | a successful trylock found no ticket out and owns at once |
| Ticket.TryLockExactly | txlock.c:305-317 | in every reachable state a trylock succeeds, and owns at once, exactly when `now` is still the value it read and no ticket is out; otherwise it changes nothing |
| Ticket.UnlockServes | txlock.c:319-320 | unlock gives back the owner's ticket and no other, and serves the next |
| Ticket.HeadCanEnter | txlock.c:294-303 | while tickets are out somebody owns the lock or finds its ticket being served |
| Ticket.LooksFree | txlock.c:307-311 | the lock looks free exactly when the outstanding tickets are a multiple of 2^32 |
| Ticket.FullTurnBreaks | txlock.c:307-311 | the run in which a trylock held up for 2^32 tickets takes an owned lock |
| Ticket.ThreadBound | txlock.c:287-323 | no run has two owners exactly when there are at most 2^32 threads |
| TasWord.TasLock.Swap | txlock.c:74-76 | the atomic exchange in `tatas` |
| TasWord.TasLock.Tatas | txlock.c:74-76 | undisturbed, `tatas` fails on a held lock and takes a free one |
| TasWord.TasLock.Snapshot | txlock.c:205 | the whole word is loaded at once |
| TasWord.TasLock.PriorityTry | txlock.c:262-274 | undisturbed, the priority lock's trylock fails on a held lock and while somebody is announced, and otherwise takes it |
| TasWord.TasLock.AddReady | txlock.c:217-219 | the addition to the 16-bit `ready` |
| TasWord.TasLock.Release | txlock.c:99-100 | the release sets `val` to 0 and leaves `ready` |
| PriorityLock.InvStep | txlock.c:198-282 | every step keeps `ready` equal to the number of threads between increment and decrement, one owner at most, and `val` set exactly while there is one |
| PriorityLock.PriorityLockSafe | txlock.c:198-282 | the same throughout every run of fewer than 2^15 threads |
| PriorityLock.UnlockFrees | txlock.c:217-219 | an unlock leaves the lock free, and the next test and swap of any announced thread take it (also lines 276-282) |
| PriorityLock.ThreadsCanMove | txlock.c:198-282 | whatever a thread is doing it has a step of its own to take |
| PriorityLock.TryAlone | txlock.c:260-274 | undisturbed, the interleaved trylock takes the lock exactly when it is free and nobody is announced, and changes nothing otherwise |
| PriorityLock.LockAlone | txlock.c:198-221 | undisturbed, so does the fast path of lock; otherwise it goes on to decide whether to announce itself |
| PriorityLock.AnnouncesExactly | txlock.c:211-221 | a thread announces itself exactly when fewer than the window are announced, is counted until it owns the lock, and leaves the count as it was |
| PriorityLock.BoundedOvertaking | txlock.c:204-221 | while one thread stays announced every other thread makes at most one fast-path acquisition, and none unless it held an older snapshot |
| Htm.TxReadMeans | txlock.c:109-148 | a transactional read is a plain read of any memory that agrees with the read log, with the buffered writes made |
| Elision.TxStepReplays | txlock.c:109-148 | in any memory that agrees with its read log a section alone would have got as far as the transaction did |
| Elision.InvStep | txlock.c:109-148 | every step keeps the lock word set exactly while one thread runs the fallback section, every transaction consistent with what it read, and the serial history |
| Elision.Serializable | txlock.c:109-148 | in every run of elided and locked sections, whenever no fallback section runs, results and memory are those of running the sections one at a time in commit and release order |
| Elision.SerialUnique | txlock.c:109-148 | that serial outcome is determined by the order of the sections alone |
| Elision.FreeLockWorks | txlock.c:109-134 | while no fallback section runs, the next test and swap of a fallback take the lock, and a transaction that looks at the lock goes on |
| Elision.HeldLockExcludes | txlock.c:118-131 | while one runs, other fallbacks keep testing and a transaction that looks at the lock can only abort |
| Elision.CommitsExactly | txlock.c:137-141 | a transaction at the end of its section can commit exactly when no fallback section runs and nothing that it read has changed |
| Elision.ReleaseFrees | txlock.c:143-146 | the end of a fallback section gives the lock back |
| Elision.ThreadsCanMove | txlock.c:109-148 | every thread has a step to take |
| Elision.RunsAsAsked | txlock.c:109-125 | in every run each thread runs the section it was asked to, and goes for the lock exactly when its tries are used up |
| Elision.FinishesOnce | txlock.c:137-148 | a call ends with one new entry of the serial history, for its own section, and nothing else adds one |
| Speculation.InvStep | txutil.h:132-150 | every step of code that tests `spec_entry` as it should keeps it in agreement with whether a transaction runs, across beginning and rollback |
| Speculation.SpecEntryExact | txutil.h:132-150 | in every run `spec_entry` is set exactly while a transaction runs, in client code and wherever a call tests it, and no lock word is ever in a write buffer |
| Speculation.ThreadsCanMove | txutil.h:132-150 | nothing holds a thread up, in a transaction or outside: a call goes on, and a client can make every call there is |
| Speculation.SpeculativeData | txutil.h:137-138 | stores in a transaction stay in it and its later loads see them; what it has not stored it goes on seeing as it first found it |
| Speculation.RollbackRestores | txutil.h:137-149 | a rollback can come at any moment of a transaction, brings back the registers, and leaves memory and grants alone |
| Speculation.StartExists | txutil.h:127-128 | the runs spoken of exist, for any threads and any data |
| Speculation.StepShows | txutil.h:132-150 | each event of a speculating lock is the same event of the plain lock, or invisible |
| Speculation.SpeculationInvisible | txutil.h:132-150 | every run of a lock that speculates and is rolled back is a run of the plain lock, with the same memory, lock words and order of owners |
| TasSpeculation.PlainExclusive | txlock.c:78-103 | the plain test-and-set lock has at most one owner, the last one granted, and its word is set exactly while there is one |
| TasSpeculation.TatasMeans | txlock.c:74-103 | on a free lock the next two steps of `tatas` take it and on a held one they fail; unlock frees it |
| TasSpeculation.TasTmSimulates | txlock.c:154-193 | the code of `tas_tm`, with its tests of `spec_entry`, meets the conditions of the results on speculation, and is `tas` wherever it touches the lock word |
| TasSpeculation.TasTmExclusive | txlock.c:154-193 | in every run of `tas_tm` at most one thread owns the lock outside transactions, the last one granted, and the word is set exactly while one does |
| TasSpeculation.TasTmAloof | txlock.c:154-193 | a speculating thread of `tas_tm` has neither read nor written the lock word |
| TasSpeculation.CallsGoThrough | txlock.c:154-193 | whoever does not have `tas_tm` can ask for it, whoever has it can give it back, and a call under way goes on |
| TasSpeculation.RunsAhead | txlock.c:154-193 | a transaction that begins makes the thread go on as the owner; in it lock, trylock and unlock return at once without touching memory |
| TasSpeculation.TriesCounted | txlock.c:158-168 | in every run a lock call has been rolled back as often as its place says, and waits without speculating exactly from its last try on |
| TicketSpeculation.TicketTmSimulates | txlock.c:328-374 | the code of `ticket_tm`, with its tests of `spec_entry`, meets the conditions of the results on speculation, and is `ticket` wherever it touches a lock word outside transactions |
| TicketSpeculation.ActStep | txlock.c:294-323 | each step of the code of `ticket` is an event of the ticket lock, or changes nothing there |
| TicketSpeculation.TicketRun | txlock.c:294-323 | every run of the code of `ticket` is a run of the ticket lock in `Ticket`, with the same words, places and grants |
| TicketSpeculation.TicketTmRun | txlock.c:328-374 | so is, outside transactions, every run of `ticket_tm` |
| TicketSpeculation.TicketTmSafe | txlock.c:328-374 | with at most 2^32 threads at most one thread owns `ticket_tm` outside transactions |
| TicketSpeculation.TicketTmInOrder | txlock.c:328-374 | ownership of `ticket_tm` follows ticket order |
| TicketSpeculation.TicketTmLooked | txlock.c:336-342 | a thread that runs ahead in `ticket_tm` has seen another ticket being served, and has read no lock word but `now` |
| TicketSpeculation.CallsGoThrough | txlock.c:328-374 | whoever does not have `ticket_tm` can ask for it, whoever has it can give it back, and a call under way goes on |
| TicketSpeculation.DistanceIsPlace | txlock.c:336 | the wrapped distance of a ticket from the one being served is the number of threads ahead |
| TicketSpeculation.TicketTmServed | txlock.c:334-335 | in every run a waiting thread that looks at `now` gets the lock exactly when nobody is ahead of it in the queue |
| TicketSpeculation.TicketTmWindow | txlock.c:335-338 | in every run a waiting thread enters a transaction exactly when the number of threads ahead of it in the queue is within the window and it has tries left |
| TicketSpeculation.RunsAhead | txlock.c:339-347 | a transaction that begins looks whether the thread is served after all, and if not makes it go on as the owner; a rollback uses up a try (also lines 329-330 and 363-369) |
| TicketSpeculation.TriesCounted | txlock.c:333-347 | in every run a waiting thread has been rolled back as often as its place says, so that one lock call enters at most as many transactions as it has tries |
| McsLists.GoodStep | txlock.c:492-605 | acquisitions, failed trylocks and releases keep every allocated node on exactly one list, and one used node for a lock |
| McsLists.ListsAccountForAll | txlock.c:492-616 | over any sequence of them the two lists together hold every node allocated, each once, and the search in unlock ends at the only node for its lock |
| McsLists.ReleaseGivesBack | txlock.c:609-622 | a release puts the node enqueued for this lock on the free list; the lock has none then and every other lock keeps exactly its own |
| McsLists.AcquireTakes | txlock.c:495-528 | an acquisition gives the lock the first free node, or the first of those it allocates, and every other lock keeps exactly its own |
| McsLists.HeldIsGiven | txlock.c:492-622 | over any sequence of operations a lock's node is the one its last acquisition took, until its own release |
| McsLists.NewBlock | txlock.c:477-488 | eight new nodes in the state in which they are allocated, each linked to the next |
| McsLists.McsThread.AllocMoreNodes | txlock.c:475-490 | an empty free list becomes an acyclic list of eight new blank nodes, which join the allocated ones |
| McsLists.McsThread.Prepare | txlock.c:495-509 | a free node is reset for this lock and stays on the free list |
| McsLists.McsThread.TakeNode | txlock.c:522-528 | the head of the free list moves to the head of the used list; both stay well formed and disjoint |
| McsLists.McsThread.Unlink | txlock.c:590-600 | any node leaves the doubly linked used list and its neighbours are joined |
| McsLists.McsThread.DeallocNode | txlock.c:589-605 | the node moves from the used list to the free one |
| McsLists.McsThread.FindUsed | txlock.c:609-616 | the search ends at the only node enqueued for the lock, or says that there is none |
| McsLists.McsThread.AcquireNode | txlock.c:495-528 | what lock does with the lists is the operation of `ListsAccountForAll` on their values; the node taken is the former first free one, now recorded for this lock at the head of the used list |
| McsLists.McsThread.TryNode | txlock.c:495-516 | so is what a failed trylock does |
| McsLists.McsThread.ReleaseNode | txlock.c:609-622 | and what unlock does; the node given back is the one that was recorded for this lock, and no other pair of lock and node changes |
| McsProtocol.InvStep | txlock.c:492-652 | every step keeps the queue behind `tail` a sequence whose neighbours are linked or about to be, with only its head past the spin |
| McsProtocol.InvRun | txlock.c:492-652 | the invariant holds throughout every run, on any number of locks |
| McsGuarantees.MutualExclusion | txlock.c:530-535 | at most one thread holds a lock, through one node |
| McsGuarantees.FirstComeFirstServed | txlock.c:511-520 | the lock is obtained in the order of the swaps on `tail`, and `tail` is NULL exactly when all have passed it on |
| McsGuarantees.NoDanglingNode | txlock.c:531-535 | no step dereferences a missing node |
| McsGuarantees.LinkHitsPredecessor | txlock.c:531-533 | `pred->lock_next = mine` hits the node just ahead in this lock's queue, although nodes are reused for any lock |
| McsGuarantees.GrantHitsSuccessor | txlock.c:646-647 | `lock_next->wait = false` hits the immediate successor, which spins for this lock |
| McsGuarantees.GrantServes | txlock.c:646-647 | a release with a linked successor serves one more place, and its thread no longer holds the lock |
| McsGuarantees.GrantLetsIn | txlock.c:646-647 | the successor's spin can then end at once, and its thread holds the lock |
| McsGuarantees.CasServesOrWaits | txlock.c:620-627 | a release with nobody behind it empties the queue and no longer holds the lock; if somebody has come it waits for the link and changes nothing |
| McsGuarantees.UnlockLooks | txlock.c:620-627 | unlock goes on to the compare-and-swap when no successor is linked and to the grant when one is, and a waiting one as soon as it is |
| McsGuarantees.RecycleFrees | txlock.c:589-605 | after unlock the node is free again for its own thread and has no successor |
| McsGuarantees.CallJoins | txlock.c:492-535 | in every reachable state a call can be made with a free node, and a blocking one joins the queue for its lock at the end |
| McsGuarantees.CallAllocates | txlock.c:495-509 | a thread with no free node gets eight, all free until the swap succeeds |
| McsGuarantees.AwaitIsAnswered | txlock.c:625-627 | a release that waits for a successor's link has a successor that has linked itself or is about to |
| McsGuarantees.HeadIsNotStuck | txlock.c:530-535 | the head of a queue holds the lock or can leave its spin |
| McsGuarantees.TryLockNeedsEmptyQueue | txlock.c:513-517 | trylock succeeds exactly on an empty queue, and otherwise leaves no trace |
| McsGuarantees.UnlockFindsOne | txlock.c:609-616 | without recursion the search in unlock has one answer |
| Lcg.HalfTurn | txcond.c:170 | 2^n steps of the generator add 2^n modulo 2^(n+1) |
| Lcg.FullPeriod | txcond.c:170 | the generator reaches every residue modulo 2^n within 2^n steps |
| TxQueue.PicksHeadMeans | txcond.c:171-173 | which draws pick the head, given C's remainder of the signed word |
| TxQueue.SignalTakesOne | txcond.c:173-186 | a signal takes one waiter off a queue that is not empty, first or last as the draw says, and leaves the others in order |
| TxQueue.FirstDraws | txcond.c:169-171 | the first three draws of a fresh condition variable, of which the third picks the head |
| TxQueue.ZeroReturns | txcond.c:168-171 | in spite of the reset of 0 to 5 a zero is drawn within 2^32 draws |
| TxQueue.HeadIsPicked | txcond.c:164-186 | any 2^32 consecutive signals include one that picks the head |
| TxQueue.NobodyStarves | txcond.c:164-186 | a waiter with p others before it is dequeued within (p + 1) * 2^32 signals, whatever is appended |
| TxCondQueue.TxCond.Enqueue | txcond.c:91-101 | wait appends to the sequence the links represent |
| TxCondQueue.TxCond.PopHead | txcond.c:174-178 | the first node is removed |
| TxCondQueue.TxCond.PopTail | txcond.c:181-185 | the last node is removed |
| TxCondQueue.TxCond.Dequeue | txcond.c:166-187 | a signal draws, and removes the end the draw picks, or nothing from an empty queue |
| TxCondQueue.TxCond.TakeAll | txcond.c:209-217 | a broadcast empties the queue and keeps the chain of nodes |
| TxCondQueue.TxNode.Claim | txcond.c:135-136 | the first compare-and-swap on `status` wins and the second changes nothing |
| TxCondQueue.WakeAll | txcond.c:219-227 | undisturbed, the broadcast walk posts every node once and frees exactly those whose waiter has gone |
| TxNodes.InvStep | txcond.c:72-230 | every step of waits, timeouts, signals and broadcasts keeps the links, owners and statuses of all nodes in order |
| TxNodes.InvRun | txcond.c:72-230 | the invariant holds throughout every run |
| TxNodeGuarantees.NoUseAfterFree | txcond.c:108-138 | no step touches a node that is not allocated or has been freed |
| TxNodeGuarantees.NothingLeaks | txcond.c:189-227 | with all calls finished and the queue empty every node has been freed |
| TxNodeGuarantees.FreedExactlyOnce | txcond.c:189-227 | in every run each node is freed and posted at most once, and exactly once when all is done |
| TxNodeGuarantees.QueuedBeforeUnlock | txcond.c:89-104 | before the user lock is released the node is in the queue or already taken by a waker |
| TxNodeGuarantees.Listed | txcond.c:166-187 | a node is in the queue exactly until one waker takes it |
| TxNodeGuarantees.QueueStep | txcond.c:89-217 | each step on the linked queue does what the sequence of `TxQueue` does |
| TxNodeGuarantees.QueueRefined | txcond.c:89-217 | so does the whole run between any two moments |
| TxNodeGuarantees.QueueReady | txcond.c:91-217 | in every reachable state the locked part of a wait, signal or broadcast can be carried out, on a well-formed queue |
| TxNodeGuarantees.SignalTakes | txcond.c:166-194 | a signal takes in hand, to be posted, the node at the end of the queue that its draw picks; on an empty queue it only draws |
| TxNodeGuarantees.BroadcastTakes | txcond.c:210-221 | a broadcast takes the whole queue and walks along it in order |
| TxNodeGuarantees.WalkGoesOn | txcond.c:221-227 | done with one node, a broadcast goes on to the next in line, and is over after the last |
| TxNodeGuarantees.RaceOutcome | txcond.c:115-138 | who comes first in the race for a node leaves it, with its status set, to the other, who frees it (also lines 190-194 and 222-226) |
| TxNodeGuarantees.WaitGoes | txcond.c:80-137 | a wait enqueues its node before it gives up the user lock, and goes to the race for it when posted or when it gives up |
| TxNodeGuarantees.ThreadsCanMove | txcond.c:72-230 | in every reachable state every thread has a step to take, but for a sleeper without a deadline, who can go on exactly once it has been posted |
| TxNodeGuarantees.WalkIntact | txcond.c:219-227 | what a broadcast has still to wake is live, unposted and linked in queue order, because it reads `next` before its own compare-and-swap |
| TxNodeGuarantees.EveryWaiterServed | txcond.c:164-186 | in every run a waiter with p others before it is taken off the queue within (p + 1) * 2^32 signals |

## Left out

- The internal lock of `pthread_cond.c` (lines 50-87 and 324-370): its macros hand their operands to the compiler builtins in another order than those expect, so it is taken as an ideal lock.
- Cancellation clean-up, the requeue branch that a jump skips, and destruction in `pthread_cond.c`; the `mutex` field; and the release and retaking of the user mutex, except that a failing release is an outcome of `Enter`.
- What a thread does between a speculative return from `__pthread_cond_wait` and its rollback, and which of its writes a commit would publish: only the commit's effect on the condition variable is modelled.
- Which waiter a signal of `pthread_cond.c` wakes: a later waiter may take an earlier signal's count, so only counts are stated.
- In the protocol of `txcond.c` any waiter may time out, also one without a deadline; the result codes, the retaking of the user lock, and failures of `malloc`, `sem_init` and `sem_post` are not modelled.
- The counting path of `mcs_tm`, `ticket_trylock_tm`, `tas_trylock_hle`, the wrappers over the system's mutex, dispatch, environment variables, statistics, spin back-off and weak memory ordering.
- The protocols are step functions on values: the methods on the classes give the atomic pieces, and a run of several threads is not a run of those methods.
- `McsProtocol` keeps a thread's two lists as sets of nodes and moves a node with the swap on `tail`; the lists with their pointers, one thread at a time, are in `McsLists`.
- The priority lock's own speculation is not part of `PriorityLock`: its transactions never commit either, so only their end shows.
- One lock at a time speculates in `Speculation`: calls on other locks inside the transaction return by the same test of `spec_entry`.  Clients may load and store data whenever no call is in progress.
- WakeAll: states the walk when nobody interferes, and not its result, which only tells of failing posts; interleaved with waiters and other wakers it is part of `TxNodes`.
