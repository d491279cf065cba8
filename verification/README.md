# Verified models of the eudyptula kernel exercises

This project models five parts of the repository in Dafny and proves what they
keep over every run: the producer/consumer network of kernel threads, the text
search registry, the intrusive identity list, and the two character devices.
`dafny verify dfyconfig.toml` checks everything.

## What is modelled

**The stream network** (`Task_17/kthreads/prod_cons/prod-cons.c`). Six threads
(two successors, two multipliers, merge, consumer) exchange heap-allocated
tokens over five bounded buffers, each guarded by two counting semaphores and a
mutex. `network.dfy` is a step machine: every `down`, `up`, `enqueue`, `dequeue`
and every piece of local work is one atomic step, a `down` on zero is not
enabled, and a schedule is any sequence of thread numbers. Tokens are pointers
into a heap, and pointer variables keep stale values, so that exclusive access
is something to prove. The main results, over all schedules:

- the printed values are always an initial part of the one sorted merge of the
  multiples of 3 and of 5 (`PrintedIsPrefixOfMerge`), which is characterised
  without mentioning merging (`MergedIsRanked`);
- every token is in exactly one place, and a thread touches only tokens it alone
  holds (`EachTokenInOnePlace`, `TouchedIsExclusive`);
- some thread can step exactly as long as the network has not finished
  (`DeadlockFree`);
- every run is finite without any fairness assumption, every run extends to a
  maximal one, and all maximal runs have exactly 781 steps, the same number per
  thread, ten printed values and the same 25 values left in the buffers
  (`RunsAreFinite`, `RunsCanFinish`, `MaximalRunsAgree`);
- back-pressure bounds the successors' counters by 23 and 18 (`ArithmeticBounded`).

`stream_protocol.dfy` proves the semaphore accounting once, for any number of
streams and threads and with waits that may be interrupted; the network uses it.
`merge_order.dfy` holds the merge loop for arbitrary inputs.

Waits in the source are interruptible, and the threads ignore what `put` and
`get` report. Five files say what that costs. `stream_losses.dfy` is about one
stream and any number of threads:

- each abandoned claim costs its stream a slot or a token for good, and a stream
  can still be used in some continuation exactly as long as fewer than five
  claims on it were abandoned (`UsableUnlessAllLost`); five are possible
  (`AllCanBeLost`).

`network_losses.dfy` adds interruptions to the six threads, and the three
`lossy_*.dfy` files hold the results, over all schedules and all interruptions of
puts and gets:

- the printed values are a subsequence of the sorted merge
  (`PrintedIsSubsequenceOfMerge`);
- a thread with local work to do touches only live tokens that it alone holds if
  and only if none of its own gets was interrupted
  (`TouchedIsExclusiveUnlessBroken`); otherwise it has only NULL to work on
  (`InterruptedGetIsFatal`);
- every token is in exactly one place unless a put of it was interrupted, and then
  it is nowhere and never freed (`TokensOnceOrDropped`, `DroppedLeaks`);
- counters and products grow only with the number of interrupted puts
  (`LossyArithmeticBounded`); they fit an `int` in every run with at most
  429,496,700 interrupted puts on the way (`RunFitsInt`), and 429,496,729
  interrupted puts can make a product overflow (`ProductsCanOverflow`);
- as long as no get was interrupted and no stream has lost everything, the
  network still finishes: without a further interruption it halts after a
  bounded number of steps and only with ten values printed (`HealthyRunsFinish`,
  `HealthyRunsCanFinish`).

**The text search registry** (`Task_19/docs/textsearch.c`). A registry of
algorithms and the module references held by configurations. Runs are sequences
of fine-grained events, so that registrations, unloading and other prepares may
come between the lookups of one prepare and the return of its `init`. A module
may begin to unload only while nobody holds a reference on it, as in the kernel.
A whole prepare is part of such a run, so what it hands out pins its module until
it is destroyed (`PrepareIsRun`, `PreparedIsPinned`).

**The identity list** (`Task_13/kll/kll.c`). A doubly linked ring on the Dafny
heap, changed by pointer surgery, proved to refine a sequence. The list counts
what it allocates and releases where it does so. The history of any calls
determines the contents (`CallsLeaveSurvivors`, `PresentIfMadeAndKept`).

**The name device** (`Task_18/misc_device/misc_dev.c`) feeds that list from
writes and drains it from a worker. In runs of any length the buffer holds what
was written last, byte for byte (`InputIsBuffer`), and the list is what was
created since the last wake-up (`ListIsPending`), so a wake-up gets the first of
these (`WakeTakesOldest`). Ids are ordered as long as at most 2^31 writes were
counted (`RunsStayDescending`), and one more can break the order and leave an
entry behind that the loop of `misc_exit` does not come to (`OrderBreaks`,
`OrderCanBreak`).

**The author device** (`Task_6/misc_device/misc_dev.c`) serves and checks
offset-based transfers.

## Assumptions

- `queue_a.h` is not part of this model: the queue is an exact first-in-first-out
  queue without a bound of its own, and a `dequeue` of an empty queue returns
  NULL. That neither a full nor an empty queue is ever met is proved.
- Memory allocation succeeds in the network; elsewhere it may fail.
- A transfer has a non-negative offset and at most `SSIZE_MAX` bytes, as the
  virtual file system guarantees, so offset plus count does not wrap.
- What a failed `copy_from_user` leaves behind is arbitrary.
- Signed `int` variables of the name device wrap around, as in a kernel built with
  `-fno-strict-overflow`. The integers of the network are unbounded in the model;
  `ArithmeticBounded` and `RunFitsInt` say when that makes no difference.
- Calls into the devices and the registry's single operations are atomic.
- Deleting loops read the next pointer before they release an entry.
  `list_for_each_entry` in the source reads it afterwards, from freed memory.
- `user_input` is declared `const` and written all the same; here it is writable.

Where code and comments differ the code counts: `connect` says it appends to the
end of the input list but prepends, so the first input of merge is the stream of
multiples of 5 (`WiredAsModelled`); and `misc_init` drains the list before it
looks for identity 3, so the lookup always yields NULL (`Driver.MiscInit`). Line
226 passes the name array at the start of that structure, and with it NULL, to
the `%s` of a debug message; the message itself is not modelled.

## Model

| member | source | states |
|---|---|---|
| MergeOrder.OutputInterleaves | Task_17/kthreads/prod_cons/prod-cons.c:121-147 | after any number of rounds, on any inputs, merge's output is an order-preserving interleaving of exactly the tokens picked so far |
| MergeOrder.InterleavesKeepsTokens | Task_17/kthreads/prod_cons/prod-cons.c:121-147 | such an interleaving contains every picked token exactly once |
| MergeOrder.OutputIsSortedMerge | Task_17/kthreads/prod_cons/prod-cons.c:117-120 | for any two nondecreasing inputs the output is sorted at every point and nothing left over is smaller than anything put out |
| MergeOrder.MergeLoop | Task_17/kthreads/prod_cons/prod-cons.c:121-147 | the loop run until a get would block puts out exactly the merge order, holds the last token got from the input that is not exhausted, and stops only because the input it needs is exhausted |
| MergeOrder.MergedIsRanked | Task_17/kthreads/prod_cons/prod-cons.c:117-120 | token number k of the merged stream is the one value v such that more than k multiples of 3 and 5 are at most v and at most k are below v |
| MergeOrder.FirstFifteen | Task_17/kthreads/prod_cons/prod-cons.c:117-120 | the first fifteen merged values, beginning 3,5,6,9,10,12,15,15,18,20; they take five multiples of 5 and ten of 3 |
| StreamProtocol.MoveIsSafe | Task_17/kthreads/prod_cons/prod-cons.c:40-74 | a get about to dequeue finds a token and a put about to enqueue finds room, however many threads there are |
| StreamProtocol.AdvanceKeepsBalance | Task_17/kthreads/prod_cons/prod-cons.c:40-74 | every atomic action keeps semaphore counts, queue and in-flight operations accounting exactly for all slots, all tokens and the mutex of every stream |
| StreamProtocol.InterruptKeepsBalance | Task_17/kthreads/prod_cons/prod-cons.c:49-68 | so does a failing down, with the abandoned claim entered as a lost slot or a lost token |
| StreamProtocol.RunsStayBalanced | Task_17/kthreads/prod_cons/prod-cons.c:40-74 | the accounting holds after any events of any number of threads on any number of streams |
| StreamProtocol.RunsAreSafe | Task_17/kthreads/prod_cons/prod-cons.c:40-74 | in every run, interrupted or not: buffers stay within the slots still in circulation, no dequeue meets an empty and no enqueue a full queue, and at most one thread is inside the mutex of a stream |
| StreamLosses.LostStreamStaysDead | Task_17/kthreads/prod_cons/prod-cons.c:49-68 | once five claims on a stream were abandoned, of slots and tokens together, no put or get on it passes its first wait in any continuation, and nobody is past one |
| StreamLosses.DeadWhenAllIsLost | Task_17/kthreads/prod_cons/prod-cons.c:49-68 | with nobody past its first wait, nothing can be claimed if and only if five claims were abandoned |
| StreamLosses.AllCanFinish | Task_17/kthreads/prod_cons/prod-cons.c:40-74 | from every reachable state all puts and gets under way can be finished without an interruption |
| StreamLosses.UsableUnlessAllLost | Task_17/kthreads/prod_cons/prod-cons.c:40-74 | after any run, any given thread passes a first wait on the stream in some continuation if and only if fewer than five claims on it were abandoned |
| StreamLosses.AllCanBeLost | Task_17/kthreads/prod_cons/prod-cons.c:40-74 | every combination of lost slots and lost tokens a stream can have is reached by completed puts and puts and gets interrupted at the mutex: an interrupted put keeps its slot, an interrupted get its claim while the token stays queued |
| StreamProtocol.PutAsAWhole | Task_17/kthreads/prod_cons/prod-cons.c:59-74 | the five actions of an undisturbed put together append the token and turn one empty slot into a full one |
| StreamProtocol.GetAsAWhole | Task_17/kthreads/prod_cons/prod-cons.c:40-56 | the five actions of an undisturbed get together return the first token and turn one full slot into an empty one |
| StreamProtocol.InterruptedAsAWhole | Task_17/kthreads/prod_cons/prod-cons.c:49-68 | interrupted at its first wait a put or get leaves the stream as it was; interrupted at the mutex it keeps one slot, or one claim on a token, for good |
| StreamProtocol.StreamCell.constructor | Task_17/kthreads/prod_cons/prod-cons.c:163-175 | init_stream: five empty slots, no tokens, mutex free |
| StreamProtocol.StreamCell.Get | Task_17/kthreads/prod_cons/prod-cons.c:40-56 | get in place is the actions of the step machine in their order, up to the interrupted wait if there is one |
| StreamProtocol.StreamCell.Put | Task_17/kthreads/prod_cons/prod-cons.c:59-74 | put in place is the actions of the step machine in their order, and reports an interruption |
| Network.WiredAsModelled | Task_17/kthreads/prod_cons/prod-cons.c:181-204 | the calls of connect give each thread the inputs the machine uses; merge's first input is the stream of multiples of 5 |
| NetworkSafety.StepKeepsBalance | Task_17/kthreads/prod_cons/prod-cons.c:40-74 | every step of the six threads keeps the semaphore accounting of all five streams, without losses |
| NetworkSafety.StepKeepsTokens | Task_17/kthreads/prod_cons/prod-cons.c:76-160 | every step keeps every allocated token in exactly one place |
| NetworkSafety.HeldAlone | Task_17/kthreads/prod_cons/prod-cons.c:106-156 | a token a thread holds is in no queue, not freed, and held by no other thread |
| NetworkSafety.StepKeepsInvariant | Task_17/kthreads/prod_cons/prod-cons.c:76-160 | every step keeps accounting, ownership, and the values of all queued and held tokens |
| NetworkSafety.RunsKeepInvariant | Task_17/kthreads/prod_cons/prod-cons.c:76-222 | the whole invariant holds after every schedule |
| NetworkTheorems.PrintedIsPrefixOfMerge | Task_17/kthreads/prod_cons/prod-cons.c:76-160 | under every schedule the printed values are an initial part of the sorted merge of 3,6,9,... and 5,10,15,... |
| NetworkTheorems.EachTokenInOnePlace | Task_17/kthreads/prod_cons/prod-cons.c:87-156 | under every schedule each token ever allocated is in exactly one queue, one thread's hands or freed once, and the heap is exactly the unfreed ones |
| NetworkTheorems.TouchedIsExclusive | Task_17/kthreads/prod_cons/prod-cons.c:106-156 | whatever a thread is about to read, multiply in place or free is live and held by it alone; no NULL, freed or already put token is ever touched |
| NetworkTheorems.CountsBounded | Task_17/kthreads/prod_cons/prod-cons.c:83-157 | the most that is ever sent over and taken from each stream |
| NetworkTheorems.ArithmeticBounded | Task_17/kthreads/prod_cons/prod-cons.c:83-111 | in every run the successors' counters stay within 23 and 18 and every product within 60, so int arithmetic cannot overflow |
| NetworkTheorems.BlockedOnlyInWaits | Task_17/kthreads/prod_cons/prod-cons.c:49-71 | a thread past its waits, in particular a mutex holder, is never blocked, and local work never is until the consumer is done |
| NetworkTheorems.MutexHolderRuns | Task_17/kthreads/prod_cons/prod-cons.c:50-70 | whenever a mutex is taken, some thread can take a step |
| NetworkTheorems.StuckMeansFull | Task_17/kthreads/prod_cons/prod-cons.c:76-160 | a state in which no thread can step has five full buffers, five threads waiting to put, and the consumer done |
| NetworkTheorems.StuckMeansFinished | Task_17/kthreads/prod_cons/prod-cons.c:76-160 | and it is the one final state: ten values printed, fixed numbers of tokens sent and taken on every stream, and fixed values left in every queue |
| NetworkTheorems.DeadlockFree | Task_17/kthreads/prod_cons/prod-cons.c:76-160 | in every reachable state, no thread can step if and only if the network has finished |
| NetworkTheorems.ScheduleCounts | Task_17/kthreads/prod_cons/prod-cons.c:76-160 | the number of steps each thread has taken can be read off the state |
| NetworkTheorems.MaximalRunsAgree | Task_17/kthreads/prod_cons/prod-cons.c:76-160 | all maximal runs end finished, with the same values in the queues, after exactly 781 steps, with the same number of steps of each thread |
| NetworkTheorems.RunsCanFinish | Task_17/kthreads/prod_cons/prod-cons.c:76-160 | every run can be continued to a maximal one |
| NetworkTheorems.RunsAreFinite | Task_17/kthreads/prod_cons/prod-cons.c:76-160 | no run, fair or not, is longer than 781 steps, and no thread takes more steps than in a maximal run |
| NetworkLosses.BreaksAreInterrupts | Task_17/kthreads/prod_cons/prod-cons.c:49-68 | the interruptions of the six threads are exactly those of the stream protocol, with the same effect on the streams |
| LossyTheorems.UnbrokenIsExecute | Task_17/kthreads/prod_cons/prod-cons.c:76-160 | without interruptions the runs with losses are the runs of the network |
| LossyTheorems.RunsKeepLossy | Task_17/kthreads/prod_cons/prod-cons.c:40-160 | whatever puts and gets are interrupted: accounting, at most one place per token, strictly rising input streams of multiples, a sorted merge stream with each value at most once per stream it is in, and threads that are intact exactly if none of their gets was interrupted |
| LossyTheorems.PrintedIsSubsequenceOfMerge | Task_17/kthreads/prod_cons/prod-cons.c:40-160 | under every schedule with any interruptions the printed values are a subsequence of the sorted merge, with their places in it; over unbounded integers, which are the source's as long as RunFitsInt applies |
| LossyTheorems.TouchedIsExclusiveUnlessBroken | Task_17/kthreads/prod_cons/prod-cons.c:40-156 | after any run with any interruptions, a thread with local work to do can do it on live tokens that it alone holds if and only if none of its own gets was interrupted |
| LossyTheorems.InterruptedGetIsFatal | Task_17/kthreads/prod_cons/prod-cons.c:49-50 | once a get of a thread was interrupted, that thread is left with a NULL pointer, whatever happens afterwards |
| NetworkLosses.DoomTouchesNull | Task_17/kthreads/prod_cons/prod-cons.c:106-156 | and its next local work touches that NULL |
| LossyTheorems.TokensOnceOrDropped | Task_17/kthreads/prod_cons/prod-cons.c:87-156 | under any interruptions every token ever allocated is in exactly one queue, one thread's hands or freed once, if and only if no put of it was interrupted; otherwise it is nowhere, and it is dropped once |
| LossyTheorems.DroppedLeaks | Task_17/kthreads/prod_cons/prod-cons.c:89-141 | the memory of a dropped token is never freed, and no queue and no thread has it |
| LossyBounds.LossyArithmeticBounded | Task_17/kthreads/prod_cons/prod-cons.c:83-111 | in every run with any interruptions a successor counts to at most 29 plus the interrupted puts on its way to the consumer, and a product is at most that times the factor |
| LossyBounds.RunFitsInt | Task_17/kthreads/prod_cons/prod-cons.c:83-111 | with at most 429,496,700 interrupted puts on either way, every counter and every product of the whole run fits an int |
| LossyBounds.ProductsCanOverflow | Task_17/kthreads/prod_cons/prod-cons.c:83-111 | n interrupted puts of a successor can lead to the product of 5 and n + 1, which no int holds from n = 429,496,729 on |
| LossyProgress.HaltsEarlyOnlyByLoss | Task_17/kthreads/prod_cons/prod-cons.c:40-160 | if no get was interrupted and no stream has lost all five claims, a state in which no thread can step has ten values printed |
| LossyProgress.HealthyRunsFinish | Task_17/kthreads/prod_cons/prod-cons.c:40-160 | from any such state every continuation without interruption is bounded in length and halts only with ten values printed |
| LossyProgress.HealthyRunsCanFinish | Task_17/kthreads/prod_cons/prod-cons.c:40-160 | and there is one that gets there |
| TextSearch.FindIsFirst | Task_19/docs/textsearch.c:116-123 | a name is found exactly when some entry has it, and what is found has it |
| TextSearch.FindIsUnique | Task_19/docs/textsearch.c:116-123 | in a list of distinct names every entry is what its own name finds |
| TextSearch.RegisterIsInsert | Task_19/docs/textsearch.c:141-161 | register adds one name to the name map, last in order; it refuses exactly for a missing callback or a taken name, and then changes nothing |
| TextSearch.UnregisterIsRemove | Task_19/docs/textsearch.c:176-193 | unregister takes out exactly the given entry and its name and keeps the order of the rest; it refuses exactly when the entry is not there, and then changes nothing |
| TextSearch.HolderIsCounted | Task_19/docs/textsearch.c:296-316 | a reference that is given back has been counted: module_put never meets a zero count |
| TextSearch.RunsKeepInvariant | Task_19/docs/textsearch.c:111-320 | in every run each module's reference count is the number of prepares under way and configurations alive that use it, names are pairwise distinct, and no module that unloads is in use |
| TextSearch.GoingHasLeft | Task_19/docs/textsearch.c:118-119 | in every run the modules on which no reference can be taken are exactly those that have begun to unload |
| TextSearch.LiveConfigurationIsPinned | Task_19/docs/textsearch.c:287-319 | while a configuration is alive its algorithm's module has a positive count and cannot begin to unload, even after the algorithm was unregistered |
| TextSearch.ConfigurationLasts | Task_19/docs/textsearch.c:293-319 | nothing but its own destruction ends a configuration or changes its algorithm |
| TextSearch.DestroyEndsOnce | Task_19/docs/textsearch.c:311-320 | in every run a destruction calls the callback exactly if the algorithm has one, for the first time, at a moment when its module is referenced, and gives back exactly one reference |
| TextSearch.PrepareKeepsBooks | Task_19/docs/textsearch.c:261-301 | a failed prepare, on whichever exit, leaves all counts and configurations as they were; a successful one adds one configuration of the named algorithm and one reference on its owner |
| TextSearch.PrepareIsRun | Task_19/docs/textsearch.c:261-301 | an undisturbed prepare is its lookups, registrations and init outcome as events of a run |
| TextSearch.PreparedIsPinned | Task_19/docs/textsearch.c:261-319 | so what any prepare hands out keeps its algorithm and keeps the module referenced and present until it is destroyed, whatever else happens |
| TextSearch.LookupFindsUsable | Task_19/docs/textsearch.c:111-127 | a lookup succeeds if and only if an entry of that name is registered whose code is built in or whose module has not begun to unload |
| TextSearch.PrepareOutcome | Task_19/docs/textsearch.c:261-301 | a prepare succeeds if and only if the pattern is not empty, such an entry is there, possibly only after autoload, and init succeeds; otherwise it returns -EINVAL for an empty pattern, -ENOENT if there is no entry, and the error of init |
| TextSearch.Registry.LookupAlgo | Task_19/docs/textsearch.c:111-127 | the lookup loop returns the entry of that name with a reference taken, or NULL if there is none or its module is going |
| TextSearch.Registry.RegisterAlgo | Task_19/docs/textsearch.c:141-161 | the loop in place is the specified insertion with its error codes |
| TextSearch.Registry.UnregisterAlgo | Task_19/docs/textsearch.c:176-193 | the loop in place is the specified removal with its error code |
| TextSearch.Registry.PrepareConf | Task_19/docs/textsearch.c:261-301 | prepare in place, with the retry after autoload and the error exits |
| TextSearch.Registry.DestroyConf | Task_19/docs/textsearch.c:311-320 | destroy calls the callback if there is one, gives back the reference, if there is one, and removes the configuration |
| IdentityRing.RemoveDistributes | Task_13/kll/kll.c:47-57 | destroying works entry by entry and keeps the order of the rest |
| IdentityRing.RemoveRemovesAll | Task_13/kll/kll.c:47-57 | destroying removes every entry with the id and no other |
| IdentityRing.CreateThenFind | Task_13/kll/kll.c:17-57 | a created entry is the one its id finds, and destroying the id afterwards leaves what destroying it before would have left |
| IdentityRing.CreateAdds | Task_13/kll/kll.c:17-33 | a create fails with -ENOMEM exactly for a name of 20 characters or more or without memory, and then changes nothing; otherwise it adds one entry in front |
| IdentityRing.CallsLeaveSurvivors | Task_13/kll/kll.c:17-57 | after any creates and destroys the list is the entries not destroyed since they were there, newest first |
| IdentityRing.NamesStayShort | Task_13/kll/kll.c:21-27 | after any calls no name on the list is longer than 19 characters, so strcpy stays within its array |
| IdentityRing.PresentIfMadeAndKept | Task_13/kll/kll.c:17-57 | from the empty list, an entry is there if and only if some create with a short name and with memory made it and no later call destroyed its id |
| IdentityRing.IdentityList.constructor | Task_13/kll/kll.c:14-15 | the empty ring |
| IdentityRing.IdentityList.CacheIsList | Task_13/kll/kll.c:23-54 | the objects the cache has handed out and not got back are exactly the entries of the list, and their number is allocations less releases |
| IdentityRing.IdentityList.ListAdd | Task_13/kll/kll.c:31 | the ring stays a ring, with the new link right after the head |
| IdentityRing.IdentityList.ListDel | Task_13/kll/kll.c:53 | the ring stays a ring, without the one link |
| IdentityRing.IdentityList.Take | Task_13/kll/kll.c:53-54 | unlinking and releasing an entry keeps allocations equal to releases plus entries |
| IdentityRing.IdentityList.IdentityCreate | Task_13/kll/kll.c:17-33 | prepends and counts one allocation, or fails without change for a long name or without memory |
| IdentityRing.IdentityList.IdentityFind | Task_13/kll/kll.c:35-45 | returns the newest entry with the id, or NULL |
| IdentityRing.IdentityList.IdentityDestroy | Task_13/kll/kll.c:47-57 | the loop over the changing ring removes all entries with the id |
| IdentityRing.IdentityList.IdentityGet | Task_18/misc_device/misc_dev.c:33-45 | empties the list and returns its oldest entry, or the previous result if there is none |
| Bytes.CStringEnds | Task_18/misc_device/misc_dev.c:52-58 | a buffer with a NUL in it holds a string that ends there at the latest |
| NameDevice.WriteOutcome | Task_18/misc_device/misc_dev.c:139-174 | result and effect of every write in the source's numbers: nothing and 0 from offset 19 on, clipping at 19, -EFAULT without an identity, otherwise the count moved by one and an identity if there is memory |
| NameDevice.AsIntAgrees | Task_18/misc_device/misc_dev.c:168 | the id passed on is the int that agrees with the counter modulo 2^32 |
| NameDevice.InputIsBuffer | Task_18/misc_device/misc_dev.c:152 | after any run every byte of the buffer is the one last written there, or NUL |
| NameDevice.LastWriteWins | Task_18/misc_device/misc_dev.c:152 | a byte a write brought stays until a later write covers it, and lies below 19 |
| NameDevice.UnwrittenIsNul | Task_18/misc_device/misc_dev.c:18-152 | a byte no write covered is NUL |
| NameDevice.NameAsWritten | Task_18/misc_device/misc_dev.c:152-168 | a write at offset 0 names its identity by what it brought, followed by what older writes left behind it, if anything |
| NameDevice.NameFits | Task_18/misc_device/misc_dev.c:146-168 | every write leaves the buffer zero from index 19 on, so the name it passes on is NUL-terminated within 20 bytes |
| NameDevice.WriteKeepsSound | Task_18/misc_device/misc_dev.c:139-174 | a write keeps names fitting and allocations equal to releases plus entries, and one that succeeds always gets past the length test |
| NameDevice.RunsStaySound | Task_18/misc_device/misc_dev.c:33-174 | so does every run of writes and wake-ups |
| NameDevice.CounterIsIncrements | Task_18/misc_device/misc_dev.c:168-169 | the counter is the number of writes that got past their copy, modulo 2^64 |
| NameDevice.ListIsPending | Task_18/misc_device/misc_dev.c:33-174 | after any run of any length the list is exactly the identities created since the last wake-up, newest first, each named by the bytes written last before and numbered by the counted writes before it |
| NameDevice.RunsStayDescending | Task_18/misc_device/misc_dev.c:168-169 | over any mix of events with at most 2^31 counted writes the counter is their number and the pending ids are distinct, below it and strictly decreasing from the head |
| NameDevice.OldestHasSmallestId | Task_18/misc_device/misc_dev.c:33-115 | in such a run what a wake-up gets is the pending identity with the smallest id |
| NameDevice.OrderNeedsIntRange | Task_18/misc_device/misc_dev.c:168-169 | at every value of the counter, a write that creates an identity keeps this order if and only if the counter cut to an int is not negative, above the ids pending, and the counter does not wrap |
| NameDevice.OrderBreaks | Task_18/misc_device/misc_dev.c:168-247 | in a run with nothing pending, the identity created by counted write number 2^31 + 1 has a negative id, is out of order, and is left behind by the loop of misc_exit |
| NameDevice.OrderCanBreak | Task_18/misc_device/misc_dev.c:168-247 | and there is such a run |
| NameDevice.WakeTakesOldest | Task_18/misc_device/misc_dev.c:33-115 | after any run a wake-up gets exactly the identity made by the first event that created one since the last wake-up, or what it got before if none did; then nothing is pending and everything allocated is released |
| NameDevice.RoundsEnd | Task_18/misc_device/misc_dev.c:243-247 | the int loop variable of misc_exit, wrapping and compared with the unsigned counter, stays below the counter for exactly the given number of rounds |
| NameDevice.ExitedEmpties | Task_18/misc_device/misc_dev.c:241-247 | the loop of misc_exit leaves the list empty if and only if its variable comes to every id on the list |
| NameDevice.ExitEmptiesList | Task_18/misc_device/misc_dev.c:241-247 | after any run with at most 2^31 counted writes it does |
| NameDevice.FirstMadeIs | Task_18/misc_device/misc_dev.c:208-220 | the identity misc_init drains is Alice with id 1, or the first of Bob, Dave and Gena for which there was memory, or blank |
| NameDevice.Driver.SimpleDevWrite | Task_18/misc_device/misc_dev.c:139-174 | the handler in place, with copying, clipping at 19, faults, offset and result |
| NameDevice.Driver.Wake | Task_18/misc_device/misc_dev.c:115 | the worker's drain in place, with the releases the list counted |
| NameDevice.Driver.MiscInit | Task_18/misc_device/misc_dev.c:208-236 | initialisation leaves list, buffer and counter as every run starts with them, whatever allocations fail, and has released all it allocated; it drains Alice, or the first identity for which there was memory, and both lookups, of 3 and of 42, yield NULL |
| NameDevice.Driver.MiscExit | Task_18/misc_device/misc_dev.c:241-247 | the loop in place, at every value of the counter; it empties a list with the ids every run has while the counter is in the int range, and releases all of it |
| AuthorDevice.ReadsConcatenate | Task_6/misc_device/misc_dev.c:22-46 | reads of any sizes from any offset, failing or not, deliver consecutive pieces: as much as they ask for in total, up to the end |
| AuthorDevice.ReadOutcome | Task_6/misc_device/misc_dev.c:22-46 | result and data of every read in the source's numbers, over the 14 bytes of the name and its NUL |
| AuthorDevice.ReadToEnd | Task_6/misc_device/misc_dev.c:22-46 | a reader from offset 0 gets exactly the 14 bytes if and only if the reads that do not fail ask for at least 14 |
| AuthorDevice.ThenZeroForever | Task_6/misc_device/misc_dev.c:22-46 | from then on every read returns 0, whatever was read in between, and before then none that asks for anything does |
| AuthorDevice.WriteTakes | Task_6/misc_device/misc_dev.c:57-63 | a write covers as many bytes as it brings and fit below 4096, and none from offset 4096 on |
| AuthorDevice.WriteChecksAuthor | Task_6/misc_device/misc_dev.c:57-76 | for every write: 0 from offset 4096 on, -EFAULT if the copy fails, otherwise the bytes taken if and only if the buffer then starts with the author's name, and -1 if not |
| AuthorDevice.LastWriteWins | Task_6/misc_device/misc_dev.c:57-66 | after any writes each byte is the one brought by the last write that covers it |
| AuthorDevice.UnwrittenIsZero | Task_6/misc_device/misc_dev.c:57-66 | and a byte that none covers is zero |
| AuthorDevice.Driver.SimpleDevRead | Task_6/misc_device/misc_dev.c:22-46 | the handler's data, offset and result |
| AuthorDevice.Driver.SimpleDevWrite | Task_6/misc_device/misc_dev.c:48-80 | the handler in place; a write that fails the check has moved the offset |

## Left out

- The thread bodies of the network are a step machine over values, because their interleaving is the subject; semaphores, queues and token memory are components of its state, and pointers and aliasing are explicit. `StreamCell` and `MergeLoop` hold `get`, `put` and the merge loop in the source's own form.
- The unlocked reads of `nelem` for log messages, `printk`, `msleep`, and `cleanup_module`, which frees queues under running threads.
- What the kernel does with a thread that dereferences NULL; in the model it takes no further step.
- Read-copy-update and spinlock internals of the registry; forced module removal; what an algorithm's callbacks do.
- `textsearch_find`, `textsearch_next`, `get_linear_data` and the search algorithms: the work is done by callbacks that are mostly outside the file.
- Races between device writes and the worker inside one list operation; list operations are atomic here.
- The `name` array behind its NUL: what `strcpy` leaves there is not modelled.
- `Task_12/kll/kll.c` and `Task_17/misc_device/misc_dev.c`, which repeat code covered here.
- The debugfs, sysfs and netfilter modules, the plain thread exercises, hello-world modules, user programs and kernel patches: interface plumbing or fragments of code outside the repository.
