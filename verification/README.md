# Verification of the file mirror

The repository holds three programs. A *content server* offers the files below a directory. A *mirror
server* lists the files of several content servers, and its workers fetch the wanted ones. An
*initiator* asks the mirror server for a session and prints its statistics. This project models the two
servers, the data structures that they share and the exchanges between them, and proves what their
runs keep.

`dafny verify dfyconfig.toml` checks everything.

## What is modelled

**The mirror server's session protocol** (`Mirror*.dfy`). `MirrorModel` is a small-step transition system:
any number of workers, any number of managers per session, one master, any number of sessions. The code of
each thread is a table from program counters to instructions (`WorkerCode`, `ManagerCode`, `MasterCode`),
one entry for each lock, unlock, wait, signal, test and write of the source; a read-modify-write is two
steps. A signal wakes one sleeper, chosen freely, a broadcast wakes all, and spurious wakeups are steps of
their own. An unguarded pop of the empty queue aborts the program, as the uncaught exception does. A
push onto the full queue is caught and its entry is dropped. A manager's `todo` is what it read and its
filter let through; a manager whose name lookup fails is one with nothing to do, and one that the master
has not created yet is one that has taken no step. A fetch has any outcome: failure, success with some
number of bytes, or none, for ever (`NetResult.Never`); a manager may likewise never be told the next name.
`Log` holds history variables only.

The other modules build on it: mutual exclusion (`MirrorLocks`), the barrier (`MirrorBarrier`), the flags
(`MirrorFlags`), the sleepers' promises (`MirrorProgress`), deadlock (`MirrorDeadlock`), termination
(`MirrorTermination`), conservation (`MirrorLedger`), the statistics (`MirrorStats`), the one-worker case
(`MirrorSolo`), sessions of at most one entry (`MirrorFew`), induction over runs (`MirrorRuns`), the main
results (`MirrorTheorems`), and runs that show that the limits in them are sharp (`MirrorWitness`,
`MirrorSlowWorker`).

**The content server's hand-off** (`Content*.dfy`). The same instructions (`Threads`), another program: the
master does not hold the full mutex across its push, a failed pop sends the worker back to its first
lock with two mutexes taken, and a push onto the full queue is not caught. A request that needs the hash
table takes that table's mutex; one with a bad ID throws there, and the worker goes back to its loop
without giving the mutex back. A transfer may never end.

**The data structures**: the linked `queue`, with nodes on the heap (`LinkedQueue`); the growing
`my_vector` (`MyVector`); `my_string`, with its buffer, its null and its own idea of its length
(`MyString`), against what split, join and search mean (`Text`) and what numerals mean (`Decimal`); the
chained `hash_table` (`HashTable`).

**The exchanges**: the request formats and the content server's dispatch, from a registered delay to a
fetch that waits for it (`Messages`); the LIST exchange over two byte channels (`ListProtocol`); the file
transfer (`FileTransfer`); the directory walks (`DirWalk`); the spread in the final report (`SpreadBound`).

What is undefined in C++ is a result of its own where a caller could meet it: a read outside an array, a
string appended to itself, a receive past its buffer.

## Where the code does not keep the obvious claim

These are modelled as they are, and each comes with its exact condition.

- With two or more workers, a worker can pop the last entry before its manager has published it; the
  manager then lowers the empty flag over an empty queue, and the next pop ends the mirror server. This
  can happen exactly when there are at least two workers and two entries (`MirrorWitness.AbortExactly`).
- A worker that is late to lower the full flag can lower it over a full queue, and the next push
  loses its entry. A session can lose an entry exactly when it offers at least 258 of them
  (`MirrorWitness.DropExactly`).
- A worker that has not left its acknowledgement wait when the next session clears the
  acknowledgement never leaves it. A fetch of an empty file never ends, and then the worker is never counted.
  A session that does not abort gets back to the accept exactly when no worker is in that wait at the
  clearing and no fetch hangs (`MirrorTheorems.ClearingDecidesTheEnd`). With any number of workers, two empty
  sessions are enough for a standstill, and one entry for a hang (`MirrorSlowWorker.StandstillHappens`,
  `MirrorSlowWorker.HangHappens`).
- The content server's pop takes the error branch under the same race, but with its mutexes held: nothing
  is ever handed out again. Here one worker and two connections suffice, and 258 connections for an abort
  (`ContentWitness.FewestConnections`).
- The bucket index of a key is negative when its hash is -2^31, which happens for the positive ID
  1039201056 (`Messages.BadId`). A FETCH with such an ID throws with the hash table's mutex taken, and from
  then on no LIST or FETCH is answered (`Messages.FetchGetsLastDelay`, `Messages.BadFetchSilences`). The
  workers get stuck one after the other, until a connection stays in the queue for ever
  (`ContentWitness.StarvationHappens`); without a bad ID and without a hung transfer the hand-off ends at
  rest (`ContentTheorems.HandOffEnds`).
- A LIST exchange can always be completed exactly when every listed name has less than 1023 bytes, or
  2046 (`ListProtocol.CompletesExactly`). A name of 1023 bytes leaves the content server waiting for ever.
  For one of 1024 to 2045 bytes the server may take the OK for an empty receive as the one for the second
  part: an OK is left over, or the next name's length is read as a part of this name. A longer one can
  overrun the receiver's buffer. With 2046 bytes both sides count three OKs.
- An empty file leaves the mirror server's worker waiting for ever (`FileTransfer.Transfer`).
- `my_vector::remove` is right exactly when the entry occurs at most once, `operator=` exactly when the
  next free index is right already, and `my_string += char` appends exactly when the length is exact
  (`MyVectors.MyVector.Remove`, `MyVectors.MyVector.AssignFrom`, `MyStrings.MyString.AppendChar`).

## Model

| member | source | states |
|---|---|---|
| `MirrorTheorems.SessionBarrier` | mirror-server/source/mirror_server.cpp:198-268 | on every run, `_q_done` is the number of workers that drained in this session, each counted once; from the end of the master's wait to the acknowledgement all managers have exited, the queue is empty and every worker is parked with nothing in its hands |
| `MirrorTheorems.ResetRacesWithNobody` | mirror-server/source/mirror_server.cpp:68-112 | while the master reports and resets, no step of another thread changes a shared variable |
| `MirrorTheorems.FlagsAreHonest` | mirror-server/source/worker.cpp:67-93 | while the managers are not done: `_empty` means an empty queue or an unpublished push, `_full` a full queue or a pop that has not lowered it, for any thread counts |
| `MirrorTheorems.Conservation` | mirror-server/source/mirror_manager.cpp:120-149 | on every run, the entries offered are those still to push, queued, held, finished or dropped, with their multiplicities; a drop needs at least 258 offered |
| `MirrorTheorems.QueueKeepsOrder` | mirror-server/source/mirror_manager.cpp:138-149 | at every step an entry leaves the queue only at its front, into the hands of the worker that pops it, and enters only at its end, as its manager's next one; only a full queue turns one away |
| `MirrorTheorems.SessionFinishesAll` | mirror-server/source/worker.cpp:74-159 | when the master reports, every entry was finished or dropped, and all were finished if fewer than 258 were offered |
| `MirrorTheorems.ReportIsExact` | mirror-server/source/mirror_server.cpp:231-252 | the report sent names the number of files fetched, the sum of their bytes, the average rounded towards zero and the squared distances from it, and depends only on the multiset of the sizes |
| `MirrorRuns.ReportSays` | mirror-server/source/mirror_server.cpp:231-248 | each field of a report, by the sizes it is about; the average by its bounds, for byte counts of either sign |
| `MirrorRuns.ReportIgnoresOrder` | mirror-server/source/mirror_server.cpp:236-242 | the report made from a permutation of the sizes is the same report |
| `MirrorRuns.StatsAtSend` | mirror-server/source/worker.cpp:230-249 | at the report, the three separately locked statistics agree with the sizes fetched, though each update is a read and a write |
| `MirrorTheorems.OneWorkerNeverAborts` | mirror-server/source/worker.cpp:76-87 | with one worker, any managers and any sessions, the unguarded pop never meets an empty queue |
| `MirrorSolo.StepKeepsSolo` | mirror-server/source/mirror_manager.cpp:132-161 | why: every step keeps enough entries behind a lowered empty flag, and does not abort |
| `MirrorTheorems.DeadlockFreedom` | mirror-server/source/worker.cpp:67-178 | inside a session no thread can move if and only if the program is at the standstill of a late worker, or hangs: a fetch or a listing that never ends holds up the master, and everybody else sleeps |
| `MirrorTheorems.HungIsForEver` | mirror-server/source/worker.cpp:219-226 | a fetch that does not end keeps the session from its accept on every run |
| `MirrorDeadlock.LockOrder` | mirror-server/source/mirror_manager.cpp:132-161 | every thread takes the full, the empty and the queue mutex in this order, any other mutex alone, and sleeps without any |
| `MirrorTheorems.SectionsExclude` | mirror-server/source/worker.cpp:67-178 | on every run, no two threads are in critical sections of one mutex, and the lock table names the one that is |
| `MirrorTheorems.SleepersAreAwaited` | mirror-server/source/mirror_manager.cpp:131-161 | while the managers may push: all workers sleep over a queued entry only while a manager is between push and signal; a manager sleeps only over a queued entry, a coming signal or another manager awake in the push section |
| `MirrorLocks.StepKeepsLocks` | mirror-server/source/mirror_server.cpp:198-268 | every step keeps the lock table exact: a mutex belongs to a thread if and only if the thread is in one of its critical sections |
| `MirrorBarrier.StepKeepsBarrier` | mirror-server/source/mirror_server.cpp:222-229 | every step keeps the barrier's invariant: counter, joined managers, done and acknowledgement flags, and the place of every worker |
| `MirrorFlags.StepKeepsFlags` | mirror-server/source/mirror_manager.cpp:131-161 | every step keeps the flags true, and a thread about to sleep keeps its reason |
| `MirrorProgress.StepKeepsProgress` | mirror-server/source/mirror_manager.cpp:131-161 | every step keeps each sleeper's promise: a sleeping manager has an entry, a signal or another manager to wake it; all workers sleep with a non-empty queue only while a signal is on its way |
| `MirrorLedger.StepKeepsLedger` | mirror-server/source/worker.cpp:76-120 | every step keeps the account of the entries, and drops only where 258 were offered |
| `MirrorStats.StepKeepsStats` | mirror-server/source/worker.cpp:230-249 | every step keeps each statistic equal to what was fetched less what the workers still owe it |
| `MirrorDeadlock.StuckOnlyWhenLate` | mirror-server/source/mirror_server.cpp:222-229 | under the invariants, a state inside a session without a possible step is exactly a standstill or a hang |
| `MirrorDeadlock.ClearingDecides` | mirror-server/source/mirror_server.cpp:203-208 | a worker is late after the clearing of the acknowledgement if and only if one was in the acknowledgement wait before it |
| `MirrorDeadlock.LateStaysLate` | mirror-server/source/worker.cpp:172-178 | a late worker stays late and holds the master in its wait |
| `MirrorTermination.RunsAreBounded` | mirror-server/source/mirror_server.cpp:198-271 | a run inside a session has at most `Measure` steps, and four more for each spurious wakeup |
| `MirrorTheorems.SessionEnds` | mirror-server/source/mirror_server.cpp:130-271 | a session's runs are finite, with spurious wakeups as with hangs, and end in an abort, back at the accept, at a standstill, or hanging |
| `MirrorTheorems.ClearingDecidesTheEnd` | mirror-server/source/mirror_server.cpp:203-229 | which of these it is, unless it aborts: back at the accept if and only if no worker was in its acknowledgement wait at the clearing and no fetch hangs |
| `MirrorTheorems.OneWorkerSessionCompletes` | mirror-server/source/mirror_server.cpp:198-271 | with one worker no session aborts; it gets back to the accept if and only if that worker was not in its acknowledgement wait and its fetches end, and then with exactly one new report, whose fields are those of the files fetched, and with everything offered finished or dropped |
| `MirrorWitness.AbortExactly` | mirror-server/source/worker.cpp:80 | an aborted state with `m` entries offered can be reached if and only if there are two workers or more and `m` is at least 2 |
| `MirrorFew.AbortNeedsTwo` | mirror-server/source/mirror_manager.cpp:132-161 | with any number of workers, no session of at most one entry aborts: its entry keeps the empty flag exact |
| `MirrorWitness.DropExactly` | mirror-server/source/mirror_manager.cpp:138-144 | a session offering `m` entries can lose one if and only if `m` is at least 258 |
| `MirrorSlowWorker.StandstillHappens` | mirror-server/source/mirror_server.cpp:203-208 | with every number of workers a standstill can be reached, without a spurious wakeup |
| `MirrorSlowWorker.HangHappens` | mirror-server/source/worker.cpp:219-226 | with every number of workers one entry, whose fetch does not end, is enough for a hang |
| `SpreadBound.SpreadIsClose` | mirror-server/source/mirror_server.cpp:236-242 | with `n` files, `n` times the spread sent is `n * sum x^2 - S^2 + r^2` with `0 <= r < n`, so the spread is never below the true one and exceeds it by less than `n` |
| `SpreadBound.SumSpread` | mirror-server/source/mirror_server.cpp:238-242 | the loop's sum is that of the squared deviations, and its expansion |
| `ContentTheorems.HandOffKeepsOrder` | content-server/source/content_server.cpp:86-121 | on every run, aborted and jammed ones too: the connections accepted are those handed out, then the queue, then the master's hand, in order; each worker holds the one handed to it last |
| `ContentTheorems.FlagsAreHonest` | content-server/source/content_manager.cpp:39-74 | the one-sided truth of both flags, for any number of workers |
| `ContentTheorems.FailuresNeed` | content-server/source/content_manager.cpp:51-56 | a jam needs a connection popped before it was published, and so two connections; an abort needs 258; a lost hash mutex needs a FETCH with a bad ID |
| `ContentTheorems.JamIsForEver` | content-server/source/content_manager.cpp:51-56 | after a jam no connection enters or leaves the queue on any run |
| `ContentTheorems.LostIsForEver` | content-server/source/content_manager.cpp:127-150 | after a bad ID the hash table's mutex is never free again, and no worker gets into its section |
| `ContentTheorems.StuckOnlyWhenStopped` | content-server/source/content_server.cpp:94-121 | unless jammed or aborted, no thread can move if and only if each worker sleeps on an empty queue, hangs in a transfer, or waits for the lost hash mutex, and the master waits for a client or for room |
| `ContentTheorems.StoppedMeansServed` | content-server/source/content_manager.cpp:38-74 | as long as one worker still sleeps there, the queue is empty and every connection has been handed out |
| `ContentTheorems.AtRestExactly` | content-server/source/content_manager.cpp:127-150 | such a stop is a rest if and only if no bad ID was received and no transfer hangs |
| `ContentTheorems.HandOffEnds` | content-server/source/content_server.cpp:86-121 | without new clients every run is finite; it ends in an abort, a jam, at rest with every connection handed out in the order of acceptance, or else, which is if and only if a bad ID came or a transfer hangs, with every connection handed out or every worker stranded |
| `ContentInvariants.StepKeepsInv` | content-server/source/content_manager.cpp:36-150 | every step keeps locks, order, flags, sleepers' promises and the two failures' preconditions |
| `ContentTheorems.SectionsExclude` | content-server/source/content_manager.cpp:38-74 | on every run, no two threads are in critical sections of one mutex, the hash table's included; a thread that has lost it counts as in it |
| `ContentWitness.FewestConnections` | content-server/source/content_server.cpp:104-121 | for every number of workers, a jam is possible from two connections on and no sooner, an abort from 258 on and no sooner, a lost hash mutex from the first on |
| `ContentWitness.JamHappens` | content-server/source/content_manager.cpp:49-56 | two connections can jam the program, even with one worker |
| `ContentWitness.AbortHappens` | content-server/source/content_server.cpp:106 | 258 connections can abort it, even with one worker |
| `ContentWitness.LossHappens` | content-server/source/content_manager.cpp:127-150 | one FETCH with a bad ID loses the hash table's mutex, with any number of workers |
| `ContentWitness.StarvationHappens` | content-server/source/content_manager.cpp:101-127 | after it, one connection for each worker strands them all, over a queue that is not empty |
| `LinkedQueue.Queue.Push` | shared/source/queue.cpp:31-44 | a push fails exactly when the queue is full; else the sequence grows by the entry at its end; only live nodes are followed |
| `LinkedQueue.Queue.Pop` | shared/source/queue.cpp:46-60 | a pop fails exactly when the queue is empty; else it gives the first entry, deletes its node and leaves the rest |
| `LinkedQueue.Queue.Destroy` | shared/source/queue.cpp:12-20 | the destructor deletes every node, each once |
| `LinkedQueue.FirstInFirstOut` | shared/source/queue.cpp:31-63 | over any run of operations the entries accepted are those popped, then the contents, and these never exceed the maximum |
| `LinkedQueue.Perform` | shared/source/queue.cpp:31-60 | any run of operations on the linked nodes does what it does on the sequence |
| `MyVectors.MyVector.Push` | shared/source/my_vector.cpp:58-64 | the contents grow by the entry, through any enlargement |
| `MyVectors.MyVector.Copy` | shared/source/my_vector.cpp:12-23 | a copy has the same contents in an array of its own |
| `MyVectors.MyVector.At` | shared/source/my_vector.cpp:98-104 | the entry at the index, an exception exactly past the end, and a read before the array exactly for a negative index |
| `MyVectors.MyVector.In` | shared/source/my_vector.cpp:79-86 | true if and only if the entry is there |
| `MyVectors.MyVector.SetAt` | shared/source/my_vector.cpp:144-150 | replaces the entry; the index just past the end is accepted and changes nothing |
| `MyVectors.MyVector.RemoveAt` | shared/source/my_vector.cpp:181-200 | takes out exactly the entry at the index, or fails exactly outside the bounds |
| `MyVectors.MyVector.Remove` | shared/source/my_vector.cpp:154-178 | leaves the contents without the entry if and only if it occurred at most once |
| `MyVectors.FilterInOrder` | shared/source/my_vector.cpp:154-178 | the filtered contents are the other entries, all of them, in order |
| `MyVectors.MyVector.AssignFrom` | shared/source/my_vector.cpp:206-216 | takes over the contents; the vector is in order afterwards if and only if the next free index was right already |
| `MyVectors.MyVector.Clear` | shared/source/my_vector.cpp:132-141 | leaves an empty vector in order |
| `MyVectors.JoinEntries` | shared/source/my_vector.cpp:66-76 | the loop gives the join of the entries, with an exact length; it leaves the array exactly for the empty vector |
| `MyStrings.MyString.AppendChar` | shared/source/my_string.cpp:357-376 | appends if and only if the length is exact, and else leaves the text alone |
| `MyStrings.MyString.AppendText` | shared/source/my_string.cpp:337-354 | appends, and makes the length inexact; undefined exactly for the string's own buffer |
| `MyStrings.MyString.Append` | shared/source/my_string.cpp:312-333 | appends; the length is exact afterwards if and only if both were; undefined exactly for the string itself |
| `MyStrings.MyString.AppendInt` | shared/source/my_string.cpp:378-406 | appends the shortest decimal numeral, digit by digit, and makes the length exact |
| `MyStrings.MyString.Assign` | shared/source/my_string.cpp:288-295 | takes over the text and makes the length exact |
| `MyStrings.MyString.FromInt` | shared/source/my_string.cpp:49-56 | the shortest decimal numeral of the number, digit by digit, with an exact length |
| `MyStrings.MyString.Substr` | shared/source/my_string.cpp:147-164 | throws exactly when start plus length reaches the string's length; else gives one character more than asked for, or the rest; leaves the buffer only when the length is inexact |
| `MyStrings.MyString.SplitAt` | shared/source/my_string.cpp:124-145 | the loop over `+= char` gives exactly the pieces of the text |
| `MyStrings.MyString.RemoveSubstr` | shared/source/my_string.cpp:205-228 | takes out exactly the first occurrence of a non-empty pattern |
| `Text.JoinAfterSplit` | shared/source/my_string.cpp:124-145 | join after split is the string, less one delimiter at its end |
| `Text.SplitAfterJoin` | shared/source/my_vector.cpp:66-76 | split after join gives delimiter-free pieces back if and only if there is one piece or the last is not empty |
| `Text.SplitTokens` | shared/source/my_string.cpp:108-122 | the strtok form with one delimiter is the char form without empty pieces |
| `Text.NonEmptyInOrder` | shared/source/my_string.cpp:108-122 | those pieces are all that are not empty, in order |
| `Text.SearchMeaning` | shared/source/my_string.cpp:189-199 | `contains` and `starts_with` by `strstr` mean infix and prefix |
| `Text.RemovePrefix` | shared/source/my_string.cpp:205-228 | removing a prefix leaves the rest, and both rejoin |
| `Text.RemoveFirstMeans` | shared/source/my_string.cpp:205-228 | what is left is what stood before and behind the earliest occurrence, or everything if there is none |
| `Decimal.ReadPrint` | shared/source/my_string.cpp:173 | `atoi` gives back what `sprintf("%d")` printed, for every integer and whatever follows |
| `Decimal.PrintIsNumeral` | shared/source/my_string.cpp:49-56 | what is printed has a minus if and only if it is negative, no leading zero, and in each place the digit of that power of ten |
| `Decimal.NumeralIsUnique` | shared/source/my_string.cpp:49-56 | nothing else is such a numeral |
| `Decimal.ReadNumeral` | shared/source/my_string.cpp:173 | `atoi` reads every numeral, with leading zeros and either sign, whatever follows |
| `HashTables.Hash` | content-server/source/hash_table.cpp:91-105 | the loop computes `5381 * 33^n + sum c_i * 33^(n-1-i)`, wrapped to 32 bits |
| `HashTables.IndexInRange` | content-server/source/hash_table.cpp:22-27 | the bucket index is in range if and only if the sum does not wrap to -2^31 or the size divides 2^31 |
| `HashTables.IndexIs` | content-server/source/hash_table.cpp:22-27 | the bucket index is the absolute value of the wrapped sum modulo the size, and negative exactly for -2^31 |
| `HashTables.DefaultSize` | content-server/source/hash_table.cpp:104 | with 30 buckets, the index of a key with that one hash is -8, and every other is in range |
| `HashTables.HashTable.InsertKey` | content-server/source/hash_table.cpp:22-36 | the map gains or replaces the binding; a key with a bad index is dropped |
| `HashTables.HashTable.GetKey` | content-server/source/hash_table.cpp:39-55 | the value bound to the key, not found, or the error for a bad index, exactly |
| `HashTables.HashTable.SetKey` | content-server/source/hash_table.cpp:58-72 | replaces the binding of a key that is there, and changes nothing else |
| `HashTables.HashTable.RemoveKey` | content-server/source/hash_table.cpp:76-89 | removes exactly that binding, though the loop goes on over the shortened bucket; reads outside the array exactly for a bad index |
| `Messages.BuildEntry` | mirror-server/source/mirror_manager.cpp:120-128 | the appends give the entry's text, with an exact length |
| `Messages.BuildList` | mirror-server/source/mirror_manager.cpp:78-86 | the appends give the LIST request |
| `Messages.BuildFetch` | mirror-server/source/worker.cpp:182-189 | the appends give the FETCH request |
| `Messages.EntryRoundTrip` | mirror-server/source/worker.cpp:287-295 | a worker reads back what the manager queued if and only if path and address hold no colon, for all ports and IDs, negative ones too |
| `Messages.InfoOfText` | mirror-server/source/worker.cpp:287-295 | a worker takes any entry apart by its first four pieces, whatever follows |
| `Messages.EntriesToPush` | mirror-server/source/mirror_manager.cpp:98-149 | the manager's loop pushes the entries of the wanted names, in order |
| `Messages.WorkersSeeTheWanted` | mirror-server/source/mirror_manager.cpp:116-128 | those entries, taken apart by the workers, give the names of the list that contain, or start with, the wanted path, and only those, each as often and in the order as the list has them |
| `Messages.Serve` | content-server/source/content_manager.cpp:84-149 | one request gives the answer, and the change of the registered delays and of the hash mutex, that its pieces mean |
| `Messages.EventIsAnswer` | content-server/source/content_manager.cpp:84-150 | the hand-off loses the hash mutex on exactly the requests that throw here, and waits for it on exactly those that are blocked here |
| `Messages.ServeAll` | content-server/source/content_manager.cpp:77-149 | for any sequence of requests from an empty table: a LIST gets the list, a FETCH its path with the last delay of its ID, unknown, or the exception, and after a bad FETCH both are blocked |
| `Messages.ListAnswer` | content-server/source/content_manager.cpp:87-110 | a manager's LIST gets the list unless the hash mutex is lost |
| `Messages.TextAnswer` | content-server/source/content_manager.cpp:84-150 | the answer to any text with three pieces or more, and what it leaves, by the text itself: only a LIST registers, and what follows the third piece does not matter |
| `Messages.ShortAnswer` | content-server/source/content_manager.cpp:87-126 | a LIST or FETCH with fewer pieces is malformed, another text is ignored, and neither changes anything, with the mutex lost or not |
| `Messages.LastDelayAt` | content-server/source/content_manager.cpp:101-105 | the last delay is that of the LIST with the ID which no other follows |
| `Messages.FetchGetsLastDelay` | content-server/source/content_manager.cpp:106-147 | after any requests a FETCH is answered if and only if its ID is good and registered and no earlier FETCH had a bad ID; the answer is then its own path and the delay registered last |
| `Messages.FetchAfterRequests` | content-server/source/content_manager.cpp:106-150 | the four answers of a FETCH after any requests, exactly: blocked, thrown, unknown, or sending |
| `Messages.RequestFor` | mirror-server/source/worker.cpp:182-189 | a worker's request for a queued entry is the FETCH of the path and the ID in it, if it can be read |
| `Messages.EndToEnd` | mirror-server/source/worker.cpp:182-189 | manager's entry, worker's FETCH and content server together: the same path with the last registered delay, if and only if the ID is good and registered and no bad FETCH came before |
| `Messages.BadId` | content-server/source/hash_table.cpp:39-43 | the ID 1039201056 has no valid bucket |
| `Messages.BadFetchSilences` | content-server/source/content_manager.cpp:127-150 | one FETCH with that ID, and a FETCH whose ID is registered afterwards is not answered |
| `ListProtocol.OneUnread` | shared/source/help_func.cpp:14-62 | what is unread on every run in lockstep: at most two OKs, and one number, name or half of a 2046-byte name; without such names one message in all |
| `ListProtocol.ListCompletes` | content-server/source/content_manager.cpp:160-191 | for names of at most 1023 bytes, or 2046, the exchange is finite and ends with the client holding the list, in order, and both channels empty, if and only if no name has 1023 bytes, and then after exactly `Steps` steps; else the server waits after the first that has, and the client too unless that name is the last |
| `ListProtocol.CompletesExactly` | shared/source/help_func.cpp:45-62 | for any names: from every state that a run can reach, some run completes the list, if and only if every name has less than 1023 bytes, or 2046 |
| `ListProtocol.StepKeepsJoint` | mirror-server/source/mirror_manager.cpp:88-106 | every step of either side keeps the two in lockstep, as long as the names so far have at most 1023 bytes, or 2046 |
| `FileTransfer.SendFile` | content-server/source/content_manager.cpp:235-261 | `length / 1024 + 1` blocks, the `k`-th being the bytes from `1024 * k` on, and together the file |
| `FileTransfer.WireInOrder` | content-server/source/content_manager.cpp:248-252 | what is sent first is on the wire first |
| `FileTransfer.WireAt` | content-server/source/content_manager.cpp:248-252 | each byte of a block is on the wire right behind the bytes of the blocks before it |
| `FileTransfer.ReceiveFile` | mirror-server/source/worker.cpp:199-226 | for every fragmentation, the loop ends with the bytes sent and their number, and waits for ever exactly when fewer were sent than announced, or none |
| `FileTransfer.Transfer` | mirror-server/source/worker.cpp:199-228 | a whole transfer gives the file, and the number of bytes received if it is not empty; an empty one is the fetch that never ends |
| `DirWalk.GetList` | content-server/source/content_manager.cpp:277-301 | the recursion pushes the relative names of the walk, in order |
| `DirWalk.ListRoot` | content-server/source/content_manager.cpp:267-305 | the same from the served path on; a regular file is listed unstripped |
| `DirWalk.GetContentsCond` | content-server/source/content_manager.cpp:314-338 | the same walk unstripped: exactly those paths in which the condition occurs, in order and as often as the walk has them |
| `DirWalk.ContentsOfRoot` | content-server/source/content_manager.cpp:307-344 | the same from the given path on, which may be a file |
| `DirWalk.RootMatches` | content-server/source/content_manager.cpp:307-344 | a path is found if and only if the condition occurs in it and it is a file below the directory, or the given regular file itself |
| `DirWalk.FetchFindsAll` | content-server/source/content_manager.cpp:213-228 | the search of a FETCH never rejects a file: the regular file asked for is the one match, and of a directory every file below is one |
| `DirWalk.WalkInOrder` | content-server/source/content_manager.cpp:277-301 | the paths of earlier entries come before those of later ones |
| `DirWalk.WalkOfOne` | content-server/source/content_manager.cpp:277-301 | an entry gives its own path, a directory what is below it, "." and ".." nothing |
| `DirWalk.WalkIsEveryFile` | content-server/source/content_manager.cpp:267-305 | a path is listed if and only if it leads through directories to a file |
| `DirWalk.WalkNoTwice` | content-server/source/content_manager.cpp:267-305 | with distinct sibling names without slashes, none is listed twice |
| `DirWalk.RelativeNamesRejoin` | content-server/source/content_manager.cpp:289-297 | the served path and a listed name make the original path |

## Left out

- Sockets, name lookup, connecting, accepting and closing: a receive takes bytes that are there, a fetch has any outcome, an accept takes any connection.
- A dropped connection in the middle of a transfer, where a receive gives 0 or -1.
- Memory models weaker than sequential consistency; each access to a shared variable is one step.
- pthread scheduling attributes, console output, the command line and the `main` files.
- The content server's transfer is one step of the hand-off, or one that never ends; what it sends is in `ListProtocol` and `FileTransfer`.
- Integer overflow of byte totals, and the printing of doubles: sums are exact integers, the report holds the spread as an integer.
- Receives that split a message of the LIST exchange: a send arrives whole, though two sends may be received as one.
- Whether a receive of nothing waits for data: in `ListProtocol` it does not. The runs that spoil a list have data there, so they do not depend on it.
- The path cleaning of `_do_fetch`: paths are compared as they were sent.
- Real files, `stat`, `readdir` and `mk_path`: a directory is an abstract finite tree.
- `my_vector::sublist`, the range copy, `at_p`, and copying queue nodes: nothing in the two servers uses them.
- `my_string::remove`, `replace` and self-assignment: not used by the two servers.
- Strings built from a null `char *`: their length is 0, below what the appends need.
- White space before a numeral in `atoi`, and the overflow of numerals beyond 32 bits.
- The buckets of the hash table are sequences here, not vectors of their own; that a vector is a sequence is shown in `MyVector`.
- What happens after an undefined read or write: such a call has a result that says so, and promises nothing more.
- Transfer: an empty file blocks the receiver; what the sender then does is not modelled.
- ListCompletes: names of at most 1023 bytes, or 2046; CompletesExactly says what other names do.
- Substr: says nothing about the characters past the null of a string whose length is inexact.
