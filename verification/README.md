# Verified model of networkfs

networkfs mounts a WebDAV server through FUSE. This project models the parts of it whose correctness is hard to see
from any one function, and proves what they are there for. Everything is stated for all inputs, all runs and any
number of threads; machine arithmetic, truncated text and failing requests are part of the model.

* **CRC-32 and the vtable guard** (`Gf2`, `WordBits`, `Crc32Generator`, `Crc32Layout`, `Crc32Table`, `Crc32`,
  `VTableGuard`).
  Polynomials over GF(2) are bit sequences with their own multiplication. The loop over the literal 256-entry table
  is division of the message by the generator polynomial, and every change within 32 consecutive bits is noticed.
* **The control-flow macros** (`ExceptionCell`, `JumpCode`, `Macros`, `Expansion`, `Simulation`, `Divergence`,
  `MacroLaws`, `MacroMeanings`, `TryClauses`, `Brackets`, `Scopes`, `Locking`, `MacroDiscipline`). `reflow`, `with`,
  `throwable`, `throw`, `try`, `catch`, `onerror` and `ensure_synchronized` are a small language with a meaning of its own
  and an expansion into C statements with `goto`, which run on a machine that searches for labels. The two agree on
  every program, ending or not, and at every step. On top of that: exceptions are conserved and reach the first clause
  of their kind, scopes are closed once and in order, locks are released as often as they were obtained, a `with_curl`
  returns its handle however its body ends, and `throwable` keeps later statements from running after a raise.
* **The concurrent stack and the pool of CURL handles** (`StackMachine`, `StackHistory`, `StackObject`, `HandlePool`,
  `HandleUse`). Any number of threads, one shared read or write per step, sequentially consistent memory. The stack is
  linearizable and safe although its emptiness test runs without the lock; handles are conserved, and handed out and
  taken back as they should be.
* **The file lock registry** (`LockRegistry`, `LockRegistryMoves`, `LockRegistryRuns`, `LockRegistrySafety`,
  `LockRegistryAftermath`, `LockRegistryFacts`, `LockRegistryLosses`, `LockRegistryCallers`). `dav_lock` and
  `dav_unlock` as steps of any number of threads over the lock tree, the entries in memory, and the locks granted by the
  server (sections 9.10 and 9.11 of RFC 4918), with allocations and requests that fail.
* **Reading and writing over ranged requests** (`Buffers`, `Numerals`, `Ranges`, `DavFile`, `DavFileLaws`). `dav_write`
  and `dav_read` with the text of the range, the buffers libcurl calls back into, and the padding after a 416, against
  `pwrite` and `pread` on plain bytes.
* **PROPFIND and text** (`Propfind`, `FileStat`, `StatFields`, `CStrings`, `LockTokens`). Which prop of a response is
  used, which entry of it decides each field of the stat, modes and owners written and read back, and lock tokens parsed
  and printed.

`Options` holds the option type. What the source updates in place is a class or an array here (`VTable`, `Guard`,
`ExceptionObject`, `Stack`, `Buffer`, `Server`, the header buffers), each method proved against a function of the old
state; protocols between threads are step functions with invariants.

## What the code does not do

Where the code falls short of its intent the model follows the code; where that costs a property, the exact condition
under which it holds is proved, with inputs for which it does not.

* `dav_unlock` does not clear its local variable before the second look (`proto/dav/method.c:694-706`). If the entry
  is in use again or gone by then, it sends UNLOCK for an entry that is not its own and frees it. The accounts of the
  registry hold in a run exactly when this never happens (`AsWrittenExactly`). Exactly in the runs in which it happened
  there is a point from which moves that overtake nothing more come to use a freed entry
  (`FaultsExactlyWhenOvertaken`), and however such a run has gone on since, it can still come to that
  (`OvertakenCanEnd`). It does happen, with two threads and one file (`OvertakingHappens`). Callers avoid it when no
  call for the path steps between the two critical sections of a release (`UndisturbedIsOrderly`). With the variable
  cleared, as the test that follows suggests was intended, the accounts hold in every run (`RegistryConserved`).
* A lock granted by the server is lost to it when the reply is rejected afterwards, when the entry cannot be inserted,
  or when UNLOCK fails. In the second case the handler asks for UNLOCK (`proto/dav/method.c:653-658`), but
  `with_curl` skips its body while the exception is pending (`PendingSkipsBody`). While no second look is overtaken,
  exactly as many locks are left that nobody will release as there were such steps (`LossesCounted`), so that the server is left without a lock if and only
  if there was none (`EveryLockReleased`); `LockIsLost` is a run of one `dav_lock` that leaves one behind.
* `dav_write` compares the length of the file with the low 32 bits of the offset (`proto/dav/dav.c:169`), so a gap is
  filled exactly when `GapSeen` says so; and the range text has room for twenty digits (`common/wrapper/curl.h:123`), so
  larger offsets lose digits (`LostDigits`); and it returns its size as an `int`, so that from 2^31 bytes on success
  reads as an error or as another count. `WriteExactly` gives the three conditions, and what a write of no bytes does; `UnseenGap` and
  `NegativeCount` are inputs that fail.
* `dav_get` counts in an `int` (`proto/dav/method.c:134`): windows of 2^31 bytes and more are reported wrong
  (`WindowExactly`, `LongRead`).
* The PROPFIND scan uses a null pointer when a propstat has no status behind a prop (`proto/dav/method.c:347`); `ScanExactly` says
  when, and `NoStatusCrashes` shows two such responses.
* The stat loops use a null pointer at an entry without a namespace, and at a `getcontentlength` of `DAV:` or a `mode`,
  `size`, `owner` or `time` of the program's own namespace that has no child, or whose first child has no content, as an
  element has not (`proto/dav/method.c:368-406`). `StatExactly` says that these are all; `NullsUsed` gives three.
* `dav_chown` writes the user and the group with a colon between them (`proto/dav/dav.c:239`), and `strtol` reads the group
  from the colon on (`proto/dav/method.c:402-403`). The user is always read back; the group is read back if and only if it
  is 0 (`ChownThenStat`).
* `virtual_method` has no outer parentheses (`common/grammar/vtable.h:38-45`), so calling a missing method through it
  does nothing; destroying an exception without a `destory` method relies on that.
* A `break` in the init of a `with` leaves it before the cleanup is armed (`InitBreaksOut`), so scopes are
  counted from the end of their init.

## Model

| member | source | states |
|---|---|---|
| Gf2.FeedIsRemainder | common/crc32.c:42-47 | shifting a message bit by bit through a register of any width leaves the remainder of init·x^n + message·x^width by the polynomial |
| Gf2.RemainderUnique | common/crc32.c:149-160 | the remainder by a generator polynomial is unique |
| Gf2.BurstDetected | common/crc32.c:149-160 | for any polynomial with both end coefficients set, messages that differ only inside a window of its degree leave the same remainder exactly when they are equal |
| Crc32Generator.StepsIsFeed | common/crc32.c:42-47 | n rounds of the generator's inner loop on a word are n zero bits fed into the division |
| Crc32Table.TableGenerated | common/crc32.c:67-133 | each of the 256 literal entries is the generator's eight steps from its index |
| Crc32.Xcrc32 | common/crc32.c:166-176 | the byte loop over the literal table ends in the remainder of the bitwise division, for any array, length and init |
| Crc32.CrcIsRemainder | common/crc32.c:140-160 | a word is the CRC if and only if its bits are the remainder of init·x^(8n) + M(x)·x^32 by the polynomial over GF(2) |
| Crc32.CrcSplit | common/crc32.c:140-143 | the CRC of two buffers is that of the second with that of the first as init |
| Crc32.CrcLinear | common/crc32.c:166-176 | the CRC of the exclusive or of two messages and inits is the exclusive or of their CRCs |
| Crc32.CrcInjective | common/crc32.c:166-176 | for one message, different inits give different CRCs |
| Crc32.BurstChangesCrc | common/crc32.c:166-176 | messages of equal length that differ only inside 32 consecutive bits, at any position, have equal CRCs exactly when they are equal |
| VTableGuard.Guard.RandInit | common/grammar/vtable.c:17-25 | the secret ends non-zero, and never changes once it is |
| VTableGuard.Guard.Checksum | common/grammar/vtable.h:52-57 | the checksum is the CRC of the method area under the secret |
| VTableGuard.Guard.Init | common/grammar/vtable.h:69-73 | after any order of constructors every table loaded so far passes the check |
| VTableGuard.Guard.Vaild | common/grammar/vtable.h:59-67 | a loaded, unchanged table is sound; a wrong checksum crashes; null is neither |
| VTableGuard.DamageDetected | common/grammar/vtable.h:52-67 | a table that passes stops passing after any real change inside 32 consecutive bits of its methods, whatever the secret |
| ExceptionCell.ExceptionObject.Destory | common/grammar/exception.c:128-138 | destroying empties the object and destroys what it held once |
| ExceptionCell.ExceptionObject.Init | common/grammar/exception.c:149-164 | raising destroys an exception still in the object, pending or caught, and holds the new one |
| ExceptionCell.InitConserves | common/grammar/exception.c:149-164 | raising keeps the account: every exception raised is in the object or was destroyed exactly once |
| ExceptionCell.DestroyConserves | common/grammar/exception.c:128-138 | destroying keeps the account |
| Simulation.Simulate | common/grammar/with.h:10-24 | from any place in any program, the expansion of a statement runs to where its meaning says, with the same state and trace |
| Divergence.HaltedIsFinal | common/grammar/with.h:10-17 | when the jump code halts, the meaning has ended as well and in the same way; no jump gets stuck |
| Divergence.ExpansionPreservesMeaning | common/grammar/with.h:10-34 | for every program the jump code halts with an outcome, exception state and trace if and only if the structured meaning ends with them |
| Divergence.StepsWithin | common/grammar/with.h:10-34 | at every step of the jump code, halting or not, nothing has been done but what the meaning does as well, in the same order |
| MacroLaws.ExceptionsConserved | common/grammar/try.h:20-32 | at every step of any jump code each exception raised is in the object or was destroyed exactly once, with rethrow, raise in a handler and nested handlers |
| MacroLaws.AnnotateKeepsMeaning | common/grammar/with.h:10-24 | marking where scopes open and close changes nothing else |
| MacroMeanings.WithRuns | common/grammar/with.h:23-30 | a `with` runs its declaration, its init, its body unless an exception is pending, and then its cleanup however the body ended, and ends normally |
| MacroMeanings.ThrowableRuns | common/grammar/try.h:31 | `throwable` leaves the surrounding block exactly when an exception is pending behind its statement |
| MacroMeanings.ThrowRuns | common/grammar/try.h:32 | `throw` leaves it always, with the exception in the object pending, also one that a `catch` had marked as caught |
| MacroMeanings.TroubleShows | common/grammar/try.h:11-13 | ordinary work in the wake of a statement shows in the record as troubled exactly when that statement left an exception pending |
| TryClauses.FirstClauseRuns | common/grammar/try.h:14-29 | when the body ends with an exception of some kind pending, the block of the first clause of that kind or of any kind runs, and no other; the `try` ends normally however the block did |
| TryClauses.FirstClauseHalts | common/grammar/try.h:14-29 | the same of the jump code: it halts with what that block comes to |
| TryClauses.NoClauseRuns | common/grammar/try.h:14-18 | without a clause for the kind the exception stays pending and nothing else is done |
| TryClauses.NothingRaised | common/grammar/try.h:14-18 | without a pending exception no clause runs |
| TryClauses.CaughtIsDestroyed | common/grammar/try.h:20-21 | behind a `catch` whose block leaves nothing pending the object is empty and the exception has been destroyed once |
| TryClauses.ObservedStaysPending | common/grammar/try.h:26-29 | behind an `onerror` whose block leaves the object alone the same exception is pending |
| TryClauses.RaiseReachesClause | common/grammar/exception.c:149-164 | an exception constructed in a `try` is in the hands of the first clause of its kind, under that kind, whatever was in the object before |
| TryClauses.ThrowLeaves | common/grammar/try.h:32 | `throw` around a constructor leaves the block with the new exception pending and no work done |
| Locking.LocksBalanced | common/grammar/synchronized.h:17-27 | at every step of the jump code of any program, halting or not, a lock used through `ensure_synchronized` is tried only while it is not held and released only while it is; when the code halts, however its blocks were left, the lock is free |
| Locking.GrantedRuns | common/grammar/synchronized.h:17-27 | when the attempt succeeds, the second block runs, then the first unless the second broke out, and the lock is released behind them |
| Locking.RefusedRepeats | common/grammar/synchronized.h:17-27 | when it fails, the second block runs all the same, and unless it breaks out everything starts again |
| Scopes.ScopesBalanced | common/grammar/with.h:10-24 | when the jump code of any program halts, every scope whose init completed has run its cleanup exactly once, innermost first, whether or not its condition held |
| Scopes.ScopesNested | common/grammar/with.h:10-24 | at every step of the jump code of any program, also one that never ends, only the innermost open scope is ever closed |
| Scopes.ScopedSteps | common/grammar/with.h:23-30 | the same at every step for programs whose `with` statements acquire and release handles |
| Scopes.HandlesReturned | common/wrapper/curl.h:55-56 | when the jump code of such a program halts, every handle was released as often as it was got, however the bodies ended, and also where getting it failed and raised |
| Scopes.ScopeIsMarked | common/grammar/with.h:10-24 | the marks that are balanced are there: one when the init of a scope has run, whatever the condition says, and one when its cleanup begins |
| Scopes.HandleIsMarked | common/wrapper/curl.h:55-56 | a handle that is got counts as taken before the body of the `with` runs, and as given back behind it |
| Scopes.MissingHandleRaises | common/wrapper/curl.h:55-56 | one that is not got raises its kind of exception, and the body is not run |
| Scopes.HandStays | common/wrapper/curl.h:55-56 | a body that does not assign to the handle's variable leaves the handle in it, so the cleanup releases what was got |
| Scopes.InitBreaksOut | common/grammar/with.h:10-24 | a `with` whose init breaks out after entering ends with its scope open |
| MacroDiscipline.QuietRun | common/grammar/try.h:11-33 | a program under the discipline of `throwable` does no ordinary work while an exception is pending |
| MacroDiscipline.CarefulRun | common/grammar/try.h:31-32 | a statement under `throwable` or `throw` leaves its block whenever it leaves an exception pending |
| MacroDiscipline.ThrowableCareful | common/grammar/try.h:31-32 | `throwable` and `throw` bring any quiet statement under the discipline |
| MacroDiscipline.WithQuiet | common/grammar/with.h:23-32 | a `with` over a quiet body is quiet, and careful under `throwable` |
| MacroDiscipline.TryQuiet | common/grammar/try.h:14-29 | so is a `try` with its clauses |
| MacroDiscipline.QuietJumpCode | common/grammar/try.h:11-33 | at every step of the jump code of a program under the discipline, halting or not, no ordinary work has been done while an exception was pending |
| MacroDiscipline.PendingSkipsBody | common/grammar/with.h:23-30 | a `with` whose declaration and init leave an exception pending skips its body: with any other body it means the same, and its jump code halts the same |
| StackMachine.StepKeepsInv | common/template/stack.c:11-36 | each step of push and pop, by any thread, keeps one holder of the lock at most, a finite chain without repeats, and the size up to the work in progress |
| StackMachine.RunKeepsInv | common/template/stack.c:11-36 | so does every run |
| StackMachine.ReachableSafe | common/template/stack.c:20-36 | in every reachable state one thread at most is inside, no null or dangling node was followed, the size is right when the lock is free, and a node being returned belongs to that thread alone |
| StackMachine.OwnersStay | common/template/stack.c:20-36 | no move takes a node from another thread |
| StackMachine.WaitsExactly | common/template/stack.c:11-36 | only a push waits, for the lock; a pop can always take its next step |
| StackMachine.FaultsExactly | common/template/stack.c:11-36 | what the model calls a fault is exactly the use of a null pointer or of a node that does not exist |
| StackHistory.StackLinearizable | common/grammar/synchronized.h:17-27 | every run looks to its clients like an atomic last-in first-out stack; an empty result is right at the read that found it |
| StackObject.Stack.Push | common/template/stack.c:11-17 | in memory, the node is linked on top of the others, which are not touched |
| StackObject.Stack.Pop | common/template/stack.c:20-36 | in memory, the top node is taken off without its link, or null returned exactly for the empty stack |
| HandlePool.ActionKeepsAccount | common/wrapper/curl.c:260-382 | each step of taking and returning a handle keeps every handle in one place |
| HandlePool.HandlesConserved | common/wrapper/curl.c:260-382 | over every run each handle ever created is in the pool, with one thread, or destroyed once |
| HandlePool.HandleExclusive | common/wrapper/curl.c:264-273 | a handle in a thread's possession is nobody else's, not in the pool and not destroyed |
| HandlePool.FaultsExactly | common/wrapper/curl.c:260-382 | taking and returning a handle faults exactly at a node that holds none yet, or that is not the thread's own |
| HandleUse.AcquireHandsOut | common/wrapper/curl.c:264-366 | after any run, taking a handle can be completed, and in every way of completing it in which all succeeds and the others stand still the thread ends with the handle on top of the pool, or with a new one when the pool is empty |
| HandleUse.ReleasePutsBack | common/wrapper/curl.c:371-382 | likewise returning one ends with it on top of the pool, and nothing destroyed |
| HandleUse.RefusalsCounted | common/wrapper/curl.c:264-382 | over every run the handles destroyed, and those on the way to it, are as many as the set-ups and the allocations that failed |
| LockRegistryRuns.StepKeepsInv | proto/dav/method.c:612-711 | every step of dav_lock and dav_unlock keeps the accounts of entries, counts and tokens, except an overtaken second look as written |
| LockRegistrySafety.RegistryConserved | proto/dav/method.c:612-711 | over whole runs each path has one entry at most, its count is the number of those who hold the path, each lock on the server has one place, and no freed entry is used |
| LockRegistrySafety.OvertakenBreaks | proto/dav/method.c:694-706 | as written, an overtaken second look breaks the accounts whatever the bookkeeping |
| LockRegistrySafety.AsWrittenExactly | proto/dav/method.c:667-711 | as written, the accounts hold at every point of a run if and only if no second look was overtaken |
| LockRegistrySafety.FaultsExactlyWhenOvertaken | proto/dav/method.c:667-711 | as written, a run can come to use a freed entry, after some point of it and by moves that overtake no second look, if and only if a second look was overtaken in it |
| LockRegistryAftermath.OvertakenCanEnd | proto/dav/method.c:612-711 | as written, every run with an overtaken second look, wherever it has come to, can be continued to the use of a freed entry |
| LockRegistryAftermath.RunIsWrong | proto/dav/method.c:612-711 | in every run, overtaken or not, until a freed entry is used there is one writer, no pointer to memory not yet allocated and no entry overwritten; and what an overtaken second look broke stays broken |
| LockRegistrySafety.OvertakingHappens | proto/dav/method.c:694-710 | a run of two threads on one file in which a second look is overtaken, and after which a freed entry can be used |
| LockRegistryFacts.OpenFileIsLocked | proto/dav/method.c:612-664 | an open file has a live entry with a positive count and a lock on the server for its path |
| LockRegistryFacts.OneAsksAtATime | proto/dav/method.c:637-652 | LOCK is asked by one thread at a time, and only for a path without an entry that nobody counts for |
| LockRegistryFacts.DoubleCheckedInsertion | proto/dav/method.c:617-663 | under any interleaving of dav_lock calls, some failing, a path is granted one LOCK and entered at most once, it is entered exactly when it is in the table, and its count is the successful returns and those about to return |
| LockRegistryFacts.FailedCallsLeaveTable | proto/dav/method.c:612-664 | calls of dav_lock that return failure change neither the table nor an entry, whatever other threads do meanwhile |
| LockRegistryCallers.UndisturbedIsOrderly | proto/dav/method.c:667-711 | as written, no second look is overtaken when no call for a path steps between the two critical sections of a release of it |
| LockRegistryCallers.UndisturbedIsSafe | proto/dav/method.c:667-711 | so such callers keep the accounts at every point and never come to use a freed entry |
| LockRegistryFacts.QuietMeansEmpty | proto/dav/method.c:667-711 | when all files are released, no entry is left and every lock left on the server is an orphan |
| LockRegistryFacts.FaultsExactly | proto/dav/method.c:612-711 | what the model calls a fault is exactly the use of an entry that has been freed, and a missing entry is reported exactly for a path without one |
| LockRegistryFacts.WaitsExactly | proto/dav/method.c:612-711 | a call waits for a writer, for readers when it wants to write, and for the server while the path is locked there, and for nothing else |
| LockRegistryLosses.LossesCounted | proto/dav/method.c:594-711 | the locks that nobody will release are as many as the replies rejected, insertions failed and UNLOCKs failed |
| LockRegistryLosses.EveryLockReleased | proto/dav/method.c:594-711 | once all files are released, the locks left on the server are as many as were lost: none if and only if none was |
| LockRegistryLosses.LockIsLost | proto/dav/method.c:652-663 | a run of one dav_lock whose insertion fails leaves a lock that nothing releases |
| Buffers.Buffer.Resize | common/template/buffer.c:10-21 | the size grows to what was asked exactly when the buffer may grow and realloc succeeds, and the bytes stay |
| Buffers.Buffer.Append | common/template/buffer.c:24-37 | as many bytes as fit are put behind the others, nothing else changes, and an exception is left exactly when a realloc was needed and refused |
| Buffers.Buffer.Fetch | common/template/buffer.c:40-52 | the next bytes are handed out, as many as are left |
| Buffers.Buffer.InitExist | common/template/buffer.c:55-62 | an empty buffer over the caller's memory |
| Buffers.ChunkingIndependent | common/template/buffer.c:24-37 | any sequence of appends is one append of the concatenation |
| Buffers.FixedKeepsFirst | common/template/buffer.c:24-37 | a fixed buffer ends with exactly the first bytes that fit, and the rest of its memory untouched |
| Buffers.ExtensibleKeepsAll | common/template/buffer.c:10-37 | an extensible buffer keeps every byte while it can grow |
| Buffers.FetchAllIsPrefix | common/template/buffer.c:40-52 | fetches of any sizes concatenate to the prefix of what is left |
| Numerals.TextRoundTrip | common/wrapper/curl.h:122-123 | a number printed in base 8 or 10 is read back, whatever follows that is not a digit |
| Ranges.RangeExactly | common/wrapper/curl.h:122-123 | the range text is read by the server as it was meant exactly when its two numbers have at most twenty digits |
| Ranges.RangeCut | common/wrapper/curl.h:122-123 | otherwise it is read as a shorter range, or cannot be used |
| DavFile.Server.Put | proto/dav/method.c:152-176 | whatever the sizes libcurl reads in, the body sent is the caller's data, and the outcome is the server's for the range printed |
| DavFile.Server.Get | proto/dav/method.c:133-149 | whatever the sizes libcurl writes in, the caller's memory holds the body as far as it fits, and an answer that does not fit is a failure |
| DavFile.Server.DavWrite | proto/dav/dav.c:141-185 | the new file and the returned number after the first PUT, HEAD, padding and last PUT, with ex empty again |
| DavFile.Server.DavRead | proto/dav/dav.c:118-138 | the memory and the returned number, 0 beyond the end of the file, with ex empty again |
| DavFileLaws.WriteAgrees | proto/dav/dav.c:141-185 | a dav_write that succeeds is pwrite with zero-filled gap; one that fails has done nothing, filled the gap, or lost only the last answer |
| DavFileLaws.WriteExactly | proto/dav/dav.c:169-177 | with every request answered, dav_write leaves the file and returns the number that pwrite does if and only if the range fits, the low 32 bits of the offset show the gap, and the size is an int |
| DavFileLaws.UnseenGap | proto/dav/dav.c:169 | one byte at offset 2^32 of an empty file is not written as pwrite does |
| DavFileLaws.NegativeCount | proto/dav/dav.c:183 | 2^31 bytes written to an empty file are all there, and the number returned is negative |
| DavFileLaws.ReadExactly | proto/dav/dav.c:118-138 | a read whose range fits is pread exactly when the bytes there can be counted in an int |
| DavFileLaws.WindowExactly | proto/dav/method.c:133-149 | a window reads right from every file if and only if its range fits and its size is an int |
| DavFileLaws.LongRead | proto/dav/method.c:133-149 | reading 2^31 bytes that are there returns EIO |
| DavFileLaws.LostDigits | common/wrapper/curl.h:122-123 | one byte behind the first 10^10 is neither written as pwrite does nor read as pread does |
| DavFileLaws.HistoryAgrees | proto/dav/dav.c:118-185 | any sequence of successful reads and writes answers and ends as on a plain file |
| DavFileLaws.SmallHistoryAgrees | proto/dav/dav.c:118-185 | the same for callers whose windows end below 10^10 and have 1 to 2^31 - 1 bytes |
| DavFileLaws.Int32Exactly | proto/dav/dav.c:183 | a size returned as an int is the one int that differs from it by a multiple of 2^32 |
| DavFileLaws.ErrnoExactly | proto/dav/dav.c:35-68 | 404, 412, 423, 501 and 507 become -2, -17, -16, -95 and -28, and every other failure -5 |
| DavFileLaws.ReadFails | proto/dav/dav.c:118-138 | a read whose request or answer is lost, or whose range is refused, returns -5 and leaves the memory |
| DavFileLaws.WriteFails | proto/dav/dav.c:141-185 | so does a write of which that happens to the first request, and the file stays unless only the answer is lost |
| DavFileLaws.PaddingFails | proto/dav/dav.c:157-185 | a write behind the end of the file returns -5 when any later request or answer is lost |
| Propfind.ScanPropstat | proto/dav/method.c:334-346 | the inner scan finds the first prop and the first status behind it |
| Propfind.ScanResponse | proto/dav/method.c:320-358 | the outer scan comes to the outcome of the first propstat behind the first href that ends it |
| Propfind.ScanExactly | proto/dav/method.c:320-358 | the prop used is that of the first OK propstat behind the first href; the response is rejected exactly when there is none; a null pointer is used exactly when a propstat without a status behind a prop comes first |
| Propfind.FoundExactly | proto/dav/method.c:320-358 | by position and literal text: a prop is used if and only if it is the first one of the first propstat behind the first href whose first status behind the prop has `HTTP/1.1 200 OK` as the content of its first child, and none before it lacks a status |
| Propfind.CrashExactly | proto/dav/method.c:320-349 | a null pointer is used if and only if a propstat without a status behind a prop comes before that |
| Propfind.StatusDecides | proto/dav/method.c:347-358 | of a response with one propstat the prop is used with the status `HTTP/1.1 200 OK`, and the response rejected with any other text |
| Propfind.NoStatusCrashes | proto/dav/method.c:331-349 | a null pointer is used for a propstat with no status, and for one whose status stands before its prop |
| FileStat.ReadStat | proto/dav/method.c:360-410 | the two loops over the entries compute the stat, or use a null pointer |
| FileStat.InterleavingDoesNotMatter | proto/dav/method.c:367-410 | two entry lists with the same entries in the same order within each of the two namespaces, and both or neither with an entry that has no namespace, give the same stat or both use a null pointer |
| FileStat.StatExactly | proto/dav/method.c:367-410 | the stat is computed unless some entry has no namespace, or is one of those whose first child's content is needed and has no child or a first child without content |
| FileStat.NullsUsed | proto/dav/method.c:367-406 | a null pointer is used at text between the entries, at a mode that holds an element, and at a length without a child |
| StatFields.StrtolReads | proto/dav/method.c:373-406 | a printed number is read through white space and a sign, clamped to a long, and what follows it is left for the next |
| StatFields.StrtolReadsNothing | proto/dav/method.c:393-406 | where no digits come, also behind white space and a sign, 0 is read and the text stays where it was |
| StatFields.TypeDecides | proto/dav/method.c:374-379 | whatever else the response holds: 2 links if some `resourcetype` has a collection as its first child, else 1; and the mode of a directory or of a file accordingly, unless an own `mode` follows |
| StatFields.OwnSizeDecides | proto/dav/method.c:398-399 | the number in the last own `size` is the size, whatever length the server gives |
| StatFields.LengthDecides | proto/dav/method.c:372-373 | without one it is the number in the last `getcontentlength`, and without that 0 |
| StatFields.ModeDecides | proto/dav/method.c:392-394 | the octal number in the last own `mode` is the mode |
| StatFields.DeviceExactly | proto/dav/method.c:395 | which modes are those of devices, by their octal digits |
| StatFields.DeviceDecides | proto/dav/method.c:395-397 | the number behind the last mode of a device is its number, and without such a mode it is 0 |
| StatFields.OwnerDecides | proto/dav/method.c:400-403 | the last own `owner` gives the user, also one printed as a negative number, and the group when white space is between them |
| StatFields.GroupUnread | proto/dav/method.c:400-403 | behind anything else, such as a colon, the group is 0 |
| StatFields.OwnerStays | proto/dav/method.c:360-365 | without an own `owner` both are those of the options |
| StatFields.TimesDecide | proto/dav/method.c:404-408 | the three numbers in the last own `time` are the times of change, modification and access, in this order |
| StatFields.DatesDecide | proto/dav/method.c:380-384 | without one the first two are the server's last `creationdate` and `getlastmodified`, as far as it has them, and the third is 0 |
| StatFields.ChmodThenStat | proto/dav/dav.c:227-233 | every 32-bit mode written by dav_chmod is read back, whatever else the response holds, and the number of a device becomes 0 |
| StatFields.ChownThenStat | proto/dav/dav.c:236-242 | every user written by dav_chown is read back, and the group exactly when it is 0 |
| CStrings.StrNRStrip | common/utils.h:12-19 | the string ends behind its last character that is not white space, and nothing else changes |
| CStrings.StrLStrip | common/utils.h:27-32 | the pointer moves to the string without its leading white space |
| CStrings.SpaceExactly | common/utils.h:14-28 | white space is the space, tab, line feed, vertical tab, form feed and carriage return, and nothing else |
| CStrings.LStripExactly | common/utils.h:27-32 | a string is what is left behind leading white space exactly when only these six characters stand in front of it and it does not begin with one |
| CStrings.RStripExactly | common/utils.h:12-19 | the same at the end |
| CStrings.PlainStays | common/utils.h:12-32 | a letter, a digit or a bracket is never cut off |
| LockTokens.LockCallback | proto/dav/method.c:473-491 | the callback keeps a token it has, and else takes that of the line |
| LockTokens.TokenRoundTrip | proto/dav/method.c:477-486 | any token between brackets, with any of the six white space characters around it, is read as it is |
| LockTokens.BareToken | proto/dav/method.c:481-485 | without brackets it is read as it is exactly when it does not begin with one |
| LockTokens.HeaderLine | proto/dav/method.c:473-491 | the line `Lock-Token: <T>`, ended by a carriage return and a line feed, is read as T, for every T |
| LockTokens.BareLine | proto/dav/method.c:481-485 | the same without brackets, exactly when T does not begin with one |
| LockTokens.HeadersWhole | proto/dav/method.c:598-601 | the UNLOCK and If headers hold the whole token |
| LockTokens.TokenEchoed | proto/dav/method.c:473-608 | UNLOCK sends back what the first Lock-Token line of the LOCK response gave |

## Left out

- StackMachine.ReachableSafe: spin lock operations are atomic steps and memory is sequentially consistent; a node pushed is one the thread owns.
- HandlePool.HandlesConserved: which options are set on a handle is not modelled, only that setting up may fail.
- LockRegistrySafety.RegistryConserved: the tree is a map and its operations atomic; DELETE and MOVE, which drop an entry before their request is sent, and the reader lock of requests on locked files are not part of it; with locking switched off both functions return at once.
- LockRegistryFacts.OpenFileIsLocked: locks are asked for with a timeout of 600 seconds (`proto/dav/method.c:514`) and never refreshed; that a lock expires while its file is open is assumed away.
- LockRegistryFacts.QuietMeansEmpty: an UNLOCK either fails, and its lock stays, or succeeds; one that the server carries out and whose reply is lost is assumed away.
- Divergence.ExpansionPreservesMeaning: `return`, outward `goto` and the counter values of labels are not modelled; `while` loops are written with the endless loop and a conditional.
- MacroLaws.ExceptionsConserved: exception subtypes are numbers; messages, backtraces and `hideE`, which nothing uses, are not modelled.
- VTableGuard.Guard.RandInit: the numbers drawn by `rand` are a parameter.
- DavFile.Server.DavWrite: the stack space of the padding buffer and the lock header are not modelled; HEAD gives the real length, though the code looks for a header line that begins with exactly `Content-Length:` (`proto/dav/method.c:108`), takes the length for 0 when the server spells it otherwise, and then pads over the front of the file; offsets stay below 2^63, as the kernel keeps them.
- DavFileLaws.WriteExactly: the server stores a body whose length is that of its range, answers 416 exactly when the offset is beyond the end, and ignores or refuses a range it cannot read; servers that treat PUT ranges otherwise are not modelled.
- Buffers.Buffer.Append: sizes do not wrap at 2^64, and there is a buffer: without one both callbacks accept everything.
- Propfind.ScanResponse: what is done with the path in href and with the other responses is not modelled.
- FileStat.ReadStat: dates are a parameter, because they rest on `strptime`, `mktime` and the time zone.
- LockTokens.LockCallback: header lines are terminated and hold no NUL, as libcurl hands them over; the check of the token against the body of the response is not modelled.
- DavFileLaws.ErrnoExactly: a MallocException, which becomes -ENOMEM (`proto/dav/dav.c:63-64`), does not occur, because the buffers of dav_read and dav_write are fixed.
- Locking.LocksBalanced: the lock is used through `ensure_synchronized` only, and not inside itself; the other macros of `common/grammar/synchronized.h` are not modelled.
- `dav_copy_file_range` and the shrinking branch of `dav_truncate` treat the byte count of a read as an error, so there is no content property to prove.
- The reader lock taken by `dav_put` and its relatives is not released when a throw skips the explicit unlock; lock balance of these functions is not claimed.
- Option parsing, URLs, XML parsing, logging, FUSE, libcurl and libxml2 internals: library calls and input/output.
