# UnityBridge protocol model

UnityBridge sends Editor commands through a resident host to a connector inside Unity, which can reload,
move port or lose a reply at any time.  This project models the parts that must be right for a command to
run at most once and for callers to be told the truth about it, and proves what they promise.

* **Command protocol** (`HostQueue`, `HostProtocol`, `HostInvariant`, `HostSteps`, `HostTheorems`,
  `HostAttempts`, `HostCallers`, `HostAnswers`, `HostOrigins`, `HostDeadlines`, `HostUnity`, `HostWork`,
  `HostExample`).  A transition system over the host's jobs, worker and query threads, its snapshot and
  negotiated context, the POSTs in flight, the connector's queue, execution lock, listeners, domain and
  reference generation, a log of execution starts, and every submission with the checks it goes through and
  the reply it gets.  Reloads, listener restarts, lost connections, clocks (the wall clock may be set back)
  and callers that give up are steps.  Each block under one lock, and each stretch on the Editor thread
  between two awaits, is one step.
* **Compiler** (`CacheSpec`, `CacheLaws`, `CacheTheorems`, `CacheRecency`, `BoundedCache`, `Retention`,
  `CompilerKeys`, `WrappedSource`, `CompilerSpec`, `CompilerAnswers`, `MetadataReferenceCache`,
  `CompilerEngine`, `CompilerWorker`).  The caches as classes proved against values, and the engine and the
  loop around it proved to agree with a compiler that caches nothing.
* **Operation receipts** (`OperationSpec`, `OperationLaws`, `OperationHistory`, `OperationOutcomes`,
  `EditorOperations`).  The receipt list as a class whose event handlers are proved against a specification;
  what a receipt says is then read off the events alone.
* **Shared-memory protocols** (`CompilerLockstep`, `CompilerReplies`, `StateNotifier`, `QueueDrain`,
  `PoolRetirement`), for any number of threads.
* **Printers and parsers** (`CommandLine`, `Frames`).
* **Polling** (`WaitForState`, `OperationWait`) over a trace of polls.
* **Routes** (`Routes`), the order in which one command may try them.

Three expectations turn out to need a condition, and each has exactly that condition proved, with a concrete
case in which it fails.

* A repeated request is not always given its job's answer.  The stop and the deadline are checked before the
  table of requests, so a repeat that comes too late, or while the host stops, is told `not_started` although
  the remembered job may have run (`RepeatsGetTheAnswer`, `LateRepeatIsRefused`, `RepeatWhileStoppingIsRefused`).
* The table of requests stays within 256 entries unless it is full of jobs that all look open to the eviction
  loop and one of them looks finished to the count after it (`FullTableOutgrowsExactly`).  256 unfinished jobs
  is the bound that always holds.
* A retired pooled connection ends up closed unless all of the retirement falls between a request's check and
  its release (`PoolRetirement.ClosedExactly`).

What is relied on: ordinary tools do not answer with `completion: not_started` themselves; the hash is
injective and hexadecimal, GUIDs never repeat, full paths contain no NUL; entry weights are not negative and
the capacity is at least 1.

## Model

| member | source | states |
|---|---|---|
| HostTheorems.AtMostOnce | src/unity_bridge/host/service.py:377-453 | over every run no accepted job starts executing in Unity twice, however submits, expiries, reloads, listener restarts and lost replies interleave |
| HostTheorems.ExecutionsAreCurrent | unity-bridge-connector/Editor/BridgeProtocol.cs:57-75 | at the instant of every start: time before the caller's deadline, domain and reference generation those the job was prepared against, and the accepting listener the one still installed (and, for ordinary commands, still listening) |
| HostCallers.RepliesExplained | src/unity_bridge/host/service.py:484-551 | every reply of every run, explained: before the table a stop, an expired deadline or a bad envelope, in that order, and nothing else; past them a conflict exactly when the remembered job has another signature, else that job's answer, or with none remembered a full queue or the new job's answer |
| HostCallers.RepeatsGetTheAnswer | src/unity_bridge/host/service.py:522-551 | a submission whose id is remembered when looked up gets the remembered job's one answer if and only if it came before the stop, well formed, in time and with the same signature; past the early checks it gets a conflict if and only if the signatures differ |
| HostCallers.RepeatsAgree | src/unity_bridge/host/service.py:522-551 | two submissions of one id and signature are told the same whenever the second passes the early checks and finds the first one's job still remembered |
| HostCallers.OneAnswer | src/unity_bridge/host/service.py:46-60 | all submissions answered from one job are told the same, in every pair of states of a run |
| HostCallers.HonestRefusals | src/unity_bridge/host/service.py:46-60 | a submission told `not_started` is never contradicted by its own job, then or later in the run; and past the early checks no job remembered for the same work when it had been looked up has started or ever starts |
| HostCallers.HonestResults | src/unity_bridge/host/service.py:429-452 | a submission told a tool's own answer is told that of the one execution there ever is of a job with its id and signature |
| HostCallers.NoSecondJob | src/unity_bridge/host/service.py:522-538 | over every run a second job of a request id exists only if the first was finished and forgotten when it was created |
| HostAnswers.ReplyIsDelivered | src/unity_bridge/host/service.py:434-452 | over every run: what a worker receives from a POST is the result of its execution, or the refusal; unless it throws it carries just that until the job, if still unanswered, is answered with it; and it prepares the command once more if and only if a first attempt was refused as `stale_domain`, `stale_references` or `not_ready` |
| HostAnswers.QueryReplyIsDelivered | src/unity_bridge/host/service.py:565-572 | the same for a live state query, without a retry |
| HostOrigins.AnswersExplained | src/unity_bridge/host/service.py:377-453 | every answer of every job in every run, traced to its origin: the reply of a POST of that job, and then it is that reply; a lost reply; a thread that threw; time that had run out, by the job's deadline or a waiter's, or a stop; an Editor found gone; a context found stale at the second attempt; the compiler's refusal; the stop of the host |
| HostOrigins.UnknownMeans | src/unity_bridge/host/service.py:53-60 | `unknown` is answered only for a lost reply, a throw, or time that ran out once the command was dispatched; a tool's own answer only as a finished POST brought it |
| HostWork.NoneForgotten | src/unity_bridge/host/service.py:455-482 | in every state of every run each unanswered ordinary command is queued or in the worker's hands |
| HostWork.StaleIsPreparedAgain | src/unity_bridge/host/service.py:394-412 | a stale reference or a changed context found at the first attempt leads to a second one and to no answer |
| HostWork.ClosingTrims | src/unity_bridge/host/service.py:473-482 | when a command is over the table is back to 256 unless its oldest job looked unfinished, the oldest going first |
| HostWork.StopAnswersPending | src/unity_bridge/host/service.py:574-581 | a stop answers exactly the unanswered commands still waiting their turn, as `host_stopping` |
| HostDeadlines.AnchoredOnce | src/unity_bridge/host/service.py:491-496 | a job's deadline by the host's clock is the clock at one early instant plus what its caller had left when timed, between nothing and a day; no later wait moves it |
| HostDeadlines.WaitsNoLonger | src/unity_bridge/host/service.py:549-551 | a submission gives a job up no earlier than the job's deadline or the end of what it had left itself, whichever comes first |
| HostDeadlines.PostedInTime | src/unity_bridge/host/service.py:415-432 | every POST was made with time left when measured, and carries the earlier of the caller's deadline and what the job then had left |
| HostDeadlines.PostedWhenCurrent | src/unity_bridge/host/service.py:324-414 | every POST was prepared from a context taken up while the Editor was alive and not busy and the context was the negotiated one, and was found still current before dispatch |
| HostDeadlines.RetryIsRenegotiated | src/unity_bridge/host/service.py:365-370 | a command prepared once more after a passing refusal is prepared against a context negotiated since |
| HostExample.LateRepeatIsRefused | src/unity_bridge/host/service.py:493-498 | a run in which a command executes, its job is remembered, and the very same request sent again after its deadline is told `not_started`: the deadline is checked before the table |
| HostExample.RepeatWhileStoppingIsRefused | src/unity_bridge/host/service.py:640-644 | the same for a repeat that arrives once the host began to stop |
| HostExample.AnswerReachesCaller | src/unity_bridge/host/service.py:434-452 | the run goes on and the caller is told what the one execution returned |
| HostTheorems.StartsRecordTheInstant | unity-bridge-connector/Editor/CommandRouter.cs:37-52 | the start log is not free to lie: the step that adds an entry records the clock, domain, generation, and listener of the state it is taken in, with that listener not cancelled and, for ordinary commands, the lock held and Unity ready |
| HostUnity.DequeuesExactly | unity-bridge-connector/Editor/CommandRouter.cs:25-43 | a queued command is refused if and only if its listener was stopped, its deadline passed, or domain or references changed, and for the first of these reasons; otherwise a live query starts and an ordinary command waits for the lock |
| HostUnity.ExecutesExactly | unity-bridge-connector/Editor/BridgeProtocol.cs:57-75 | with the lock held a command starts if and only if it still fits and Unity is ready; a refusal gives the first true reason and frees the lock; an assembly is loaded first and checked once more |
| HostUnity.NothingIsLeft | unity-bridge-connector/Editor/CommandRouter.cs:37-58 | over every run the queue holds exactly the commands queued and not yet taken, refused or killed, each once, and the lock is held by exactly the one unfinished command past it: no way out leaves it behind |
| HostTheorems.LostRepliesStayUnknown | src/unity_bridge/host/service.py:427-450 | while a POST of a job was not refused there is no later POST of it, the job is not queued again, and its answer, if any, is `unknown` or the tool's own |
| HostTheorems.PostedInOrder | src/unity_bridge/host/service.py:455-482 | ordinary commands of a project are posted in order of submission; a retry comes before the next command |
| HostTheorems.OneWorker | src/unity_bridge/host/service.py:537-548 | at most one worker loop; pending work always has one unless the host is stopping |
| HostTheorems.ExecutionsAreSerial | unity-bridge-connector/Editor/CommandRouter.cs:37-58 | of the ordinary commands past the execution lock at most one is unfinished |
| HostTheorems.UnfinishedAreRemembered | src/unity_bridge/host/service.py:520-551 | in every interleaving at most 256 jobs are unfinished, none of them was evicted, and no two remembered jobs share a request id |
| HostTheorems.StepGrows | src/unity_bridge/host/service.py:37-60 | every step only adds jobs, POSTs, starts and submissions, and never changes an answer or a reply once given |
| HostTheorems.RunGrows | src/unity_bridge/host/service.py:37-60 | the same between any two states of a run |
| HostTheorems.RunKeeps | src/unity_bridge/host/service.py:377-582 | the protocol invariant holds in every state of every run |
| HostAttempts.OneRetry | src/unity_bridge/host/service.py:380-453 | over every run a command is posted at most twice and a live query at most once |
| HostAttempts.StepKeepsBudget | src/unity_bridge/host/service.py:380-453 | each step keeps, for the place each thread has reached, the bound on how often its job was posted |
| HostSteps.StepKeeps | src/unity_bridge/host/service.py:377-582 | every step keeps the protocol invariant: refused POSTs never started, one live POST a job, lock and listener ownership, thread states, posting order, request table, replies from the job of the same work |
| HostSteps.WorkerKeeps | src/unity_bridge/host/service.py:324-482 | every step of a worker thread keeps it: waiting for a context, compiling, the stale-context check, dispatch, reply, retry, completion, exceptions, trimming |
| HostSteps.ControlKeeps | src/unity_bridge/host/service.py:553-572 | every step of a live state query keeps it |
| HostSteps.CallKeeps | src/unity_bridge/host/service.py:484-551 | every step of a submission keeps it: the checks before the table, lookup, conflict, eviction, count, admission, waiting and giving up |
| HostSteps.ServiceKeeps | src/unity_bridge/host/service.py:218-280 | scanning, negotiation and stopping keep it |
| HostInvariant.MessageKeeps | unity-bridge-connector/Editor/CommandRouter.cs:23-59 | accepting, queueing, checking twice around the lock, starting and refusing one message keep it |
| HostInvariant.EditorKeeps | unity-bridge-connector/Editor/HttpServer.cs:155-187 | reloads, listener stops, failures and restarts, reference loads and foreign lock holders keep it |
| HostInvariant.MessageKeepsStarts | unity-bridge-connector/Editor/CommandRouter.cs:46-52 | an execution starts only past the second check, so what a start promises holds at that instant |
| HostInvariant.AdvanceKeepsHost | src/unity_bridge/host/service.py:37-60 | no step of Unity alone can break what the host relies on |
| HostQueue.JobRecord.Complete | src/unity_bridge/host/service.py:46-51 | an unanswered job gets exactly this answer; an answered one keeps its own |
| HostQueue.JobRecord.Expire | src/unity_bridge/host/service.py:53-60 | an expiry answers `unknown` after dispatch, `not_started` before, and otherwise returns the answer already written |
| HostQueue.RequestTable.EvictFinished | src/unity_bridge/host/service.py:528-533 | finished jobs go, oldest first, only until fewer than 256 are left |
| HostQueue.RequestTable.CountOpen | src/unity_bridge/host/service.py:534-534 | counts the jobs not seen finished |
| HostQueue.RequestTable.TrimFinished | src/unity_bridge/host/service.py:478-482 | drops the oldest job while there are more than 256 and it is finished |
| HostQueue.RequestTable.Admit | src/unity_bridge/host/service.py:528-538 | a new job is appended exactly when fewer than 256 stay open after eviction |
| HostQueue.ThinKeeps | src/unity_bridge/host/service.py:528-533 | eviction keeps order and every job not seen finished |
| HostQueue.TrimKeeps | src/unity_bridge/host/service.py:478-482 | trimming keeps order and every job not seen finished |
| HostQueue.ThinsOldestFirst | src/unity_bridge/host/service.py:528-533 | eviction passes over the oldest jobs, dropping those seen finished, up to the first point at which fewer than 256 are left and no further |
| HostQueue.TrimsOldestFirst | src/unity_bridge/host/service.py:478-482 | trimming drops the shortest run of oldest jobs, all seen finished, that ends at 256 jobs or at one not seen finished |
| HostQueue.OpenIsCount | src/unity_bridge/host/service.py:534-534 | the count is the number of distinct open jobs |
| HostQueue.AdmissionOutgrowsExactly | src/unity_bridge/host/service.py:528-538 | for every table and any two views of the done flags, a job is admitted beyond 256 entries if and only if at least 256 jobs look open to the eviction loop and fewer are left by what both loops saw |
| HostQueue.FullTableOutgrowsExactly | src/unity_bridge/host/service.py:528-538 | for a table of at most 256: if and only if it is full, the eviction loop saw none of it finished, and the count saw one |
| HostQueue.AtomicAdmissionIsBounded | src/unity_bridge/host/service.py:528-538 | corollary: with done flags fixed across the locked block the table never exceeds 256 |
| HostQueue.RacingAdmissionOutgrows | src/unity_bridge/host/service.py:528-538 | corollary: a job that finishes between the two loops lets the table exceed 256, for every full table and every job in it |
| BoundedCache.BoundedCache.TryGet | compiler-worker/UnityBridge.Compiler/BoundedCache.cs:11-22 | finds exactly the held keys; the entry found goes to the recent end with its value and all others keep their order, a miss changes nothing; bounds and accounting kept |
| CacheRecency.HitSurvives | compiler-worker/UnityBridge.Compiler/BoundedCache.cs:13-19 | after a hit an insertion of another entry keeps the key, with its value and weight, if and only if the entry is oversized or anything is kept beside it |
| CacheRecency.OrderIsUse | compiler-worker/UnityBridge.Compiler/BoundedCache.cs:11-54 | after any lookups and insertions the entries stand in the order in which their keys were last looked up or inserted |
| CacheRecency.EvictsLeastRecentlyUsed | compiler-worker/UnityBridge.Compiler/BoundedCache.cs:35-38 | whatever an insertion evicts was last used before anything it keeps |
| BoundedCache.BoundedCache.Add | compiler-worker/UnityBridge.Compiler/BoundedCache.cs:24-54 | the new state is `Added` of the old one; bounds and accounting kept, so the eviction loop never runs on an empty list and terminates |
| BoundedCache.BoundedCache.Discard | compiler-worker/UnityBridge.Compiler/BoundedCache.cs:31-31 | replacing a key first removes its entry with its shares |
| BoundedCache.BoundedCache.MakeRoom | compiler-worker/UnityBridge.Compiler/BoundedCache.cs:33-38 | the loop ends with room for the entry, having removed least recently used entries one by one |
| BoundedCache.BoundedCache.Acquire | compiler-worker/UnityBridge.Compiler/BoundedCache.cs:39-51 | each shared key is charged only for what it is not charged already |
| BoundedCache.BoundedCache.Append | compiler-worker/UnityBridge.Compiler/BoundedCache.cs:52-53 | the entry becomes the most recent |
| BoundedCache.BoundedCache.Release | compiler-worker/UnityBridge.Compiler/BoundedCache.cs:59-68 | a shared key stops being charged when its last owner goes |
| BoundedCache.BoundedCache.Remove | compiler-worker/UnityBridge.Compiler/BoundedCache.cs:56-71 | removal of any live entry, defined on every shared key it owns |
| CacheLaws.GroupedIsGrouping | compiler-worker/UnityBridge.Compiler/BoundedCache.cs:29-30 | grouping gives each key once at the largest weight claimed for it |
| CacheLaws.RemoveKeepsAccounting | compiler-worker/UnityBridge.Compiler/BoundedCache.cs:56-71 | users equal live owners, bytes equal entry weights plus recorded shared weights, recorded weights cover every owner, after a removal |
| CacheLaws.ForgetKeepsBounds | compiler-worker/UnityBridge.Compiler/BoundedCache.cs:31-31 | the same and both bounds after forgetting a key |
| CacheLaws.TouchKeepsBounds | compiler-worker/UnityBridge.Compiler/BoundedCache.cs:13-19 | the same and both bounds after a hit |
| CacheLaws.AppendKeepsBounds | compiler-worker/UnityBridge.Compiler/BoundedCache.cs:39-53 | the same and both bounds after an insertion into room |
| CacheLaws.EmptyHasRoom | compiler-worker/UnityBridge.Compiler/BoundedCache.cs:35-38 | a fitting entry that finds no room finds a non-empty list |
| CacheTheorems.ChargeNeverRises | compiler-worker/UnityBridge.Compiler/BoundedCache.cs:33-38 | removing any entry never raises bytes held plus bytes the newcomer would add |
| CacheTheorems.EvictsShortestPrefix | compiler-worker/UnityBridge.Compiler/BoundedCache.cs:35-38 | eviction removes exactly the shortest least-recently-used prefix that makes room: no shorter one does, every longer one would |
| CacheTheorems.AddOutcome | compiler-worker/UnityBridge.Compiler/BoundedCache.cs:24-54 | an oversized entry leaves its key absent and all others in place; any other is the most recent behind a suffix of the others, values and order kept |
| CacheTheorems.ChargeIsFootprint | compiler-worker/UnityBridge.Compiler/BoundedCache.cs:26-30 | when a key's weight never varies the bytes charged are exactly the bytes of the retained entries, each image once |
| CacheTheorems.AddRefinesList | compiler-worker/UnityBridge.Compiler/BoundedCache.cs:24-54 | the reference-counted insertion equals insertion into a plain list that keeps the longest affordable suffix, costs read off the entries |
| CacheTheorems.RecordedWeightIsHighWaterMark | compiler-worker/UnityBridge.Compiler/BoundedCache.cs:41-45 | with varying weights the recorded weight can exceed every current claim: a concrete cache |
| CacheTheorems.SumsStaySmall | compiler-worker/UnityBridge.Compiler/BoundedCache.cs:32-38 | the sums of the eviction test stay within twice the budget |
| Retention.AddMembers | compiler-worker/UnityBridge.Compiler/BoundedCache.cs:24-54 | what is retained after an insertion was retained before or is the inserted entry |
| Retention.AddKeepsPrices | compiler-worker/UnityBridge.Compiler/CompilerEngine.cs:118-147 | resources priced at allocation keep one price through insertions and evictions |
| CompilerKeys.SourceKeyInjective | compiler-worker/UnityBridge.Compiler/CompilerEngine.cs:97-101 | for NUL-free project ids the pre-hash source key determines project, source, language and references, even when the source contains NUL |
| CompilerKeys.BaseKeyInjective | compiler-worker/UnityBridge.Compiler/CompilerEngine.cs:122-125 | the same for the base key |
| CompilerKeys.JoinInjective | compiler-worker/UnityBridge.Compiler/CompilerEngine.cs:100-100 | the joined identity list determines the identities |
| CompilerKeys.NulInProjectIdCollides | compiler-worker/UnityBridge.Compiler/CompilerEngine.cs:97-102 | for every project and snippet, a project id with a NUL makes two different wrapped sources share a key |
| WrappedSource.ReadsBack | compiler-worker/UnityBridge.Compiler/CompilerEngine.cs:191-198 | read line by line, a wrapped snippet gives the eleven default names, then the caller's in order, and between the fixed opening and ending exactly the snippet, if and only if no name of the caller's holds a line feed |
| WrappedSource.SourcesDiffer | compiler-worker/UnityBridge.Compiler/CompilerEngine.cs:191-198 | so two requests whose names hold no line feed are compiled from the same text only if they are the same |
| CompilerAnswers.ResolveAllMeans | compiler-worker/UnityBridge.Compiler/CompilerEngine.cs:83-95 | all references present gives all of them in order, otherwise the reason the first absent one fails |
| CompilerAnswers.CompiledExactly | compiler-worker/UnityBridge.Compiler/CompilerEngine.cs:37-173 | the cache-free worker compiles if and only if the request is a well-formed compilation, every reference is a file with the MVID named, and the compiler accepts the wrapped source; the answer then is what it emitted |
| CompilerAnswers.RefusedExactly | compiler-worker/UnityBridge.Compiler/CompilerEngine.cs:41-78 | every error code is given if and only if its own condition holds, the first wrong thing deciding |
| CompilerEngine.KeysDisjoint | compiler-worker/UnityBridge.Compiler/CompilerEngine.cs:97-125 | no source key equals a base key |
| CompilerEngine.SourceMeaning | compiler-worker/UnityBridge.Compiler/CompilerEngine.cs:97-103 | a hashed source key stands for one compilation up to its name |
| CompilerEngine.BaseMeaning | compiler-worker/UnityBridge.Compiler/CompilerEngine.cs:122-129 | a hashed base key stands for one empty compilation up to its name |
| CompilerEngine.CompilerEngine.Process | compiler-worker/UnityBridge.Compiler/CompilerEngine.cs:37-78 | the response is that of the cache-free compiler up to assembly name and cache flags, with or without base reuse, as long as project ids are NUL-free and files are what their MVIDs name; compiled only if every reference matched on disk at this request; every issued name recorded |
| CompilerEngine.CompilerEngine.Compile | compiler-worker/UnityBridge.Compiler/CompilerEngine.cs:80-173 | the same for well-formed compile requests; `cacheHit` is reported exactly when the compilation was held under the request's key |
| CompilerEngine.CompilerEngine.Collect | compiler-worker/UnityBridge.Compiler/CompilerEngine.cs:83-95 | all references are resolved in order against the files, or the first failure is reported |
| CompilerEngine.CompilerEngine.Bind | compiler-worker/UnityBridge.Compiler/CompilerEngine.cs:102-148 | a cached, derived or new compilation is the compilation of this source and these references; a hit is exactly a held key, and after a miss the compilation is held unless oversized |
| CompilerEngine.CompilerEngine.Base | compiler-worker/UnityBridge.Compiler/CompilerEngine.cs:119-141 | a cached or new base is the empty compilation against these references |
| CompilerEngine.CompilerEngine.Emit | compiler-worker/UnityBridge.Compiler/CompilerEngine.cs:150-172 | reused or fresh bytes equal what emitting now would give, reported as reused exactly when they are; new ones are retained unless oversized or under a fresh name, which no other result has |
| CompilerEngine.CompilerEngine.Warmup | compiler-worker/UnityBridge.Compiler/CompilerEngine.cs:175-189 | succeeds exactly when the framework-only bootstrap compilation does, and changes no answer |
| CompilerEngine.CompilerEngine.NewAssemblyName | compiler-worker/UnityBridge.Compiler/CompilerEngine.cs:200-200 | issues the next name of a supply that never repeats |
| CompilerEngine.CompilerEngine.Refuse | compiler-worker/UnityBridge.Compiler/CompilerEngine.cs:41-61 | the refusals before any file is read, in order |
| CompilerEngine.CompilerEngine.RetainsEachImageOnce | compiler-worker/UnityBridge.Compiler/CompilerEngine.cs:118-141 | the compilation cache charges each retained image once while any compilation owns it |
| CompilerEngine.MatchedOnDisk | compiler-worker/UnityBridge.Compiler/CompilerEngine.cs:85-95 | a request that resolves found every file at the MVID it names |
| CompilerSpec.GenuineReferences | compiler-worker/UnityBridge.Compiler/MetadataReferenceCache.cs:26-31 | resolved references are the images their identities name when files are genuine |
| CompilerSpec.ResolvedReferences | compiler-worker/UnityBridge.Compiler/CompilerEngine.cs:85-95 | a successful resolution saw a matching file for every reference |
| MetadataReferenceCache.MetadataReferenceCache.Get | compiler-worker/UnityBridge.Compiler/MetadataReferenceCache.cs:14-34 | succeeds exactly when the file now has the expected MVID, cached or not, and returns its image and price |
| MetadataReferenceCache.MetadataReferenceCache.Load | compiler-worker/UnityBridge.Compiler/MetadataReferenceCache.cs:28-33 | a read image enters under its identity at the weight of its length, with a retention id never used before |
| EditorOperations.EditorOperations.constructor | unity-bridge-connector/Editor/EditorOperations.cs:24-29 | a new domain starts from the stored receipts, or none when they cannot be read |
| EditorOperations.EditorOperations.CompilationStarted | unity-bridge-connector/Editor/EditorOperations.cs:31-39 | memory and stored list become the specified next list; pending state recomputed |
| EditorOperations.EditorOperations.AssemblyFinished | unity-bridge-connector/Editor/EditorOperations.cs:40-46 | the same for the end of one assembly |
| EditorOperations.EditorOperations.CompilationFinished | unity-bridge-connector/Editor/EditorOperations.cs:47-55 | the same for the end of a cycle |
| EditorOperations.EditorOperations.AfterAssemblyReload | unity-bridge-connector/Editor/EditorOperations.cs:56-64 | the same for the end of a reload |
| EditorOperations.EditorOperations.PlayModeStateChanged | unity-bridge-connector/Editor/EditorOperations.cs:65-78 | the same for a play mode change, and publishes exactly when the last unfinished operation was cancelled |
| EditorOperations.EditorOperations.Begin | unity-bridge-connector/Editor/EditorOperations.cs:84-97 | fails exactly when 64 unfinished receipts exist; otherwise the receipt is added, memory and store agree |
| EditorOperations.EditorOperations.FinishSynchronous | unity-bridge-connector/Editor/EditorOperations.cs:99-114 | an id is returned exactly for a receipt that can still be observed, and withheld only when it is gone or decided |
| EditorOperations.EditorOperations.Abandon | unity-bridge-connector/Editor/EditorOperations.cs:116-120 | removes the receipt unless completed |
| EditorOperations.EditorOperations.CodeImported | unity-bridge-connector/Editor/EditorOperations.cs:122-136 | marks active imports and withdraws those an unannounced reload may overtake |
| EditorOperations.EditorOperations.Tick | unity-bridge-connector/Editor/EditorOperations.cs:154-171 | confirms what the idle Editor settled, and publishes exactly when that was the last unfinished operation |
| EditorOperations.EditorOperations.Snapshot | unity-bridge-connector/Editor/EditorOperations.cs:138-143 | reports the observable state of one id |
| EditorOperations.EditorOperations.Save | unity-bridge-connector/Editor/EditorOperations.cs:173-177 | store and pending state agree with the list |
| OperationSpec.Busy | unity-bridge-connector/Editor/EditorOperations.cs:147-152 | the pending state is null exactly when all receipts are completed |
| OperationLaws.AfterKeepsWellformed | unity-bridge-connector/Editor/EditorOperations.cs:84-97 | at most 64 receipts, distinct ids, cancelled implies completed, after every event |
| OperationLaws.RoomIsMadeOfCompleted | unity-bridge-connector/Editor/EditorOperations.cs:86-91 | room is made by dropping the oldest completed receipt of a full list and no other; none when all are unfinished |
| OperationLaws.LookupPass | unity-bridge-connector/Editor/EditorOperations.cs:31-63 | an event acts on one operation's receipt as if it were alone |
| OperationLaws.LookupAfter | unity-bridge-connector/Editor/EditorOperations.cs:24-136 | the same for every event, reloads and new operations included |
| OperationLaws.FinishesOne | unity-bridge-connector/Editor/EditorOperations.cs:99-114 | marking and abandoning one receipt is the specified pass over the list |
| OperationLaws.BusyTells | unity-bridge-connector/Editor/EditorOperations.cs:147-152 | the oldest unfinished receipt alone decides the pending state: entering or leaving play mode, compiling when asked for or seen, refreshing otherwise |
| OperationHistory.NeverGoesBack | unity-bridge-connector/Editor/EditorOperations.cs:138-143 | over every run, reloads included, an id is pending, then at most one of completed or cancelled, then unknown, and never goes back |
| OperationHistory.BeginsPending | unity-bridge-connector/Editor/EditorOperations.cs:84-97 | after Begin the id is pending, unless all 64 receipts are unfinished |
| OperationHistory.ReloadMeans | unity-bridge-connector/Editor/EditorOperations.cs:40-55 | the reload flag says: in the last cycle an assembly built without error and no later cycle end found a failure |
| OperationHistory.CompiledMeans | unity-bridge-connector/Editor/EditorOperations.cs:47-64 | the compiled flag says: since the last start the cycle ended, or a reload ended in another domain |
| OperationHistory.CompileFailedMeans | unity-bridge-connector/Editor/EditorOperations.cs:40-46 | the failure flag says: an assembly of the last cycle had an error |
| OperationHistory.FinishedMeans | unity-bridge-connector/Editor/EditorOperations.cs:56-64 | the finished flag says: the call returned, or a reload ended in another domain |
| OperationHistory.CompilingMeans | unity-bridge-connector/Editor/EditorOperations.cs:31-39 | the compiling flag says: a cycle started since Begin |
| OperationHistory.CodeImportedMeans | unity-bridge-connector/Editor/EditorOperations.cs:122-128 | the code-import flag says: code came in since Begin |
| OperationHistory.TickConfirms | unity-bridge-connector/Editor/EditorOperations.cs:154-171 | a pending import is completed by a tick exactly when the Editor is idle and the events since Begin, read without any receipt, allow it |
| OperationHistory.ReloadIsAwaited | unity-bridge-connector/Editor/EditorOperations.cs:160-165 | an import whose last cycle built an assembly without error or failure is not completed while the domain is the one it began in |
| OperationHistory.CompletedWasConfirmed | unity-bridge-connector/Editor/EditorOperations.cs:154-171 | every completed import was completed by an idle tick at which the events since Begin allowed it |
| OperationHistory.UnannouncedReload | unity-bridge-connector/Editor/EditorOperations.cs:104-135 | when code came in with no compilation asked for or seen, confirmation needs a reload into another domain |
| OperationOutcomes.NextExactly | unity-bridge-connector/Editor/EditorOperations.cs:65-171 | what a pending operation of any kind becomes at the next event, told from the events since it began: completed exactly at an idle tick once its play mode was entered or its import may be confirmed; cancelled exactly by the opposite play mode; forgotten exactly when abandoned, when the stored list cannot be read, or when a reload may follow unannounced; pending otherwise |
| OperationOutcomes.EndedForAReason | unity-bridge-connector/Editor/EditorOperations.cs:65-171 | every completed operation, play and stop included, saw its confirming event before an idle tick, and every cancelled one is a play or stop request that saw the opposite mode |
| CompilerLockstep.StepKeeps | src/unity_bridge/host/compiler.py:102-178 | every step of any number of threads keeps the lock, waiter, process and watchdog invariants |
| CompilerLockstep.FreeMeansInStep | src/unity_bridge/host/compiler.py:118-178 | whenever the lock is free: the kept process has all replies taken, none queued, was killed by no watchdog, and no watchdog is alive |
| CompilerLockstep.NoCrossedReplies | src/unity_bridge/host/compiler.py:149-151 | a reply taken from the queue answers the request of the thread that takes it |
| CompilerLockstep.MismatchIsUnnamed | src/unity_bridge/host/compiler.py:160-169 | what was taken is refused exactly on timeout, a broken reader, or a reply the worker could not name |
| CompilerLockstep.KillsItsOwn | src/unity_bridge/host/compiler.py:136-159 | a watchdog kills only its own request's process, while that request holds the lock |
| CompilerLockstep.BackgroundYields | src/unity_bridge/host/compiler.py:105-110 | a background request tries the lock only when no foreground request waits |
| CompilerLockstep.OneAtATime | src/unity_bridge/host/compiler.py:112-120 | at most one thread has the compiler |
| CompilerLockstep.ProcessKeepsOk | src/unity_bridge/host/compiler.py:51-72 | the replies in the queue are those to the lines after the ones taken, in order and each relayed once, and nothing is relayed after the reader ends |
| CompilerReplies.ReplyIsReturned | src/unity_bridge/host/compiler.py:150-178 | the reply a request takes from the queue is what it returns, if and only if the worker could name the request in it and the watchdog did not fire |
| CompilerReplies.ReturnedWasTaken | src/unity_bridge/host/compiler.py:150-178 | a request returns nothing but a reply it took itself that answers its own line |
| CompilerWorker.Serve | compiler-worker/UnityBridge.Compiler/Program.cs:15-38 | one reply for every line, in order, that names the line's request, or no request when the line cannot be read; and the cache-free compiler's reply while no line undermines the caches |
| StateNotifier.OneLoop | unity-bridge-connector/Editor/BridgeHostLauncher.cs:53-96 | at most one thread is in the delivery loop |
| StateNotifier.NothingIsLost | unity-bridge-connector/Editor/BridgeHostLauncher.cs:53-96 | once every thread has returned, a delivery attempt began after every notification |
| StateNotifier.StepComesNearer | unity-bridge-connector/Editor/BridgeHostLauncher.cs:53-96 | while the n-th notification waits, every step of any thread begins its delivery or lowers a bound on the steps left by one; only a newer announcement raises the bound, by three |
| StateNotifier.DeliveredSoon | unity-bridge-connector/Editor/BridgeHostLauncher.cs:53-96 | from any state of any run, while the n-th notification waits the threads take at most as many steps as their distances add up to and three for each newer notification, whatever the schedule and whoever else announces |
| StateNotifier.SomeoneCanStep | unity-bridge-connector/Editor/BridgeHostLauncher.cs:88-94 | and some thread can always take one |
| QueueDrain.StepKeeps | unity-bridge-connector/Editor/HttpServer.cs:189-207 | the drain flag is a token with exactly one owner while set |
| QueueDrain.StrandedExactly | unity-bridge-connector/Editor/HttpServer.cs:189-207 | with the flag clear and no drain running every queued item belongs to a request yet to exchange the flag; a step breaks this if and only if posting throws, or there is nothing to post to, with a command waiting |
| QueueDrain.DrainIsComing | unity-bridge-connector/Editor/HttpServer.cs:209-226 | over every run without such a step, a waiting command has a drain running, posted or about to be asked for |
| QueueDrain.DrainRecovers | unity-bridge-connector/Editor/HttpServer.cs:209-226 | any drain restores the property |
| QueueDrain.HandledInOrder | unity-bridge-connector/Editor/HttpServer.cs:209-226 | over every run commands are handled in the order they were queued, none lost and none twice |
| QueueDrain.DrainHandlesAll | unity-bridge-connector/Editor/HttpServer.cs:223-225 | when a drain ends every command queued until then has been handled |
| QueueDrain.PostMayStrand | unity-bridge-connector/Editor/HttpServer.cs:203-206 | a run of three steps after which a throwing post strands a command |
| CommandLine.QuoteArgument | unity-bridge-connector/Editor/BridgeHostLauncher.cs:208-223 | the loop with its slash counter computes the quoted form |
| CommandLine.ArgumentsArrive | unity-bridge-connector/Editor/BridgeHostLauncher.cs:156-156 | splitting the joined quoted arguments by the Microsoft C runtime rules returns exactly the argument list, null as empty, if and only if no argument contains NUL |
| CommandLine.SplitJoined | unity-bridge-connector/Editor/BridgeHostLauncher.cs:156-156 | the same ignoring NUL, for every list |
| CommandLine.ReadEscaped | unity-bridge-connector/Editor/BridgeHostLauncher.cs:208-223 | reading undoes escaping up to the closing quote, whatever backslashes are pending |
| Frames.ReadExact | src/unity_bridge/_wire.py:12-23 | returns exactly the next bytes under every chunking; on a reliable connection fails exactly when the stream is too short |
| Frames.ReadFrame | src/unity_bridge/_wire.py:11-27 | a frame read is the first of the stream and nothing after it is touched |
| Frames.WriteFrame | src/unity_bridge/_wire.py:30-37 | writes one frame, or a prefix of it, or nothing for an invalid size |
| Frames.ReadFrames | src/unity_bridge/_wire.py:11-27 | n successive reads under any chunking return the first n frames of the stream and leave the rest, so exactly the payloads a writer wrote; on a reliable connection in time they succeed if and only if the stream holds that many |
| Frames.ReadsWhatWasWritten | src/unity_bridge/_wire.py:11-37 | as many reads as writes return exactly the payloads written and leave the rest |
| Frames.StreamIsInjective | src/unity_bridge/_wire.py:30-37 | a stream is the frames of one list of payloads only, of whatever length |
| Frames.ParsedExactly | src/unity_bridge/_wire.py:24-27 | a stream has no first frame if and only if its header is cut short, its big-endian length is 0 or over 33554432, or there are fewer bytes than promised |
| Frames.HeaderRoundTrip | src/unity_bridge/_wire.py:24-24 | the four bytes hold the length, most significant first, and determine it |
| WaitForState.Wait | src/unity_bridge/client.py:538-578 | returns at the first poll that ends a streak of good polls spanning the stable period, raises at the first fatal error, and times out only when no poll made did either |
| WaitForState.Note | src/unity_bridge/client.py:553-575 | one turn of the loop: it ends the wait exactly as promised, or the state it leaves describes the polls made so far |
| WaitForState.NotYet | src/unity_bridge/client.py:566-571 | a streak counted from its first poll is the longest, so falling short there is falling short |
| OperationWait.Client.Resolve | src/unity_bridge/adapter.py:514-551 | what one poll finds, and exactly what it sends: one query for that operation once an instance of the same process was found in time, else nothing |
| OperationWait.Client.WaitFor | src/unity_bridge/client.py:538-578 | the polling loop over a resolver that sends: decided as `WaitForState.Wait` is, and nothing but queries for that operation logged meanwhile |
| OperationWait.Client.WaitAfterOperation | src/unity_bridge/adapter.py:498-556 | both branches: with an operation id, success means every poll of a streak of the stable length, the last included, got a live `completed` for that operation and request, same project, port and process; without one, a newer heartbeat held a wanted state for the time asked for, by default none for `playing` and half a second otherwise, and nothing was sent |
| OperationWait.Client.Operate | src/unity_bridge/adapter.py:126-149 | the log holds exactly one mutation more, whatever is lost or polled again: all else is queries for the receipt it returned |
| OperationWait.QueriesMutateNothing | src/unity_bridge/adapter.py:523-527 | any number of queries adds no mutation to the log |
| OperationWait.FoundMeansConfirmed | src/unity_bridge/adapter.py:514-551 | one poll finds an instance if and only if such a reply came in time |
| OperationWait.FailsExactly | src/unity_bridge/adapter.py:514-551 | each error that ends the wait is raised if and only if its own condition holds; everything else that confirms nothing is polled over |
| OperationWait.SuccessMeansSettled | unity-bridge-connector/Editor/CommandRouter.cs:66-72 | end to end: when the connector answered the confirming query from the receipts of a run, ids travelling injectively, the import named was completed by an idle tick at which all its events allowed it |
| Routes.RunCommand | src/unity_bridge/_bootstrap.py:16-26 | one command has at most one exchange over all routes, is written and handed on at most once, and reports an answer if and only if that exchange brought it; `unknown` if and only if a route was taken that none may follow and no answer came back |
| Routes.TryExec | src/unity_bridge/_fast_exec.py:174-246 | another route may be taken exactly before the frame is written; afterwards the answer is reported if and only if it came back well formed, and else `unknown` |
| Routes.TryHostCommand | src/unity_bridge/host/__init__.py:55-84 | none exactly when the host is not eligible; the answer exactly when the request was really put on a connection and came back well formed; `unknown` otherwise; writes and deliveries exact |
| Routes.PooledExchange | src/unity_bridge/host/transport.py:75-110 | one exchange per request, none when the lock or the time is missing |
| Routes.Post | src/unity_bridge/host/transport.py:113-134 | writes once exactly when endpoint, path, lock and time allow it, and succeeds exactly when a reply came back |
| Routes.Call | src/unity_bridge/client.py:183-210 | the host or a direct POST, never both; every outcome if and only if its condition on the environment holds |
| Routes.SendCommand | src/unity_bridge/client.py:437-488 | one exchange and one write; every outcome if and only if its reply: a lost reply or bad status is an error, an empty reply is `unknown`, a reply that is not JSON is text |
| Routes.LocalCall | src/unity_bridge/host/cli_request.py:41-64 | a framed command is queued in the host or posted to Unity, never both, and reported by whoever got it; refused exactly when its time is up |
| PoolRetirement.OverlookedExactly | src/unity_bridge/host/transport.py:106-110 | for a request that checks at one state of a run and releases at a later one: the release leaves a retired connection open if and only if it was open and not retired at the check and the retirement was over at the release |
| PoolRetirement.ClosedExactly | src/unity_bridge/host/transport.py:49-55 | over every run: a step leaves a retired connection nobody holds open if and only if it is such a release |
| PoolRetirement.RetiredEndsClosed | src/unity_bridge/host/transport.py:106-110 | with check and release as one step it always holds |
| PoolRetirement.RetirementCanBeOverlooked | src/unity_bridge/host/transport.py:106-110 | as two steps there is a run that leaves it open |

## Left out

- Sockets, HTTP and JSON parsing, file replacement, process spawning and operating system locks: a request arrives, is refused, or is lost.
- Roslyn, portable executable reading, SHA-256, path and GUID parsing: functions of a `World` with the few laws stated there; UTF-8 encoding is taken as injective, so lone surrogates are not modelled.
- Message texts and display paths in diagnostics: responses are compared without them.
- Tokens, authentication and origin checks: only the refusal before anything starts is kept.
- Prewarming, bootstrap scheduling, heartbeat grace times and retry timers: they change no answer; what they set (snapshot, context, liveness) may change at any time.
- Response-time bounds: safety, and termination of loops and of a waiting delivery, not real time.
- HostProtocol: one project; deadlines are whole milliseconds; a check and the start it allows are one instant of the Editor thread; a submission for a project the host has never seen (`unsupported_connector`) reaches no table and is left out.
- BoundedCache.BoundedCache.Add: unbounded integers; the checked sum that throws on 64-bit overflow of the claimed weights is not modelled, SumsStaySmall bounds every other sum.
- CompilerEngine.CompilerEngine.Process: agreement assumes NUL-free project ids (see NulInProjectIdCollides) and that a file's bytes are the ones its MVID names.
- EditorOperations.EditorOperations.Begin: receipts are values in a sequence, found by id, where the source shares mutable objects; asset import worker processes are left out.
- StateNotifier.DeliveredSoon: bounds steps, not time, and does not claim that the loop ever ends; a call from its own exit may start it again.
- QueueDrain.StrandedExactly: the failed-listener queue is drained by the same loop and is left out.
- Routes.RunCommand: commands that make one call; update checks, argument parsing and printing are left out.
- OperationWait.Client.WaitAfterOperation: paths are compared as values; sleeping between polls is left out.
- CommandLine.ArgumentsArrive: the program name in front of the arguments is parsed by other rules and is left out.
