# Enclave threads and remote attestation, verified

A Dafny model of the two parts of the repository in which state and order matter: the threads of the basic enclave, and
the remote attestation between client, service provider and enclave.

* **Threads.** `BufferThreads.dfy` runs the producer and the consumers statement by statement over one ring, one mutex
  and the condition variables `more` and `less`; the scheduler and the waiter that a signal wakes are arbitrary, and
  spurious wake-ups are allowed. `BufferInvariant.dfy` holds what each statement keeps, `BufferProperties.dfy` the
  results over whole runs, `EnclaveThreads.dfy` the buffer in place and the roster of the application.
  `CounterThreads.dfy` does the same for the adders, whose read and write of the shared counter are separate steps, and
  `Application.dfy` strings both phases together over any number of calls, because all the state is static. Capacity,
  number of threads and loops are parameters; the program uses 50, 4 and 500.
* **Attestation.** `Protocol.dfy` says what each request does to the provider's globals, `ServiceProvider.dfy` has the
  two handlers in place, `Sessions.dfy` the properties of every history of requests, `KeyDerivation.dfy` the
  derivations of both sides, `Client.dfy` the dispatcher and the client. `Crypto.dfy` keeps the open contexts and the
  live blocks: closing or freeing something that is not live cannot be written, and each operation says what stays live.
  `Samples.dfy` is a concrete suite with requests, for the inputs at which a property of the code fails.
* **Bytes.** `Endian.dfy` has the byte swap on memory and the report it is used in, `Checksum.dfy` the checksum walk.

Cryptographic primitives are unknown functions, passed in as a `Suite` of which only the output lengths are known, and,
where both sides must agree, that Diffie-Hellman commutes. Which calls fail is an argument of each request, as are the
fresh private key and the fetched revocation list.

What the code does, where its comments or its shape suggest otherwise:

* Message 0 answers `SP_OK` for an unsupported group too: the error set at line 211 of `service_provider.cpp` is
  overwritten at line 281. The reply means registration for the named group exactly if the group is in the table
  (`Sessions.ReplyPromisesIff`; `Sessions.GroupOneIsAnsweredOk` is an input at which it does not). Message 1 is where an
  unregistered provider refuses.
* The group pointer moves before the enrolment is known to succeed. With the one-entry table this does no harm; with a
  larger one the SPID can belong to another group (`Sessions.SpidFollowsGroupIff`).
* A failed message 1 keeps the writes it made. The stored session survives, whatever the primitives and the history,
  exactly if the first failure comes before the first write or after the last key (`Sessions.KeepsSessionsIff`); every
  other failure mixes two sessions at a concrete input (`Sessions.FailureLeavesMixture`). `Sessions.SessionSurvivesIff`
  is the condition for one call.
* A client that obtains a message 3 returns without freeing its buffers or closing its context (`Client.Attest`, reached
  at the input of `Client.FinishAndKeep`).
* A client that fails closes one context at most and frees only the last message 3 that was stored. It leaves nothing
  behind exactly if it was handed at most one of each (`Client.Attest`, `Client.LeavesNothing`); `Client.FailAndKeep` is
  an input at which it leaves both. A context counts as left when no closing call is made for it: the first one, after a
  retry, belongs to a lost enclave, which is not destroyed by a call either. What the platform then does with that
  enclave is outside the repository.
* A comment in `ecp.cpp` gives the output length as 0x0080; the machine stores it as the bytes 0x80, 0x00.

## Model

| member | source | states |
|---|---|---|
| BufferProperties.DeadlockFreeIffBalanced | code-experiments/basic-enclave/Enclave/TrustedLibrary/Thread.cpp:75-104 | for any roster of producers and consumers and any quotas: no schedule, with any choice of the woken waiter and with spurious wake-ups, ends with an unfinished thread, if and only if the stock plus what is produced minus what is consumed fits between 0 and the capacity |
| BufferProperties.AnyJobs | code-experiments/basic-enclave/Enclave/TrustedLibrary/Thread.cpp:75-104 | the same in terms of what is spawned: for every sequence of roles and quotas, deadlock free if and only if the items present plus those produced minus those consumed fit the ring |
| BufferThreads.RunnableIff | code-experiments/basic-enclave/Enclave/TrustedLibrary/Thread.cpp:77-103 | the schedules leave out nothing: a thread can go on exactly unless it has finished, sleeps, or needs a mutex that is held, so a newcomer may overtake a woken thread; a signal may wake any sleeper of the other role, and every sleeper may wake spuriously |
| BufferThreads.ScheduleExtends | code-experiments/basic-enclave/Enclave/TrustedLibrary/Thread.cpp:77-103 | every schedule can be followed by every step that is enabled where it ends |
| BufferThreads.StepEffect | code-experiments/basic-enclave/Enclave/TrustedLibrary/Thread.cpp:77-103 | what one step does to the mutex, to its thread and to all others, in program order; only the statements on the buffer touch the ring |
| BufferProperties.MaximalRunFinishes | code-experiments/basic-enclave/Enclave/TrustedLibrary/Thread.cpp:77-103 | a balanced run that cannot go on has finished every thread, holds no lock, never left the buffer, and leaves exactly the stock plus the surplus in a ring at rest |
| BufferProperties.RunIsBounded | code-experiments/basic-enclave/Enclave/TrustedLibrary/Thread.cpp:77-103 | termination without fairness: at most 13 steps per loop iteration, one per thread and four per spurious wake-up |
| EnclaveThreads.ApplicationPhase | code-experiments/basic-enclave/App/TrustedLibrary/Thread.cpp:85-97 | one producer of n*L items and n consumers of L each, any n, L, capacity and order of spawning: bounded, deadlock free, and from an empty ring back to an empty ring with level indices and all slots 0, every slot cleared in the order of the stores |
| EnclaveThreads.NoWakeupIsLost | code-experiments/basic-enclave/Enclave/TrustedLibrary/Thread.cpp:80-101 | with the mutex free, a consumer asleep means no more items than woken consumers; dually for producers and free slots |
| BufferProperties.RunIsFifo | code-experiments/basic-enclave/Enclave/TrustedLibrary/Thread.cpp:82-100 | in every run the slots are cleared in exactly the order in which they were filled, at most the capacity is outstanding, and no access is out of bounds |
| BufferProperties.StepRefinesQueue | code-experiments/basic-enclave/Enclave/TrustedLibrary/Thread.cpp:82-100 | each statement is a step of a bounded FIFO queue of slots: a store appends a slot that is not outstanding, a clear removes the head, everything else leaves the queue alone |
| BufferProperties.RingWhenFree | code-experiments/basic-enclave/Enclave/TrustedLibrary/Thread.cpp:43-54 | with the mutex free: the count, both indices (modulo the capacity) and every slot's content are determined by the history |
| BufferProperties.RunKeepsInv | code-experiments/basic-enclave/Enclave/TrustedLibrary/Thread.cpp:75-104 | mutual exclusion, ring, accounts and wake-up tokens hold after every schedule |
| BufferInvariant.StepKeepsInv | code-experiments/basic-enclave/Enclave/TrustedLibrary/Thread.cpp:75-104 | each single statement, and each spurious wake-up, keeps that invariant |
| BufferInvariant.StoreKeepsRing | code-experiments/basic-enclave/Enclave/TrustedLibrary/Thread.cpp:82 | a store hits a slot that is not outstanding and appends it |
| BufferInvariant.ClearKeepsRing | code-experiments/basic-enclave/Enclave/TrustedLibrary/Thread.cpp:98 | a clear hits the oldest outstanding slot, which is then outstanding no more |
| BufferInvariant.StepWakeups | code-experiments/basic-enclave/Enclave/TrustedLibrary/Thread.cpp:80-101 | every statement keeps the balance between sleepers, items and wake-ups on their way |
| BufferProperties.StuckIsDone | code-experiments/basic-enclave/Enclave/TrustedLibrary/Thread.cpp:75-104 | a reachable state in which nothing can run has all threads finished exactly if the roster is balanced |
| BufferProperties.StepCost | code-experiments/basic-enclave/Enclave/TrustedLibrary/Thread.cpp:77-103 | every statement strictly lowers the cost of the threads, a spurious wake-up raises it by at most three |
| BufferProperties.DriveToStuck | code-experiments/basic-enclave/Enclave/TrustedLibrary/Thread.cpp:77-103 | from every reachable state some schedule without spurious wake-ups reaches a state where nothing can run |
| EnclaveThreads.CondBuffer.constructor | code-experiments/basic-enclave/Enclave/TrustedLibrary/Thread.cpp:53-54 | the static initialiser gives an empty ring at rest |
| EnclaveThreads.CondBuffer.Execute | code-experiments/basic-enclave/Enclave/TrustedLibrary/Thread.cpp:82-100 | each statement between guard and signal, on the buffer in place, is the corresponding step |
| EnclaveThreads.ExecuteControl | code-experiments/basic-enclave/Enclave/TrustedLibrary/Thread.cpp:77-103 | the statements around the buffer (loop test, lock, guard, wait, signal, unlock) are the steps of the interleaving model |
| EnclaveThreads.ExecuteStatement | code-experiments/basic-enclave/Enclave/TrustedLibrary/Thread.cpp:77-103 | each statement of a thread, in place, is the step of the interleaving model |
| EnclaveThreads.RunPhase | code-experiments/basic-enclave/App/TrustedLibrary/Thread.cpp:86-97 | run in place under an arbitrary scheduler, the phase ends, with all threads finished if and only if the roster is balanced; then every thread has made all its iterations, and stores and clears have grown by the quotas |
| EnclaveThreads.RosterSpelled | code-experiments/basic-enclave/App/TrustedLibrary/Thread.cpp:87-91 | one producer with all items, and n consumers with equal shares |
| CounterThreads.NoLostUpdate | code-experiments/basic-enclave/Enclave/TrustedLibrary/Thread.cpp:60-73 | with the read and the write of the counter apart: whenever the mutex is free the counter is the number of completed iterations modulo 2^64 |
| CounterThreads.AtMostOneReturns | code-experiments/basic-enclave/Enclave/TrustedLibrary/Thread.cpp:68-72 | within one phase, at every moment: at most one call has a nonzero result as long as the phase's increments fit in a word |
| CounterThreads.PhaseResult | code-experiments/basic-enclave/App/TrustedLibrary/Thread.cpp:42-50 | after the adders are joined the application's counter is the threshold if it was passed and is otherwise unchanged; a zero threshold is never reported, another at most as often as it is passed and at least once if it is passed at all |
| CounterThreads.PassesCount | code-experiments/basic-enclave/Enclave/TrustedLibrary/Thread.cpp:68 | how often a range of counts shows the threshold, wrap-around included |
| CounterThreads.RunIsBounded | code-experiments/basic-enclave/Enclave/TrustedLibrary/Thread.cpp:63-71 | the adders take at most six steps an iteration and two more each |
| CounterThreads.StuckIsDone | code-experiments/basic-enclave/Enclave/TrustedLibrary/Thread.cpp:60-73 | the adders cannot block each other for good |
| CounterThreads.DriveToStuck | code-experiments/basic-enclave/Enclave/TrustedLibrary/Thread.cpp:60-73 | from every reachable state some schedule goes on until all adders have returned |
| CounterThreads.StepReturns | code-experiments/basic-enclave/Enclave/TrustedLibrary/Thread.cpp:64-70 | each statement keeps the tie between nonzero results and passings of the threshold |
| CounterThreads.RunnableIff | code-experiments/basic-enclave/Enclave/TrustedLibrary/Thread.cpp:63-71 | an adder can go on exactly unless it has returned, or comes to the mutex while another one is inside; whoever is inside can go on |
| CounterThreads.ScheduleExtends | code-experiments/basic-enclave/Enclave/TrustedLibrary/Thread.cpp:63-71 | every schedule can be followed by every adder that can go on |
| CounterThreads.StepEffect | code-experiments/basic-enclave/Enclave/TrustedLibrary/Thread.cpp:60-73 | what one statement does to both counters, the mutex, its adder and the others, in program order |
| Application.AssertionsHold | code-experiments/basic-enclave/App/TrustedLibrary/Thread.cpp:73-83 | over any number of rounds and every interleaving, the assertion of each round holds if and only if the iterations of one round reach the threshold |
| Application.ReturnsArePasses | code-experiments/basic-enclave/App/TrustedLibrary/Thread.cpp:42-50 | over any number of rounds on the same statics: as many calls return nonzero as the counter passes a positive threshold, if that is at most once or no single round laps the word; in any case at most as many |
| Application.ReportsFromLoad | code-experiments/basic-enclave/App/TrustedLibrary/Thread.cpp:42-50 | from the load, in closed form; at most one call ever writes the application's unprotected counter until the count comes round to the threshold again |
| Application.RoundsBalance | code-experiments/basic-enclave/App/TrustedLibrary/Thread.cpp:71-98 | after any number of rounds: empty ring, level indices, clears equal to stores, counter equal to the total modulo 2^64 |
| Application.RoundsExist | code-experiments/basic-enclave/App/TrustedLibrary/Thread.cpp:71-98 | from settled statics any number of rounds can be run and joined, so the results over rounds are about something for every number |
| Application.RoundsExtend | code-experiments/basic-enclave/App/TrustedLibrary/Thread.cpp:71-98 | every pair of schedules that cannot be extended makes a round, and every such round can follow any rounds |
| Application.RoundSettles | code-experiments/basic-enclave/App/TrustedLibrary/Thread.cpp:71-98 | one round from settled statics to settled statics |
| Application.Process.ExecuteAdder | code-experiments/basic-enclave/Enclave/TrustedLibrary/Thread.cpp:64-70 | each statement of an adder, on the statics in place, is the step of the interleaving model |
| Application.Process.RunAdders | code-experiments/basic-enclave/App/TrustedLibrary/Thread.cpp:73-81 | the adder phase in place, under an arbitrary scheduler: every adder makes all its iterations, and the counters and reports follow |
| Application.Process.ThreadFunctions | code-experiments/basic-enclave/App/TrustedLibrary/Thread.cpp:71-98 | one call in place: when the assertion passes, and what it leaves for the next call; if it passes the producer and each consumer have made all their iterations and stores and clears have grown by the work of the round, if not the buffer is untouched |
| ServiceProviders.ServiceProvider.ProcMsg0 | code-experiments/attestation/remote/service_provider/service_provider.cpp:187-303 | message 0 in place: registration, result, and the response handed over exactly on success, for every failure |
| ServiceProviders.ServiceProvider.ProcMsg1 | code-experiments/attestation/remote/service_provider/service_provider.cpp:307-612 | message 1 in place: the partial update each failure leaves, the result, a consistent message 2 on success, the response handed over exactly then, every context closed; the encoded message carries the length of the revocation list and the list after the MAC |
| ServiceProviders.ServiceProvider.Establish | code-experiments/attestation/remote/service_provider/service_provider.cpp:346-501 | the stored session after the first half, by the first call that fails; the ECC context is left open exactly if it was opened |
| ServiceProviders.ServiceProvider.FillMsg2 | code-experiments/attestation/remote/service_provider/service_provider.cpp:519-591 | message 2 is consistent with the stored session |
| ServiceProviders.Sealed | code-experiments/attestation/remote/service_provider/service_provider.cpp:567-582 | the MAC covers exactly the bytes of the encoded message before it |
| Protocol.WireFormat | code-experiments/attestation/remote/service_provider/service_provider.cpp:521-591 | message 2 byte by byte: key, SPID, quote type, derivation id, signature, MAC over the first 148 bytes, little-endian length of the list, list |
| ServiceProviders.KeysByPosition | code-experiments/attestation/remote/service_provider/service_provider.cpp:442-501 | which stored keys a request that stops has replaced, in the order of the derivations of either build |
| Protocol.CodeIsFirstFailure | code-experiments/attestation/remote/service_provider/service_provider.cpp:346-593 | the result is the code of the first failing call, and 0 exactly if no reachable call fails; -1 for the context, 4 for the revocation list, 5 for every other call |
| Protocol.ReadU32OfU32 | code-experiments/attestation/remote/service_provider/service_provider.cpp:201 | the group id survives the little-endian message |
| Sessions.RegistrationIsSafe | code-experiments/attestation/remote/service_provider/service_provider.cpp:204-242 | after every history a registered provider points into its table, so the call at line 430 is defined |
| Sessions.RegisteredIffEnrolled | code-experiments/attestation/remote/service_provider/service_provider.cpp:204-242 | registered if and only if some earlier well-formed message 0 named a supported group and its enrolment succeeded |
| Sessions.Refused | code-experiments/attestation/remote/service_provider/service_provider.cpp:197-327 | bad arguments give -1 and a message 1 before any enrolment gives 1; neither changes anything |
| Sessions.Message0Cases | code-experiments/attestation/remote/service_provider/service_provider.cpp:201-302 | message 0 case by case, state and code: registered for that group, unsupported group, failed enrolment, enrolment |
| Sessions.Message1Cases | code-experiments/attestation/remote/service_provider/service_provider.cpp:346-501 | message 1 of a registered provider, field by field as far as the request comes |
| Sessions.Message1NeedsEnrolment | code-experiments/attestation/remote/service_provider/service_provider.cpp:318-327 | message 1 succeeds if and only if it is well formed, an enrolment came before, and none of its calls fails |
| Sessions.ReplyIsNotRegistration | code-experiments/attestation/remote/service_provider/service_provider.cpp:205-281 | in every safe state, registered or not: after a successful reply to message 0 the provider is registered for the named group exactly if the group is supported |
| Sessions.ReplyPromisesIff | code-experiments/attestation/remote/service_provider/service_provider.cpp:205-281 | for every table: over all histories a successful reply means registration for that group if and only if the group is in the table |
| Sessions.GroupOneIsAnsweredOk | code-experiments/attestation/remote/service_provider/service_provider.cpp:205-281 | one input at which it fails: the program's table with group 0, freshly loaded and asked for group 1, answers `SP_OK` unregistered |
| Sessions.Message2CarriesEnrolledSpid | code-experiments/attestation/remote/service_provider/service_provider.cpp:237-524 | after every history, the SPID of a consistent message 2 was handed out by an earlier enrolment; with the one-entry table it is that entry's |
| Sessions.RegistrationIsFinal | code-experiments/attestation/remote/service_provider/service_provider.cpp:53-60 | with the one-entry table, group pointer and SPID never change once registered |
| Sessions.SpidFollowsGroupIff | code-experiments/attestation/remote/service_provider/service_provider.cpp:205-239 | for every table of 32-bit ids, repeated ones included: the SPID always belongs to the group pointed at if and only if all entries that can be found have the same SPID, because the pointer moves before the enrolment is known to succeed |
| Sessions.KeysOutliveRequests | code-experiments/attestation/remote/service_provider/service_provider.cpp:346-501 | from a message 1 that derives all its keys, whatever fails after that, until the next one that stores anything, keys, key pair and g_a are of one session |
| Sessions.LastSuccessOwnsState | code-experiments/attestation/remote/service_provider/service_provider.cpp:346-501 | over whole histories: if the last message 1 that stored anything derived all its keys, the stored state belongs to it |
| Sessions.LastOkOwnsState | code-experiments/attestation/remote/service_provider/service_provider.cpp:346-593 | over whole histories: while nothing has been stored since a message 1 that was answered `SP_OK`, the stored state is that session |
| Sessions.SessionSurvivesIff | code-experiments/attestation/remote/service_provider/service_provider.cpp:346-501 | after any accepted message 1 on a stored session, whatever fails: keys, key pair and g_a still match if and only if nothing was written, or everything up to the last key, or what was written happens to agree with what was left, position by position |
| Sessions.KeepsSessionsIff | code-experiments/attestation/remote/service_provider/service_provider.cpp:346-501 | for every set of failing calls: the stored session survives for all primitives, tables and histories if and only if the first failure comes before the first write or after the last key |
| Sessions.FailureLeavesMixture | code-experiments/attestation/remote/service_provider/service_provider.cpp:346-501 | the input for every other failure, in both builds: a concrete suite and history with a matching session, and an accepted message 1 after which the keys do not match |
| Sessions.KeysAgree | code-experiments/attestation/remote/enclave/enclave.cpp:129-165 | for every private key of the enclave, both sides hold the same SMK, SK, MK and VK, and the derivation id in message 2 is the one the enclave accepts |
| Sessions.Handshake | code-experiments/attestation/remote/service_provider/service_provider.cpp:442-462 | the exchange end to end through both implementations gives equal keys; the provider answers exactly if it was registered and none of its calls fails |
| KeyDerivation.DeriveKeyServer | code-experiments/attestation/remote/service_provider/ecp.cpp:93-155 | the provider's supplied derivation, with every hash context closed once on every path |
| KeyDerivation.DeriveKeyEnclave | code-experiments/attestation/remote/enclave/enclave.cpp:57-118 | the enclave's supplied derivation computes the same keys |
| KeyDerivation.FillHashBuffer | code-experiments/attestation/remote/service_provider/ecp.cpp:100-113 | the in-place reversal loop of the provider |
| KeyDerivation.FillEnclaveBuffer | code-experiments/attestation/remote/enclave/enclave.cpp:64-76 | the in-place reversal loop of the enclave |
| KeyDerivation.EnclaveKeyDerivation | code-experiments/attestation/remote/enclave/enclave.cpp:129-165 | the four keys, or the right error for a null secret, a foreign derivation id or a failing call |
| KeyDerivation.SuppliedKeysSpelled | code-experiments/attestation/remote/service_provider/ecp.cpp:104-147 | the four keys in full: SMK and SK are the halves of one hash, MK and VK of another, over counter, reversed secret, zeros and the two names |
| KeyDerivation.DefaultKeysSpelled | code-experiments/attestation/remote/service_provider/ecp.cpp:179-246 | the four keys in full: each the tag under the extracted key of its own label; no other key id has a label |
| Protocol.SessionKeysSpelled | code-experiments/attestation/remote/service_provider/service_provider.cpp:442-501 | what a session stores, in full, for either build |
| KeyDerivation.HashInputInjective | code-experiments/attestation/remote/service_provider/ecp.cpp:104-135 | the hashed string determines the shared secret and the key id |
| KeyDerivation.FillDerivationBuffer | code-experiments/attestation/remote/service_provider/ecp.cpp:223-239 | the derivation buffer filled in place |
| KeyDerivation.DerivationBufferDecodes | code-experiments/attestation/remote/service_provider/ecp.cpp:221-239 | a decoder of derivation buffers accepts exactly the encoded ones and returns their label |
| KeyDerivation.KeyIdsSeparated | code-experiments/attestation/remote/service_provider/ecp.cpp:194-220 | the four key ids are derived from different buffers |
| KeyDerivation.DeriveKeyDefault | code-experiments/attestation/remote/service_provider/ecp.cpp:170-256 | the default derivation; the buffer is freed on every path and an unknown key id is refused |
| Client.SendReceive | code-experiments/attestation/remote/service_provider/network_ra.cpp:52-125 | dispatch by type; the caller's pointer is overwritten exactly on success |
| Client.StartEnclave | code-experiments/attestation/remote/app/app.cpp:147-178 | at most two attempts, the second only after a lost enclave; how many contexts they hand out |
| Client.RetryWhileBusy | code-experiments/attestation/remote/app/app.cpp:202-210 | the retry loop stops at the first attempt that is not busy or when its retries are used up |
| Client.SucceedsIff | code-experiments/attestation/remote/app/app.cpp:99-299 | what finishing takes, call by call |
| Client.AfterRunIs | code-experiments/attestation/remote/app/app.cpp:97-231 | which requests the provider has seen after any run, finished or not |
| Client.TallyExactly | code-experiments/attestation/remote/app/app.cpp:147-279 | how far a run comes and how often it tries each call, exactly, and how many contexts it is handed |
| Client.StoresCounts | code-experiments/attestation/remote/app/app.cpp:263-279 | the number of messages 3 stored is that of the attempts that store one |
| Client.ProcessMessage2 | code-experiments/attestation/remote/app/app.cpp:263-299 | the given message 2 is processed at most once more than the retries allow; success needs a message 3 from any of the attempts, and of those stored all but the last are out of reach |
| Client.RequestMessage2 | code-experiments/attestation/remote/app/app.cpp:181-254 | message 2 obtained is consistent with the client's own g_a and the registered provider; the wrong-type branch is not taken |
| Client.Attest | code-experiments/attestation/remote/app/app.cpp:99-463 | the client end to end: it finishes exactly if every stage succeeds; how often it creates an enclave, asks for message 1 and processes message 2, and how many contexts it is handed, exactly and at most 2, 5, 3 and 2; the message 2 it processes is consistent and for its own g_a, after registration; a failed run frees every buffer it can still reach and closes its last context; a finished run keeps its four buffers and every message 3; nothing is left behind if and only if the run fails and was handed at most one context and one message 3; when it finishes, the last attempt at every call succeeded; the provider has seen exactly the requests sent |
| Client.CanFinishIff | code-experiments/attestation/remote/app/app.cpp:81-463 | from every safe state, some outcome of the calls lets the client finish if and only if the provider is registered already or supports group 0 |
| Client.FinishAndKeep | code-experiments/attestation/remote/app/app.cpp:417-463 | the input at which blocks and context leak: the program's own table, every call succeeding at its first attempt, five blocks still allocated and no context closed |
| Client.FailAndKeep | code-experiments/attestation/remote/app/app.cpp:423-463 | the input at which a failed run leaves something: a lost enclave and two messages 3, so one context unclosed and one block allocated |
| Endian.SwapEndian32B | code-experiments/attestation/remote/service_provider/ias_ra.cpp:57-72 | the macro on memory reverses the 32 bytes and touches nothing else |
| Endian.SwapPair | code-experiments/attestation/remote/service_provider/ias_ra.cpp:60-62 | one exchange of the macro |
| Endian.TurnedTwice | code-experiments/attestation/remote/service_provider/ias_ra.cpp:57-72 | the macro is its own inverse |
| Endian.VerifyAttestationEvidence | code-experiments/attestation/remote/service_provider/ias_ra.cpp:106-187 | the report on success and on each failure: the signed bytes are all zero and stay so, each half of the signature is reversed, the context is closed |
| Checksum.ChecksumInternal | code-experiments/basic-enclave/Enclave/Edger8rSyntax/Pointers.cpp:45-62 | the pointer walk is the complement of the recursive word sum, and overflows when some partial sum does; result and sum add up to -1 |
| Checksum.SignedReadings | code-experiments/basic-enclave/Enclave/Edger8rSyntax/Pointers.cpp:51-59 | bytes and words are read in two's complement, low byte first |
| Checksum.SafeIffShort | code-experiments/basic-enclave/Enclave/Edger8rSyntax/Pointers.cpp:47-59 | no buffer of a length overflows the accumulator if and only if the length is at most 131072 |
| Checksum.WordSumSplits | code-experiments/basic-enclave/Enclave/Edger8rSyntax/Pointers.cpp:51-54 | the sum splits at every even offset |
| Checksum.WordSumBounds | code-experiments/basic-enclave/Enclave/Edger8rSyntax/Pointers.cpp:51-59 | bounds of the sum by the number of words and odd bytes |
| Checksum.BoundsAttained | code-experiments/basic-enclave/Enclave/Edger8rSyntax/Pointers.cpp:51-59 | for every length one buffer attains the lower bound and one the upper |
| Checksum.PointerUserCheck | code-experiments/basic-enclave/Enclave/Edger8rSyntax/Pointers.cpp:67-91 | the caller sums at most 100 bytes without overflow and overwrites at most 12 bytes of the user's buffer |

## Left out

- Message 3 and the attestation result: commented out in the service provider, the dispatcher and the client.
- The bodies of the cryptographic library and of the `sgx_*` calls: not part of the repository.
- The mutexes and condition variables themselves: they have the standard blocking semantics, with `signal` waking at most one waiter.
- Aborts of the application when an enclave call itself fails: the thread phases assume that the calls into the enclave are made.
- Threads and rounds run in place under a scheduler that picks any thread that can go on; the thread descriptors are values there, the buffer and the counters are fields.
- `memcpy_s`: it fails only when the destination is too small, which its equal sizes rule out at each call here; the model lets each copy fail all the same.
- A crypto call that fails is taken to write nothing to its output.
- Protocol.Encode: the response header's status and alignment bytes, always 0, are not in the message.
- Checksum.ChecksumInternal: after an overflow, which is undefined in C, the sum goes on without wrap-around; for the lengths its caller passes there is none.
- Client.Attest: `sgx_destroy_enclave`, the content of message 3 and the exit status are not modelled.
- The default key derivation on the enclave's side: it is inside the SDK.
- `put_secret_data` and `verify_att_result_mac`: only message 3 leads to them.
- Arithmetic ECALLs, array fills, type echoes, printing, sleeping, build files, copying and access rules of the generated edge code: nothing in them is hard.
