# libpalmsocket: the channel and its deferred SSL I/O

This project models the parts of libpalmsocket that decide what happens to a user's octets,
callbacks, descriptors and references, and proves what they promise.

- **Deferred SSL I/O.** `SslOracle` is the SSL object behind its API: a script of answers, so
  that a statement about all scripts is one about every behaviour the contract allows, and a
  log of all calls. `DeferredIo` says what the component computes, without loops where the loops
  run a bounded number of times. `DeferredIoEngine` is the component as the source has it: a
  class with the nested loops, over the array buffer of `IoBuf` and the table of `MultiFdWatch`,
  each method proved equal to its specification, each assertion of the source proved.
  `DeferredIoProofs`, `CryptoEventProofs`, `CryptoControlProofs` and `CryptoRest` prove what is
  promised: conservation of output and input, exact retries, no crossed waits, sticky errors,
  flush before close, an exact watch. `DeferredIoEffects` says, from the log of calls and the
  flags of the watch alone, what is retried, with what, and what is waited for afterwards.
- **Channel state machine.** `ChannelState` gives the handlers of all thirteen states, the
  dispatcher and the callbacks as functions, together with accounts of descriptors opened and
  closed, context references held and callbacks made. `ChannelFsm` is the machine as an object
  over the I/O component and the watch table, every handler proved equal to its function, every
  run proved to be one of the object. `ChannelInvariant` states what holds
  between steps, `ChannelProofs`, `ChannelTransitions`, `ChannelFrames` and `ChannelSteps` prove
  that every step keeps it, `ChannelForward` what no step undoes, and `ChannelRuns` what follows
  for whole runs. `ChannelWaits` says over all runs that what waits waits for what the library
  asked for and is retried when it is ready, and `ChannelOutcomes` what comes of every event,
  told from its arguments and the answers of the system. `ChannelRenegotiation` says over which runs SSL_renegotiate respects unfinished
  writes. `ChannelReadiness` is the preflight and the user's channel watch.
- **Host lookup** (`HostLookup`): c-ares calls back from inside our own calls and the user may
  destroy the session from its callback. Freed memory is a missing value, so that every access
  after the end would fail to verify; what c-ares and glib hold is kept apart from it, so that
  nothing may be left that could still call.
- **Lifetime** (`Lifetime`): references of the user, of watches and of callbacks under way, and
  the sources that call into the machine.
- **Timer arithmetic** (`TimeUtils`, `MultiFdWatch`) and the **certificate host-name matcher**
  (`HostnameMatch`) against a declarative definition.

Assumptions about what is outside: the state-machine engine dispatches from the leaf to the
root, leaves states up to the common ancestor, enters down to the target and begins it, and a
self-transition leaves and enters the state again; an FD_WATCH reports a timer only when one is
set and conditions only of the registered descriptor; sources of glib do not recurse; the user
keeps a reference while calling the channel, and does not use a lookup session after asking for
its destruction.

What the code does differently from what its comments or its interface suggest:

- When an FD_WATCH reports a broken descriptor and the output still waits after its retry, a
  renegotiation that follows calls SSL_renegotiate although the library still expects that write
  (`RenegotiatesCleanUnlessBroken` says that this is the only way, `HangUpThenRenegotiate` is such
  a run).
- A host name that itself contains '*' is compared literally where the certificate name has its
  wildcard, so a certificate that covers the name can be refused (`MatchesExactly` says exactly
  when, `LiteralStarHidesTheWildcard` shows it).

## Model

| member | source | states |
|---|---|---|
| IoBuffer.IoBuf.constructor | src/psl_io_buf.h:93-106 | A new buffer has the given capacity and no contents. |
| IoBuffer.IoBuf.GetDataSize | src/psl_io_buf.h:147-153 | The size is that of the octets not yet consumed. |
| IoBuffer.IoBuf.IsEmpty | src/psl_io_buf.h:163-166 | Empty exactly when every octet was consumed. |
| IoBuffer.IoBuf.GetData | src/psl_io_buf.h:171-210 | The data pointer and count give access to exactly the unconsumed octets, in order. |
| IoBuffer.IoBuf.ResetData | src/psl_io_buf.h:222-228 | Afterwards there is nothing to consume. |
| IoBuffer.IoBuf.ResetSetSize | src/psl_io_buf.h:261-277 | Afterwards the smaller of the request and the capacity can be filled in, whatever was consumed before. |
| IoBuffer.IoBuf.MoveToFront | src/psl_io_buf.h:316-341 | The compaction moves the octets down unchanged although source and destination may overlap. |
| IoBuffer.IoBuf.ExtendIfPossible | src/psl_io_buf.h:316-341 | Grows the data at its end as far as the capacity allows and keeps what was there, with or without compaction. |
| IoBuffer.IoBuf.TruncateData | src/psl_io_buf.h:360-370 | Keeps exactly the first octets asked for. |
| IoBuffer.IoBuf.Consume | src/psl_io_buf.h:392-402 | Drops exactly the first octets; the rest stays in order. |
| IoBuffer.IoBuf.FillData | src/psl_channel_fsm_crypto.c:2546-2560 | Copying through the data pointer makes the contents equal to the source. |
| TimeUtils.Timespec.Normalize | src/psl_time_utils.c:70-77 | Brings the nanoseconds into range without changing the time, with C's truncating division. |
| TimeUtils.Timespec.Add | src/psl_time_utils.c:106-117 | The sum as a time; the result is normal. |
| TimeUtils.Timespec.SubtractAbs | src/psl_time_utils.c:126-160 | The absolute difference, and whether the true difference is negative. |
| TimeUtils.Compare | src/psl_time_utils.c:169-187 | The sign of the comparison of the two times. |
| TimeUtils.ConvertToMillisec | src/psl_time_utils.c:196-211 | Rounds up to milliseconds, and the result is an int. |
| TimeUtils.Timespec.AddMillisec | src/psl_time_utils.c:220-235 | Adds exactly the milliseconds; no intermediate overflow. |
| MultiFdWatch.RemainingIsExact | src/psl_multi_fd_watch.c:612-657 | With a monotone clock the remaining time is between zero and the timeout, fits an int, and is zero exactly when the deadline has passed. |
| MultiFdWatch.SleepReachesDeadline | src/psl_multi_fd_watch.c:371-463 | Sleeping for the remaining time reaches the deadline; one millisecond less does not. |
| MultiFdWatch.MultiFdWatch.constructor | src/psl_multi_fd_watch.c:150-198 | A new watch has no descriptors and no timeout. |
| MultiFdWatch.MultiFdWatch.SetPollTimeout | src/psl_multi_fd_watch.c:205-229 | Takes -1 and all non-negative timeouts and restarts the timer; refuses the rest and changes nothing. |
| MultiFdWatch.MultiFdWatch.AddOrUpdateFd | src/psl_multi_fd_watch.c:237-280 | The descriptor is registered with the condition; every other one is untouched. |
| MultiFdWatch.MultiFdWatch.RemoveFd | src/psl_multi_fd_watch.c:301-325 | The descriptor is gone from the table and from glib's poll set; an unknown one is refused. |
| MultiFdWatch.MultiFdWatch.Reset | src/psl_multi_fd_watch.c:333-356 | No descriptor is left in the table or polled, and the timeout is infinite. |
| MultiFdWatch.MultiFdWatch.SyncAll | src/psl_multi_fd_watch.c:378-404 | glib's poll set becomes exactly the descriptors with something to watch. |
| MultiFdWatch.MultiFdWatch.Prepare | src/psl_multi_fd_watch.c:371-412 | Exactly the descriptors with something to watch are polled; the returned timeout is the exact remaining time. |
| MultiFdWatch.MultiFdWatch.UpdateExpiryTime | src/psl_multi_fd_watch.c:612-657 | Restarting fixes the deadline; afterwards the remaining time is exact. |
| MultiFdWatch.MultiFdWatch.Check | src/psl_multi_fd_watch.c:426-463 | Ready exactly when the deadline has passed or some descriptor indicates a condition asked for or one of the three failures; never before start plus timeout. |
| MultiFdWatch.MultiFdWatch.IsTimerExpired | src/psl_multi_fd_watch.c:671-694 | True exactly when there is a timeout and its deadline has passed. |
| MultiFdWatch.MultiFdWatch.Dispatch | src/psl_multi_fd_watch.c:479-556 | Each descriptor that indicates a condition asked for, or a failure, is handed to the callback once, with its requested and indicated events; no other is. |
| HostnameMatch.CheckCertHostNameMatch | src/psl_x509_utils.c:104-197 | The loop answers exactly whether the names match as the declarative definition says; bad arguments are refused; every index is in range. |
| HostnameMatch.MatchesIsCoverage | src/psl_x509_utils.c:104-197 | For host names without '*': a match exactly when the names are equal up to case, or the certificate name has one wildcard that stands for a non-empty run without dots in the same label, with two dots after it (compare section 3.1 of RFC 2818). |
| HostnameMatch.MatchesExactly | src/psl_x509_utils.c:104-197 | For all names: a match exactly when the certificate name covers the host name and is equal to it up to case, or the host name has no '*' at the place of the wildcard, the last octet of the certificate name's first label. |
| HostnameMatch.MatchKeepsLabelCount | src/psl_x509_utils.c:104-197 | Names that match have the same number of labels. |
| HostnameMatch.LiteralStarHidesTheWildcard | src/psl_x509_utils.c:104-197 | It does happen: a certificate name that covers a host name with a '*' of its own is refused. |
| HostnameMatch.FoldsCaseOnly | src/psl_x509_utils.c:131-139 | Two distinct octets are taken for equal exactly when they are the two cases of one letter. |
| SslOracle.Write | src/psl_channel_fsm_crypto.c:3396-3437 | The contract of SSL_write: it takes one octet or more of those presented, or none and says why. |
| SslOracle.Read | src/psl_channel_fsm_crypto.c:3166-3233 | The contract of SSL_read: while octets are pending it does no I/O, delivers some of them or fails for good. |
| SslOracle.Shutdown | src/psl_channel_fsm_crypto.c:3524-3622 | The contract of SSL_shutdown: 1 only when both close alerts have passed, 0 without a stall only when ours has. |
| DeferredIoProofs.SendTakesPrefix | src/psl_channel_fsm_crypto.c:3389-3408 | Writing in pieces hands SSL_write the source octets in order, each once. |
| DeferredIoProofs.SendLeavesUnfinished | src/psl_channel_fsm_crypto.c:3411-3437 | A refused write leaves the library waiting for exactly the piece that was presented. |
| DeferredIoProofs.SendIsDisciplined | src/psl_channel_fsm_crypto.c:3389-3437 | After a WANT answer the next SSL_write presents exactly the same octets and length. |
| DeferredIoProofs.ReceiveDelivers | src/psl_channel_fsm_crypto.c:3160-3217 | The octets delivered are the ones SSL_read produced, in order. |
| DeferredIoProofs.ReceiveIsDisciplined | src/psl_channel_fsm_crypto.c:3160-3277 | Reading changes nothing about the writes and the shutdown. |
| DeferredIoProofs.ReceiveWithinPending | src/psl_channel_fsm_crypto.c:3162-3184 | A read of no more than is pending stays within it at every step: no I/O, no WANT, and the pending count falls by what was read. |
| DeferredIoProofs.DeferredReadsSingly | src/psl_channel_fsm_crypto.c:2848-2975 | The deferred processing asks SSL_read at most once, and for one octet, so that every retry has the same arguments. |
| DeferredIoProofs.FlushIsSound | src/psl_channel_fsm_crypto.c:2806-2842 | One attempt to write out the buffer keeps the conservation of output and the retry discipline. |
| DeferredIoProofs.HoldByteIsSound | src/psl_channel_fsm_crypto.c:2862-2951 | One attempt to read an octet into the holding buffer keeps the conservation of input; with octets pending it never waits. |
| DeferredIoProofs.ReadStepIsSound | src/psl_channel_fsm_crypto.c:2848-2975 | The read step keeps the invariant and leaves no crossed waits. |
| DeferredIoProofs.SettleIsSound | src/psl_channel_fsm_crypto.c:2757-2977 | The nested loops keep the invariant and leave no crossed waits, from every state, hint and set of events. |
| DeferredIoProofs.AbortIsSound | src/psl_channel_fsm_crypto.c:2985-3027 | A broken descriptor turns waiting input and healthy output into sticky errors and changes no earlier error. |
| DeferredIoProofs.UpdateWatchIsExact | src/psl_channel_fsm_crypto.c:2604-2624 | Skipping an update that looks unnecessary never loses one: the condition asked for is registered afterwards. |
| DeferredIoProofs.FinishIsSound | src/psl_channel_fsm_crypto.c:2980-3040 | After the loops the registered condition is exactly the union of what the two directions wait for. |
| DeferredIoProofs.ProcessDeferredIsSound | src/psl_channel_fsm_crypto.c:2730-3040 | The deferred processing keeps conservation, retry discipline, sticky errors and the user's octets, ends without crossed waits and with an exact watch. |
| CryptoEventProofs.ReadIsSound | src/psl_channel_fsm_crypto.c:2271-2449 | READ gives the user the next octets in order, each once, at most as many as asked, and keeps the invariant. |
| CryptoEventProofs.ReadStatusTells | src/psl_channel_fsm_crypto.c:2326-2347 | The status of READ: normal exactly when octets were given or none asked for; AGAIN, EOF and ERROR tell the state of the input. |
| CryptoEventProofs.LimitedReadNoTransport | src/psl_channel_fsm_crypto.c:1224-1258 | A READ limited to what is pending or held does no transport I/O, and the input does not wait after it. |
| CryptoEventProofs.WriteIsSound | src/psl_channel_fsm_crypto.c:2456-2597 | WRITE accepts exactly the octets it reports, in order, whatever SSL_write answered; the status tells why none were. |
| CryptoControlProofs.ShutLoopIsSound | src/psl_channel_fsm_crypto.c:3510-3630 | However often SSL_shutdown answers 0, the phase only goes forward and the loop ends with the right phase and error. |
| CryptoControlProofs.DoShutdownIsSound | src/psl_channel_fsm_crypto.c:3487-3661 | Success means our alert was sent, both ways also that the peer's was received; failure carries a reason; the watch waits for one condition or nothing. |
| CryptoControlProofs.DoRenegotiateIsSound | src/psl_channel_fsm_crypto.c:1583-1713 | Renegotiation moves no octet of the user, goes forward through its phases and calls SSL_renegotiate once, only with no output waiting. |
| CryptoControlProofs.RenegotiateOverUnfinishedWrite | src/psl_channel_fsm_crypto.c:1610-1630 | One step of a renegotiation calls SSL_renegotiate over a write to be retried exactly when its flush phase ends with the output failed and such a write left. |
| CryptoControlProofs.DeferredNoReneg | src/psl_channel_fsm_crypto.c:2743-3021 | The deferred processing leaves such an output behind exactly when the descriptor is reported broken and the output still waits after the retry. |
| ChannelRenegotiation.StuckAfterBreak | src/psl_channel_fsm_crypto.c:3011-3021 | Over all runs: in the crypto mode the output has failed with a write to be retried exactly after an FD_WATCH found the descriptor broken and the output still waiting after its retry. |
| ChannelRenegotiation.RenegotiatesCleanUnlessBroken | src/psl_channel_fsm_crypto.c:1610-1630 | Over all runs: SSL_renegotiate was never called over an unfinished write exactly unless a renegotiation started after such an FD_WATCH. |
| ChannelRenegotiation.HangUpThenRenegotiate | src/psl_channel_fsm_crypto.c:3014-3021 | It does happen, as a run from the creation of the channel: connected, a WRITE that has to wait, a hang-up under which its retry waits again, a RENEGOTIATE. |
| DeferredIoEffects.RetriesOutput | src/psl_channel_fsm_crypto.c:2759-2845 | A waiting output is presented to SSL_write, all of it and before any other call, exactly when the socket is reported writable or broken or nothing is reported; taken completely it is gone and, unless the descriptor is broken, the output idle. |
| DeferredIoEffects.RetriesInput | src/psl_channel_fsm_crypto.c:2848-2975 | A waiting input is retried once when octets are pending, or when the socket is reported readable or broken or nothing is reported and the output does not wait to read; an octet read is held, otherwise the input waits for what SSL_read asked for or has its error. |
| DeferredIoEffects.DeferredTold | src/psl_channel_fsm_crypto.c:2730-3040 | After the deferred processing each direction that waits does so for what its last call asked for; the exceptions are the optimistic switch of an output after a read, and an input that shares the output's wait to read. |
| DeferredIoEffects.ReadAgainWatches | src/psl_channel_fsm_crypto.c:3218-3277 | After a READ from idle input that answers AGAIN the last SSL_read carries the WANT, and the registered condition has readability for WANT_READ and writability for WANT_WRITE. |
| DeferredIoEffects.ReadWakesOutput | src/psl_channel_fsm_crypto.c:2766-2789 | When READ did transport I/O while output waited, the output is watched for writability. |
| DeferredIoEffects.BrokenFails | src/psl_channel_fsm_crypto.c:2985-3027 | A hang-up or invalid descriptor leaves nothing waiting: the output fails, a waiting input too unless its last try gave an octet, with the error of the call just made if that was fatal and as a reset connection otherwise; earlier errors stay. |
| DeferredIoEffects.FailedInputFreesOutput | src/psl_channel_fsm_crypto.c:2926-2949 | When the retried input fails for good, the waiting output is presented to SSL_write at once, whatever it waits for. |
| DeferredIoEffects.GivingReadWaitsNot | src/psl_channel_fsm_crypto.c:3236-3277 | A READ that gave octets never leaves the input waiting. |
| DeferredIoEffects.ReadGivesAll | src/psl_channel_fsm_crypto.c:2296-2323 | READ from idle input gives all that was asked for, up to an int's range, unless its last SSL_read stopped it. |
| DeferredIoEffects.WriteTakesAll | src/psl_channel_fsm_crypto.c:2519-2582 | WRITE to idle output begins with SSL_write of the first 16 KB, and accepts everything, up to an int's range, unless SSL_write refused some of it. |
| DeferredIoEffects.WriteWatches | src/psl_channel_fsm_crypto.c:3411-3437 | After a WRITE that SSL_write refused for now the output waits for what SSL_write asked for last, and that is registered. |
| DeferredIoEffects.HandshakeWatches | src/psl_channel_fsm_crypto.c:1773-1844 | One handshake call is made; it ends the handshake with its error, or the watch waits for what it asked for and nothing else. |
| DeferredIoEffects.WaitWatches | src/psl_channel_fsm_crypto.c:1854-1905 | Waiting for the client is over when no renegotiation is pending any more, or by a failure of the peek; otherwise the watch waits for what the peek asked for. |
| DeferredIoEffects.ShutdownWatches | src/psl_channel_fsm_crypto.c:3487-3661 | What the last SSL_shutdown said decides success, failure with its error, or which single condition the watch waits for. |
| DeferredIoEffects.LimitedReadGives | src/psl_channel_fsm_crypto.c:1224-1258 | A READ limited to what is pending or held gives all of it, or the input has failed. |
| DeferredIoEffects.RenegotiationHeld | src/psl_channel_fsm_crypto.c:1604-1612 | While output waits no renegotiation starts and nothing is called. |
| DeferredIoEffects.RenegotiationStarts | src/psl_channel_fsm_crypto.c:1610-1701 | Once the output does not wait SSL_renegotiate is the first call; a client goes on with one handshake call unless octets wait to be read; an earlier error ends it. |
| DeferredIoEffects.HelloGoes | src/psl_channel_fsm_crypto.c:1634-1668 | A server asks for the client's hello by a handshake call, and goes on, waits or ends by what it said. |
| DeferredIoEffects.HandshakePhaseGoes | src/psl_channel_fsm_crypto.c:1671-1701 | With octets to be read first nothing is called and nothing watched; otherwise the handshake, or the wait for the client, decides. |
| DeferredIoEngine.CryptoIo.constructor | src/psl_channel_fsm_crypto.c:674-683 | Entering the crypto mode: both directions idle, the output buffer empty. |
| DeferredIoEngine.CryptoIo.SetFd | src/psl_channel_fsm_main.c:810-849 | The descriptor changes only while nothing is registered for it. |
| DeferredIoEngine.CryptoIo.Renew | src/psl_channel_fsm_crypto.c:674-683 | Entering the crypto mode again starts from nothing but the watch. |
| DeferredIoEngine.CryptoIo.WriteLow | src/psl_channel_fsm_crypto.c:3359-3468 | The loop over SSL_write computes the specified transfer and output state. |
| DeferredIoEngine.CryptoIo.ReadLow | src/psl_channel_fsm_crypto.c:3116-3290 | The loop over SSL_read, pending octets directly and others through the one-octet buffer, computes the specified transfer and input state, which is what SSL_read asked for (DeferredIoEffects.ReadAgainWatches); its assertions hold. |
| DeferredIoEngine.CryptoIo.UpdateWatchCondition | src/psl_channel_fsm_crypto.c:2604-2624 | The wrapper around the watch update does what the specification says. |
| DeferredIoEngine.CryptoIo.ResetFdWatch | src/psl_channel_fsm_crypto.c:2631-2638 | The watch and the component's idea of it are both empty. |
| DeferredIoEngine.CryptoIo.ScheduleDeferred | src/psl_channel_fsm_crypto.c:2654-2664 | The union of the two directions' conditions is asked for. |
| DeferredIoEngine.CryptoIo.FlushBuffer | src/psl_channel_fsm_crypto.c:2806-2842 | One attempt to write out the buffer in place; its assertions hold. |
| DeferredIoEngine.CryptoIo.DeferredWrite | src/psl_channel_fsm_crypto.c:2759-2845 | The write step of one round, with its optimistic switch: what waits is retried as DeferredIoEffects.RetriesOutput says. |
| DeferredIoEngine.CryptoIo.ReadHoldingByte | src/psl_channel_fsm_crypto.c:2862-2951 | One octet into the holding buffer; its assertions hold. |
| DeferredIoEngine.CryptoIo.DeferredRead | src/psl_channel_fsm_crypto.c:2848-2975 | The read step of one round. |
| DeferredIoEngine.CryptoIo.SettleDeferred | src/psl_channel_fsm_crypto.c:2742-2977 | The nested loops end after two rounds at most with at most one read step, as the result says, and compute the specified state; none of their assertions fails. |
| DeferredIoEngine.CryptoIo.AbortDeferred | src/psl_channel_fsm_crypto.c:3011-3021 | The sticky errors of a broken descriptor. |
| DeferredIoEngine.CryptoIo.ProcessDeferredIo | src/psl_channel_fsm_crypto.c:2730-3040 | The whole of the deferred processing refines its specification, of which DeferredIoEffects.RetriesOutput, RetriesInput and DeferredTold say what is called and what is waited for. |
| DeferredIoEngine.CryptoIo.TakeAndReceive | src/psl_channel_fsm_crypto.c:2296-2323 | The held octet first, then the transfer. |
| DeferredIoEngine.CryptoIo.OnRead | src/psl_channel_fsm_crypto.c:2271-2449 | READ refines its specification, of which DeferredIoEffects.ReadAgainWatches says what the watch waits for after AGAIN; its assertions hold. |
| DeferredIoEngine.CryptoIo.SendOrBuffer | src/psl_channel_fsm_crypto.c:2519-2582 | What SSL_write refuses for now fits the buffer and is kept there. |
| DeferredIoEngine.CryptoIo.OnWrite | src/psl_channel_fsm_crypto.c:2456-2597 | WRITE refines its specification; its assertions hold. |
| DeferredIoEngine.CryptoIo.StartShutdown | src/psl_channel_fsm_crypto.c:799-820 | The begin handler of CRYPTO_SHUT: both ways, a waiting input and its held octet are given up. |
| DeferredIoEngine.CryptoIo.StartRenegotiation | src/psl_channel_fsm_crypto.c:1154-1172 | The begin handler of CRYPTO_RENEG: the input waits no longer. |
| DeferredIoEngine.CryptoIo.Shut | src/psl_channel_fsm_crypto.c:3487-3661 | The shutdown loop terminates and refines its specification. |
| DeferredIoEngine.CryptoIo.ShakeHands | src/psl_channel_fsm_crypto.c:1772-1844 | A handshake call and what it makes the watch wait for. |
| DeferredIoEngine.CryptoIo.WaitForClient | src/psl_channel_fsm_crypto.c:1853-1905 | Waiting for the client's renegotiation. |
| DeferredIoEngine.CryptoIo.RunRenegotiation | src/psl_channel_fsm_crypto.c:1583-1713 | The phases of the renegotiation, in place. |
| DeferredIoEngine.SoundIsHealthy | src/psl_channel_fsm_crypto.c:2757-2977 | The invariant covers every assertion about the I/O state, so none of them can fail. |
| CryptoRest.ConnShakes | src/psl_channel_fsm_crypto.c:1094-1108 | A handshake round keeps the connecting state sound, waiting for one condition, or ends it. |
| CryptoRest.SslBegins | src/psl_channel_fsm_crypto.c:1305-1312 | Entering CRYPTO_SSL leaves the watch exact and nothing crossed, whatever the renegotiation left behind. |
| CryptoRest.SslWatches | src/psl_channel_fsm_crypto.c:1324-1336 | FD_WATCH in CRYPTO_SSL keeps that. |
| CryptoRest.SslReads | src/psl_channel_fsm_crypto.c:1338-1340 | READ in CRYPTO_SSL keeps that. |
| CryptoRest.SslWrites | src/psl_channel_fsm_crypto.c:1342-1344 | WRITE in CRYPTO_SSL keeps that. |
| CryptoRest.RenegReads | src/psl_channel_fsm_crypto.c:1224-1258 | A READ while renegotiating does no transport I/O and leaves the input not waiting. |
| CryptoRest.RenegSteps | src/psl_channel_fsm_crypto.c:1190-1207 | A renegotiation step keeps the input not waiting and takes back nothing. |
| CryptoRest.ShutBegins | src/psl_channel_fsm_crypto.c:799-820 | Entering CRYPTO_SHUT keeps conservation; both ways, a read under way is given up. |
| CryptoRest.ShutFlushes | src/psl_channel_fsm_crypto.c:924-946 | The flush phase ends only with no output waiting, and no earlier. |
| CryptoRest.ShutCloses | src/psl_channel_fsm_crypto.c:948-981 | A shutdown round goes forward, ends in success only with the alerts passed, and in failure only with an error. |
| CryptoRest.ClosedAfterEverything | src/psl_channel_fsm_crypto.c:924-957 | Once our close alert was sent, everything ever accepted had been taken before SSL_shutdown was first called (section 7.2.1 of RFC 5246). |
| ChannelInvariant.CreatedHolds | src/psl_channel_fsm_main.c:103-221 | A new machine satisfies the invariant. |
| ChannelInvariant.AdoptKeeps | src/psl_channel_fsm_main.c:810-849 | Adopting a descriptor keeps the descriptor account exact. |
| ChannelInvariant.CloseKeeps | src/psl_channel_fsm_main.c:940-958 | After CLOSED is entered nothing the machine owned is open, and it was closed once. |
| ChannelInvariant.MakeSockKeeps | src/psl_channel_fsm_plain.c:947-1056 | A socket that could not be configured is closed again; a returned one is the machine's. |
| ChannelProofs.GoToHolds | src/psl_channel_fsm_main.h:496-740 | A transition request, with the reference its wrapper takes, keeps every account. |
| ChannelProofs.OnInitHolds | src/psl_channel_fsm_main.c:772-923 | INIT keeps the invariant: an adopted descriptor and a server address exclude each other. |
| ChannelProofs.OnLookupHolds | src/psl_channel_fsm_plain.c:333-443 | LOOKUP keeps the invariant. |
| ChannelProofs.OnPlainConnHolds | src/psl_channel_fsm_plain.c:513-681 | PLAIN_CONN keeps the invariant; its callback moves to the slot or on to the handshake, never both. |
| ChannelProofs.OnPlainTcpHolds | src/psl_channel_fsm_plain.c:689-738 | PLAIN_TCP keeps the invariant. |
| ChannelProofs.OnCryptoConnHolds | src/psl_channel_fsm_crypto.c:1049-1127 | CRYPTO_CONN keeps the invariant. |
| ChannelProofs.ConnSetupHolds | src/psl_channel_fsm_crypto.c:1379-1574 | Creating the SSL object takes one reference to its context, or none on failure. |
| ChannelProofs.OnCryptoSslHolds | src/psl_channel_fsm_crypto.c:1286-1372 | CRYPTO_SSL keeps the invariant. |
| ChannelProofs.OnCryptoRenegHolds | src/psl_channel_fsm_crypto.c:1135-1279 | CRYPTO_RENEG keeps the invariant. |
| ChannelProofs.OnCryptoShutHolds | src/psl_channel_fsm_crypto.c:782-1041 | CRYPTO_SHUT keeps the invariant. |
| ChannelProofs.TwoWaySuccessIsQuiet | src/psl_channel_fsm_crypto.c:913-921 | After two-way success no FD_WATCH can arrive. |
| ChannelTransitions.PassageRefs | src/psl_channel_fsm_plain.c:341-351 | Leaving a state gives back exactly what its argument and, with the mode, the SSL object held. |
| ChannelTransitions.MovedHolds | src/psl_sme.c:50-112 | A transition requested by any handler ends in a state at rest that satisfies the invariant. |
| ChannelTransitions.MovedCalls | src/psl_sme.c:132-178 | The target's begin handler gets the argument of the request: what the request owed, the new state owes. |
| ChannelFrames.HandledFrames | src/psl_channel_fsm_main.c:718-1019 | No handler calls back, forgets a callback that was made, or changes the state by itself. |
| ChannelSteps.DispatchedHolds | src/psl_channel_fsm_main.c:718-1019 | An event, run to completion, keeps the invariant. |
| ChannelSteps.WatchCalledHolds | src/psl_channel_fsm_main.c:661-704 | The slot is empty when something is scheduled into it, and its callback is made once. |
| ChannelSteps.LookupCalledHolds | src/psl_channel_fsm_plain.c:451-505 | A failed lookup is reported once, after the machine has left LOOKUP. |
| ChannelSteps.FinalizedHolds | src/psl_channel_fsm_main.c:230-245 | Finalizing closes first and ends in FINAL. |
| ChannelSteps.AfterHolds | src/psl_channel_fsm_main.c:661-1019 | Every call, callback, return and finalisation keeps the whole invariant: descriptors, context references, callbacks, I/O and watch. |
| ChannelForward.HandledOnward | src/psl_channel_fsm_crypto.c:667-1372 | No event of the crypto mode clears a sticky error or takes back an octet. |
| ChannelForward.DispatchedCrypto | src/psl_channel_fsm_crypto.c:822-849 | From the crypto mode an event leads to a crypto state, to a dead end, or to PLAIN_TCP with both close alerts passed. |
| ChannelForward.DispatchedShut | src/psl_channel_fsm_crypto.c:851-981 | An event that leaves the machine in CRYPTO_SHUT, also one that enters it anew, does not move the shutdown back and accepts no octet. |
| ChannelForward.DispatchedResumes | src/psl_channel_fsm_crypto.c:822-849 | Only RESUME_PLAINTEXT after success, or the FD_WATCH that ends a two-way shutdown of the legacy interface, leads from the crypto mode to PLAIN_TCP. |
| ChannelRuns.RunHolds | src/psl_channel_fsm_main.c:661-1019 | The invariant holds at every point of every run. |
| ChannelRuns.CallbacksAtMostOnce | src/psl_channel_fsm_main.c:340-439 | In every run each requested completion callback is made at most once, across lookup, connect and handshake. |
| ChannelRuns.NothingAfterClose | src/psl_channel_fsm_main.c:931-975 | From CLOSE on no callback is made, no SSL context reference is held, and every owned descriptor has been closed exactly once. |
| ChannelRuns.CryptoModeKeeps | src/psl_channel_fsm_crypto.c:2973-3021 | Through any stretch of crypto states errors stay, accepted and given octets only grow, and conservation holds at every point. |
| ChannelRuns.PlaintextAfterBothAlerts | src/psl_channel_fsm_crypto.c:822-849 | Over all runs, from crypto to PLAIN_TCP only after close_notify was sent, after every accepted octet, and received; and only by RESUME_PLAINTEXT after success or the end of a legacy two-way switch. |
| ChannelRuns.ShutdownGoesForward | src/psl_channel_fsm_crypto.c:851-981 | Within one visit to CRYPTO_SHUT, whatever happens in it: no WRITE is accepted, a two-way shutdown stays one, and the phase never moves backwards but when a one-way shutdown becomes a two-way one. |
| ChannelRuns.EstablishedWatchesExactly | src/psl_channel_fsm_crypto.c:1305-1336 | In CRYPTO_SSL at rest the registered condition is exactly the union that the two directions demand, uncrossed, with no timer. |
| ChannelRuns.CryptoWatchCoherent | src/psl_channel_fsm_crypto.c:2604-2664 | In every reachable crypto state the cached condition equals the registered one. |
| ChannelRuns.OctetsConserved | src/psl_channel_fsm_crypto.c:2456-2975 | In every reachable crypto state: accepted octets are those SSL_write took followed by the buffer, given ones with the held octet those SSL_read produced; waiting output has a buffer, idle output none, waiting input holds nothing; retries were exact and no shutdown was called over one. |
| ChannelRuns.ReferencesConserved | src/psl_channel_fsm_main.h:527-657 | In every reachable state the SSL context references held are one for an active crypto attempt and one for the SSL object. |
| ChannelRuns.DescriptorsConserved | src/psl_channel_fsm_main.c:810-958 | In every reachable state what is owned and not closed is the machine's descriptor, nothing was closed twice, connected states have a descriptor, and an adopted one excludes a server address. |
| ChannelRuns.RenegotiatingInputNeverWaits | src/psl_channel_fsm_crypto.c:1172-1174 | In CRYPTO_RENEG the input never enters a WANT state. |
| ChannelRuns.CallbackTellsTruth | src/psl_channel_fsm_crypto.c:960-971 | A callback made after FD_WATCH reports success exactly when the machine is not in a failed state by then. |
| ChannelWaits.WaitsAsTold | src/psl_channel_fsm_crypto.c:2730-3290 | In every reachable crypto state a direction that waits does so for what its last call asked for, or as the optimistic switch and the shared wait have it. |
| ChannelWaits.EstablishedWaitsAsTold | src/psl_channel_fsm_crypto.c:2604-2664 | In CRYPTO_SSL at rest, over all runs, the registered flags are those the last SSL_read and SSL_write asked for, with the same two exceptions, and nothing is registered when nothing waits. |
| ChannelWaits.RetriedWhenReady | src/psl_channel_fsm_crypto.c:1322-1334 | At every step of every run: an FD_WATCH that reports CRYPTO_SSL's socket writable while output waits begins with SSL_write of exactly what waits; one that reports it readable while input waits calls SSL_read once. |
| ChannelWaits.FlushRetries | src/psl_channel_fsm_crypto.c:920-932 | An FD_WATCH that reports a writable socket while the flush before the close waits begins with SSL_write of exactly what waits. |
| ChannelOutcomes.ConnectTaken | src/psl_channel_fsm_main.c:787-808 | CONNECT is taken in INIT with an address or a descriptor and in PLAIN_TCP to encrypt, and leads to the state for it; refused, it changes nothing. |
| ChannelOutcomes.SetConnFdTaken | src/psl_channel_fsm_main.c:810-849 | A descriptor is adopted exactly in INIT, when it is one and neither an address nor a descriptor was set before. |
| ChannelOutcomes.SetServerTaken | src/psl_channel_fsm_main.c:852-883 | A server address is taken exactly in INIT, once, and not after a descriptor. |
| ChannelOutcomes.SetSockBindTaken | src/psl_channel_fsm_main.c:885-914 | A local address is taken exactly in INIT, once, and not after a descriptor. |
| ChannelOutcomes.RenegotiationBegins | src/psl_channel_fsm_crypto.c:1154-1174 | Entering CRYPTO_RENEG arms the timer and nothing else, gives up a read that waited and leaves the output, the held octet and the SSL object as they were. |
| ChannelOutcomes.ShutdownBegins | src/psl_channel_fsm_crypto.c:799-820 | Entering CRYPTO_SHUT arms the timer and nothing else; both ways a read that waited is given up, one way it goes on; the output and the SSL object stay as they were. |
| ChannelOutcomes.RenegotiateTaken | src/psl_channel_fsm_crypto.c:1344-1357 | RENEGOTIATE is taken exactly in CRYPTO_SSL, and a wait for the client only by a server. |
| ChannelOutcomes.ShutCryptoTaken | src/psl_channel_fsm_crypto.c:851-874 | SHUT_CRYPTO is taken exactly in CRYPTO_SSL and CRYPTO_RENEG, and to make a one-way shutdown a two-way one. |
| ChannelOutcomes.ResumeTaken | src/psl_channel_fsm_crypto.c:822-842 | RESUME_PLAINTEXT succeeds, and leads to PLAIN_TCP, exactly when the shutdown has succeeded and both alerts have passed; otherwise it is refused and changes nothing. |
| ChannelOutcomes.ShutSockTaken | src/psl_channel_fsm_plain.c:728-780 | SHUT_SOCK shuts the socket in every connected state unless the system refuses. |
| ChannelOutcomes.CloseTaken | src/psl_channel_fsm_main.c:931-975 | CLOSE is taken everywhere, and closes the descriptor unless the user keeps it. |
| ChannelOutcomes.SslReadReplies | src/psl_channel_fsm_crypto.c:1336-1338 | READ in CRYPTO_SSL: the reply holds the octets given, all that were asked for unless SSL_read stopped it, and the status says why there are none. |
| ChannelOutcomes.SslWriteReplies | src/psl_channel_fsm_crypto.c:1340-1342 | WRITE in CRYPTO_SSL: the octets the reply counts, from the front, were accepted, all of them unless SSL_write refused some; the status says why there are none. |
| ChannelOutcomes.RenegReadReplies | src/psl_channel_fsm_crypto.c:1224-1259 | READ while renegotiating gives all of what is pending or held, up to what was asked for, unless the input fails, and answers AGAIN without a call when there is nothing; then the renegotiation goes on, and an end of it is left to the timer to report. |
| ChannelOutcomes.OtherWriteReplies | src/psl_channel_fsm_crypto.c:1261-1266 | WRITE answers AGAIN while renegotiating, and is refused while shutting down and connecting. |
| ChannelOutcomes.FailedReplies | src/psl_channel_fsm_crypto.c:738-775 | READ and WRITE are refused, and change nothing, once the channel has failed and until it is connected. |
| ChannelOutcomes.ShutReadReplies | src/psl_channel_fsm_crypto.c:985-1030 | READ while shutting down: both ways nothing, and the end of file after success; one way octets as in CRYPTO_SSL while flushing and after success, AGAIN otherwise. |
| ChannelOutcomes.AttemptBegins | src/psl_channel_fsm_plain.c:534-583 | An attempt begins with the user's descriptor or the socket made for it; what failed already waits for the timer, otherwise the descriptor is watched for writability. |
| ChannelOutcomes.ConnectOutcome | src/psl_channel_fsm_plain.c:590-672 | An FD_WATCH in PLAIN_CONN: the connection is made exactly when the attempt had no error, SO_ERROR had none unless the descriptor is the user's, and the poll indicates writability and no failure; otherwise the first of the three causes is the failed state's and the callback's error. |
| ChannelOutcomes.LookupOutcome | src/psl_channel_fsm_plain.c:451-505 | The end of a lookup leads to the attempt to connect or to the failed state with its error, and a failed lookup is reported with it. |
| ChannelOutcomes.HandshakeOutcome | src/psl_channel_fsm_crypto.c:1049-1127 | An FD_WATCH in CRYPTO_CONN: a setup that fails, or else what the one handshake call said, decides the next state, the callback and its error, or the single condition watched. |
| ChannelOutcomes.RenegOutcome | src/psl_channel_fsm_crypto.c:1179-1209 | An FD_WATCH in CRYPTO_RENEG: it goes on until the last phase is over; its error or success is what is reported and where it leads. |
| ChannelOutcomes.RenegHandshakeOutcome | src/psl_channel_fsm_crypto.c:1671-1701 | An FD_WATCH in the handshake of a renegotiation with nothing to be read first: what the handshake call said decides the next state, the callback and its error, or the condition watched. |
| ChannelOutcomes.ShutdownOutcome | src/psl_channel_fsm_crypto.c:900-983 | An FD_WATCH in CRYPTO_SHUT: nothing else happens while output waits, an output that failed fails the shutdown, and otherwise what SSL_shutdown said decides success, failure or the condition watched; success leads back to plaintext exactly for the legacy interface. |
| ChannelOutcomes.RunsOnSideAsAsked | src/psl_channel_fsm_crypto.c:1085-1090 | Over all runs: from its setup on a crypto connection is a server's exactly when CONNECT asked for one, through handshake, renegotiation and shutdown. |
| ChannelOutcomes.RunsLookUp | src/psl_channel_fsm_plain.c:345-351 | Over all runs there is a lookup session exactly in LOOKUP: leaving it, also by CLOSE, ends the session. |
| ChannelOutcomes.RunsConnect | src/psl_channel_fsm_plain.c:590-672 | ConnectOutcome at every step of every run, the causes in their order. |
| ChannelOutcomes.RunsResume | src/psl_channel_fsm_crypto.c:822-842 | At every step of every run RESUME_PLAINTEXT leads from CRYPTO_SHUT to PLAIN_TCP, with status success, exactly when the shutdown has succeeded and both alerts have passed. |
| ChannelOutcomes.RunsSwitch | src/psl_channel_fsm_crypto.c:956-975 | At every step of every run a ready watch leads from CRYPTO_SHUT to PLAIN_TCP exactly for the legacy interface and when the SSL_shutdown just called said that both alerts have passed; success is reported. |
| ChannelFsm.Fsm.constructor | src/psl_channel_fsm_main.c:103-221 | A new machine. |
| ChannelFsm.Fsm.Go | src/psl_sme.c:50-112 | At most one transition is requested per event, into an empty argument slot. |
| ChannelFsm.Fsm.Schedule | src/psl_channel_fsm_main.h:303-326 | The one-slot scheduler is only used within FD_WATCH and is empty when scheduled into. |
| ChannelFsm.Fsm.HandleInit | src/psl_channel_fsm_main.c:772-923 | INIT in place. |
| ChannelFsm.Fsm.HandleLookup | src/psl_channel_fsm_plain.c:333-443 | LOOKUP in place. |
| ChannelFsm.Fsm.HandlePlainConn | src/psl_channel_fsm_plain.c:590-672 | FD_WATCH of PLAIN_CONN in place, with the outcome of ChannelOutcomes.ConnectOutcome; its assertion about the poll records holds. |
| ChannelFsm.Fsm.HandlePlainTcp | src/psl_channel_fsm_plain.c:689-738 | PLAIN_TCP in place. |
| ChannelFsm.Fsm.CreateSsl | src/psl_channel_fsm_crypto.c:1379-1574 | The SSL object and its context reference, in place. |
| ChannelFsm.Fsm.HandleCryptoConn | src/psl_channel_fsm_crypto.c:1049-1127 | CRYPTO_CONN in place. |
| ChannelFsm.Fsm.HandleCryptoSsl | src/psl_channel_fsm_crypto.c:1286-1372 | CRYPTO_SSL in place, over the in-place READ, WRITE and deferred processing; its assertion about the poll records holds. |
| ChannelFsm.Fsm.RenegotiationRead | src/psl_channel_fsm_crypto.c:1224-1258 | READ of CRYPTO_RENEG in place, limited to what is ready. |
| ChannelFsm.Fsm.ReadReady | src/psl_channel_fsm_crypto.c:1236-1254 | The limited in-place READ and the renegotiation going on after it; the assertion that the input does not wait holds. |
| ChannelFsm.Fsm.HandleCryptoReneg | src/psl_channel_fsm_crypto.c:1135-1279 | CRYPTO_RENEG in place, over the in-place deferred processing and renegotiation. |
| ChannelFsm.Fsm.ShutdownRound | src/psl_channel_fsm_crypto.c:948-981 | The round of the in-place shutdown loop; the assertion about the failed phase holds. |
| ChannelFsm.Fsm.FlushRound | src/psl_channel_fsm_crypto.c:904-946 | The flush phase in place, over the nested loops. |
| ChannelFsm.Fsm.HandleCryptoShut | src/psl_channel_fsm_crypto.c:782-1041 | CRYPTO_SHUT in place, with the outcomes of ChannelOutcomes.ResumeTaken and ShutdownOutcome; its assertions hold. |
| ChannelFsm.Fsm.HandleOuter | src/psl_channel_fsm_main.c:718-764 | What the enclosing states do with an event the leaf passed on. |
| ChannelFsm.Fsm.Dispatch | src/psl_channel_fsm_main.c:718-1019 | An event goes from the leaf to the root, then the transition asked for is made. |
| ChannelFsm.Fsm.ExitLeaf | src/psl_channel_fsm_plain.c:345-351 | Leaving a state gives back exactly the references of its argument, ends its lookup and, where it used the watch, leaves no descriptor and no timer in it. |
| ChannelFsm.Fsm.CloseDescriptor | src/psl_channel_fsm_main.c:940-958 | Entering CLOSED closes the descriptor unless the user keeps it. |
| ChannelFsm.Fsm.MakeAndConnectSock | src/psl_channel_fsm_plain.c:947-1056 | Making, configuring and connecting a socket. |
| ChannelFsm.Fsm.BeginPlainConn | src/psl_channel_fsm_plain.c:534-583 | The begin handler of PLAIN_CONN. |
| ChannelFsm.Fsm.BeginLeaf | src/psl_sme.c:132-178 | The begin handler of the target gets the argument of the request. |
| ChannelFsm.Fsm.Transition | src/psl_sme.c:50-112 | Exits to the common ancestor, entries to the target, its begin; a self-transition leaves and enters again. |
| ChannelFsm.Fsm.FdWatchCallback | src/psl_channel_fsm_main.c:661-704 | The watch callback up to the user's function. |
| ChannelFsm.Fsm.CallbackReturned | src/psl_channel_fsm_main.c:681-701 | After the user's function the slot is free and the watch may call again; nothing made or owed is forgotten and the invariant holds. |
| ChannelFsm.Fsm.HostLookupCallback | src/psl_channel_fsm_plain.c:451-505 | The end of a lookup. |
| ChannelFsm.Fsm.UserEvent | src/psl_channel_fsm_main.c:718-1019 | A call of the channel's interface: the status, the reply and the new state are those of the event. |
| ChannelFsm.Fsm.Finalize | src/psl_channel_fsm_main.c:230-245 | CLOSE unless closed, then FINALIZE. |
| ChannelFsm.Fsm.TakeStep | src/psl_channel_fsm_main.c:661-1019 | Whatever may happen to the machine: dispatcher, in-place I/O and watch table together make the specified step and keep the invariant. |
| ChannelFsm.Live | src/psl_channel_fsm_main.c:103-1019 | Every run is one of the machine with its output buffer, SSL object and watch table: at its end the octets are conserved and the cached condition is the one in the table. |
| ChannelReadiness.PollHasDescriptor | src/psl_channel.c:1104-1111 | A state that answers CHECK_IO with "poll" has a descriptor, so the preflight's assertion cannot fail. |
| ChannelReadiness.PreflightIsProper | src/psl_channel.c:1005-1121 | Only conditions asked for, or failures, are announced or polled, never both; only an open descriptor is polled; a closed channel announces G_IO_NVAL. |
| ChannelReadiness.EstablishedAnnounces | src/psl_channel_fsm_crypto.c:500-556 | In CRYPTO_SSL a direction is announced exactly when it does not wait, a hang-up exactly when one has failed but for the end of file, and the rest is polled. |
| ChannelReadiness.StatesAnnounce | src/psl_channel_fsm_plain.c:704-764 | Outside the crypto mode: what each state announces, polls, or refuses; PLAIN_TCP and PLAIN_SHUT poll exactly the monitored conditions. |
| ChannelReadiness.RenegotiatingAnnounces | src/psl_channel_fsm_crypto.c:1211-1222 | While renegotiating only octets that are there make the channel readable, and it is not writable. |
| ChannelReadiness.ShuttingAnnounces | src/psl_channel_fsm_crypto.c:876-898 | While shutting down: what is announced one way and both ways, in each phase. |
| ChannelReadiness.DoPreflight | src/psl_channel.c:1005-1121 | The preflight, bit by bit, computes the readiness. |
| ChannelReadiness.DispatchCheckIo | src/psl_channel_fsm_crypto.c:876-898 | The states' answers to CHECK_IO; the assertion about the failed phase holds. |
| ChannelReadiness.ChannelWatch.Prepare | src/psl_channel_watch.c:230-281 | glib polls the descriptor exactly when there is something to poll for. |
| ChannelReadiness.ChannelWatch.WhatIsReady | src/psl_channel_watch.c:396-406 | What is ready is announced or was polled, and was asked for or is a failure. |
| HostLookup.FreedAfterTeardown | src/psl_host_lookup.c:329-392 | In every orderly log that frees the session the c-ares channel was destroyed before its watch, everything made was gone before the freeing, and the freeing is last. |
| HostLookup.TvToMillisec | src/psl_host_lookup.c:785-828 | Rounds up and clamps: never wakes before the deadline unless clamped. |
| HostLookup.Session.constructor | src/psl_host_lookup.c:150-237 | A session, or an orderly undoing of one that could not be set up. |
| HostLookup.Session.Start | src/psl_host_lookup.c:244-277 | The query waits for the main loop. |
| HostLookup.Session.SockStateCallback | src/psl_host_lookup.c:491-533 | The watch exists whenever c-ares speaks of its sockets. |
| HostLookup.Session.HostCallback | src/psl_host_lookup.c:595-639 | The user is called only while the lookup runs; a destruction asked for meanwhile is put off. |
| HostLookup.Session.CalledBack | src/psl_host_lookup.c:408-436 | Whatever c-ares calls back from inside one call, the session stays consistent. |
| HostLookup.Session.FreeAresAndWatch | src/psl_host_lookup.c:376-392 | c-ares is destroyed, then its watch, each if it is there; callbacks meanwhile find the watch; afterwards neither is left. |
| HostLookup.Session.DestroyInternal | src/psl_host_lookup.c:329-360 | c-ares, the watch and the idle source go, in this order, and then the memory: nothing is left that could call into it. |
| HostLookup.Session.UserDestroy | src/psl_host_lookup.c:284-300 | A destruction between callbacks happens at once and leaves nothing attached. |
| HostLookup.Session.KickStart | src/psl_host_lookup.c:408-469 | The first query, which may complete or destroy the session before it returns. |
| HostLookup.Session.FdWatchCallback | src/psl_host_lookup.c:658-771 | c-ares is fed, in order, each descriptor with something indicated, as readable exactly when readability was asked for and it or a failure indicated, and as writable likewise, up to the one in which the lookup ended; with none to feed there is one call without descriptors; no access after the session is freed. |
| HostLookup.WholeLife | src/psl_host_lookup.c:150-771 | For every c-ares behaviour and every moment of destruction: whatever is attached finds the memory, effects are in order, a destruction asked for is carried out, and a freed session has left neither c-ares nor a source behind. |
| Lifetime.Channel.FsmUnref | src/psl_channel_fsm_main.c:267-281 | Only a finalized machine is ever freed. |
| Lifetime.Channel.HeaderUnref | src/psl_channel.c:1144-1154 | The last header reference drops the machine's. |
| Lifetime.Channel.Finalize | src/psl_channel_fsm_main.c:230-245 | CLOSE unless closed, then FINALIZE: afterwards neither the fd watch nor a lookup can call into the machine. |
| Lifetime.Channel.Unref | src/psl_channel.c:1201-1236 | The last reference of the user finalizes the machine, also from inside a callback. |
| Lifetime.Channel.MakeWatch | src/psl_channel_watch.c:177-223 | A watch holds a header reference. |
| Lifetime.Channel.FinalizeWatch | src/psl_channel_watch.c:371-381 | A watch may go at any time, also after the channel was finalized. |
| Lifetime.Channel.UserClose | src/psl_channel.c:1168-1191 | A channel closed by the user stays closed to the end and has no lookup any more. |
| Lifetime.Channel.Connect | src/psl_channel_fsm_plain.c:333-443 | A closed machine starts no lookup; a user's CONNECT never finds a finalized one. |
| Lifetime.Channel.FdWatchFired | src/psl_channel_fsm_main.c:660-704 | The fd watch fires only while the machine is there and not from within itself; the references taken keep the machine alive through the callback; a closed one calls nobody. |
| Lifetime.Channel.LookupFired | src/psl_channel_fsm_plain.c:451-505 | The same for the end of a lookup, which happens once. |
| Lifetime.Channel.ReturnFromCallback | src/psl_channel_fsm_main.c:681-701 | After the callback the slot is written before the last reference goes. |
| Lifetime.Channel.CallMachine | src/psl_channel_fsm_main.c:983-1019 | A user's call never reaches the final state. |
| Lifetime.WholeLife | src/psl_channel.c:1129-1236 | Under every interleaving of the user's references and closes, watches, firing sources and returning callbacks: what can happen finds what it needs alive, and each block is freed once, exactly when nothing refers to it. |

## Left out

- OpenSSL, glib, c-ares and the state-machine engine are contracts, not models; so are sockets, fcntl, connect and getsockopt, whose answers are parameters.
- Progress of deferred I/O: with output waiting for a readable socket and only readability reported, the code does not retry the write, so that every ready event makes progress is not a property of it.
- Progress of a renegotiation's flush, and the report of a failed SSL_renegotiate: the watch is reset and not armed again while output waits, and the error is overwritten by a later phase.
- Exactly one callback for CONNECT: a lookup that succeeds without a usable address fails the channel with no callback, and CLOSE or a later SHUT_CRYPTO drops one; at most one is proved.
- The FD_WATCH dispatch is taken to follow its check directly; a callback on another channel in between could change what is registered.
- The output buffer is one object that is emptied where the library allocates one on entering the crypto mode and frees it on leaving.
- READ returns the octets as a sequence instead of storing them through the caller's pointer, and SSL_pending and the transfer counts are unbounded numbers once the request is clamped to an int.
- Reading and writing the descriptor in the plain states, the last-error record, GET_PEER_CERT_VERIFY_ERR and the peer-verification callbacks, which change nothing that is modelled.
- The argument of a transition is part of the request; that its buffer is large enough is not modelled.
- Nested main loops run from a user's callback, and a failing clock_gettime.
- A multi-fd watch without a callback, a channel whose state machine could not be created, threads, logging and error strings.
- Certificate-store search, X509 parsing, PRNG seeding, the legacy locking hooks and the programs that exercise the library.
