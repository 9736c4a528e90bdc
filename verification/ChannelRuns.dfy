/** What whole runs of the channel state machine guarantee. */
module ChannelRuns {
  import opened Common
  import opened SslOracle
  import opened DeferredIo
  import opened DeferredIoProofs
  import opened CryptoControlProofs
  import opened CryptoRest
  import opened ChannelState
  import opened ChannelInvariant
  import opened ChannelProofs
  import opened ChannelTransitions
  import opened ChannelFrames
  import opened ChannelSteps
  import opened ChannelForward

  // ---------------------------------------------------------------------------------------
  // One step, whatever it is
  // ---------------------------------------------------------------------------------------

  /** The event that a step dispatches, and the machine it is dispatched to. */
  predicate Dispatches(c: Chan, step: Step, c1: Chan, e: Event, env: Env) {
    match step
    case UserCall(e', env') => e == e' && env == env' && c1 == Noted(c, CbOf(e))
    case WatchReady(revents, env') => e == EvFdWatch(revents) && env == env'
      && c1 == c.(calls := c.calls.(inFdWatchCb := true))
    case LookupEnds(result, env') => e == EvLookupDone(result) && env == env' && c1 == c
    case _ => false
  }

  /** Steps but for the finalisation: at most one event, and calls around it. */
  lemma StepDispatches(c: Chan, step: Step, c1: Chan, e: Event, env: Env)
    requires Inv(c) && Enabled(c, step) && Dispatches(c, step, c1, e, env)
    ensures Rests(c1, e.EvFdWatch?) && Proper(c1, e, env, e.EvFdWatch?)
    ensures c1 == c.(calls := c1.calls) && c1.calls.fired == c.calls.fired
    ensures var d := Dispatched(c1, e, env).c; After(c, step) == d.(calls := After(c, step).calls)
  {
    hide Rests, Proper, Inv, Enabled, After, Dispatched, WasFired;
    StepIsProper(c, step, c1, e, env);
    StepChangesCalls(c, step, c1, e, env);
  }

  lemma StepIsProper(c: Chan, step: Step, c1: Chan, e: Event, env: Env)
    requires Inv(c) && Enabled(c, step) && Dispatches(c, step, c1, e, env)
    ensures Rests(c1, e.EvFdWatch?) && Proper(c1, e, env, e.EvFdWatch?)
  {
    hide Holds, WasFired;
    RestsOwes(c);
    match step
    case UserCall(_, _) =>
      NotedHolds(c, e);
      NotedProper(c, e, env);
    case WatchReady(_, _) => WatchStarts(c);
    case _ =>
  }

  lemma CallsOnly(c: Chan, cb: Cb, err: PslError)
    ensures Called(c, cb, err) == c.(calls := Called(c, cb, err).calls)
    ensures WatchReturned(c) == c.(calls := WatchReturned(c).calls)
    ensures Noted(c, cb) == c.(calls := Noted(c, cb).calls) && Noted(c, cb).calls.fired == c.calls.fired
  {
  }

  lemma StepChangesCalls(c: Chan, step: Step, c1: Chan, e: Event, env: Env)
    requires Dispatches(c, step, c1, e, env)
    ensures c1 == c.(calls := c1.calls) && c1.calls.fired == c.calls.fired
    ensures var d := Dispatched(c1, e, env).c; After(c, step) == d.(calls := After(c, step).calls)
  {
    hide Dispatched, Called, WatchCalled, LookupCalled, Noted;
    match step
    case UserCall(_, _) => CallsOnly(c, CbOf(e), NoError);
    case WatchReady(revents, _) => WatchChangesCalls(c, revents, env);
    case LookupEnds(result, _) => LookupChangesCalls(c, result, env);
    case _ =>
  }

  lemma WatchChangesCalls(c: Chan, revents: Option<GioCond>, env: Env)
    ensures var d := Dispatched(c.(calls := c.calls.(inFdWatchCb := true)), EvFdWatch(revents), env).c;
            WatchCalled(c, revents, env) == d.(calls := WatchCalled(c, revents, env).calls)
  {
    hide Dispatched, Called, WatchReturned;
    var d := Dispatched(c.(calls := c.calls.(inFdWatchCb := true)), EvFdWatch(revents), env).c;
    CallsOnly(d, d.calls.slot, d.calls.slotErr);
  }

  lemma LookupChangesCalls(c: Chan, result: LookupResult, env: Env)
    ensures var d := Dispatched(c, EvLookupDone(result), env).c;
            LookupCalled(c, result, env) == d.(calls := LookupCalled(c, result, env).calls)
  {
    hide Dispatched, Called;
    var d := Dispatched(c, EvLookupDone(result), env).c;
    if result.LookupFails? {
      CallsOnly(d, d.lookup.cb, result.err);
    }
  }

  /** The machine between CLOSE and FINALIZE of a finalisation. */
  lemma FinalizesFromClosed(c: Chan, env: Env)
    requires Inv(c) && Enabled(c, Finalizes(env))
    ensures After(c, Finalizes(env)).leaf.Final? && After(c, Finalizes(env)).calls == c.calls
  {
    hide Dispatched, Holds, WasFired;
    FinalizedHolds(c, env);
    if c.desc.closed {
      FinalizesTo(c, env);
    } else {
      ClosesTo(c, env);
      DispatchedHolds(c, EvClose, env, false);
      FinalizesTo(Dispatched(c, EvClose, env).c, env);
    }
  }

  lemma AfterCrypto(c: Chan, step: Step)
    requires Inv(c) && Enabled(c, step) && c.leaf.InCrypto()
    ensures CryptoStep(c, After(c, step))
  {
    hide Dispatched, Holds, After, Enabled, Onward, ClosedBothWays, WasFired;
    match step
    case UserCall(e, env) => AfterCryptoEvent(c, step, Noted(c, CbOf(e)), e, env);
    case WatchReady(revents, env) =>
      AfterCryptoEvent(c, step, c.(calls := c.calls.(inFdWatchCb := true)), EvFdWatch(revents), env);
    case LookupEnds(result, env) => AfterCryptoEvent(c, step, c, EvLookupDone(result), env);
    case WatchReturns => AfterReturn(c);
    case Finalizes(env) => FinalizesFromClosed(c, env);
  }

  lemma AfterReturn(c: Chan)
    ensures After(c, WatchReturns) == c.(calls := After(c, WatchReturns).calls)
    ensures After(c, WatchReturns).calls.fired == c.calls.fired && Onward(c.io, c.io)
  {
  }

  lemma AfterCryptoEvent(c: Chan, step: Step, c1: Chan, e: Event, env: Env)
    requires Inv(c) && Enabled(c, step) && c.leaf.InCrypto() && Dispatches(c, step, c1, e, env)
    ensures CryptoStep(c, After(c, step))
  {
    hide Dispatched, Holds, After, Enabled, Dispatches, Onward, ClosedBothWays, WasFired;
    StepDispatches(c, step, c1, e, env);
    DispatchedCrypto(c1, e, env);
  }

  lemma AfterDeadEnd(c: Chan, step: Step)
    requires Inv(c) && Enabled(c, step) && DeadEnd(c.leaf)
    ensures DeadEnd(After(c, step).leaf) && (c.desc.closed ==> After(c, step).desc.closed)
  {
    hide Dispatched, Holds, After, Enabled, WasFired;
    AfterHolds(c, step);
    InvClosed(c);
    InvClosed(After(c, step));
    match step
    case UserCall(e, env) => AfterDeadEndEvent(c, step, Noted(c, CbOf(e)), e, env);
    case WatchReady(revents, env) =>
      AfterDeadEndEvent(c, step, c.(calls := c.calls.(inFdWatchCb := true)), EvFdWatch(revents), env);
    case LookupEnds(result, env) => AfterDeadEndEvent(c, step, c, EvLookupDone(result), env);
    case WatchReturns => AfterReturn(c);
    case Finalizes(env) => FinalizesFromClosed(c, env);
  }

  lemma AfterDeadEndEvent(c: Chan, step: Step, c1: Chan, e: Event, env: Env)
    requires Inv(c) && Enabled(c, step) && DeadEnd(c.leaf) && Dispatches(c, step, c1, e, env)
    ensures DeadEnd(After(c, step).leaf)
    ensures c.desc.closed ==> After(c, step).leaf.Closed? || After(c, step).leaf.Final?
  {
    hide Dispatched, Holds, After, Enabled, Dispatches, WasFired;
    StepDispatches(c, step, c1, e, env);
    DispatchedDeadEnd(c1, e, env);
  }

  /** Callbacks made stay made; once closed, none is made. */
  lemma AfterFires(c: Chan, step: Step)
    requires Inv(c) && Enabled(c, step)
    ensures c.calls.fired <= After(c, step).calls.fired
    ensures c.desc.closed ==> After(c, step).calls.fired == c.calls.fired
  {
    hide Dispatched, Holds, Enabled, WasFired;
    match step
    case UserCall(e, env) => DispatchedFires(Noted(c, CbOf(e)), e, env);
    case WatchReady(revents, env) =>
      var c1 := c.(calls := c.calls.(inFdWatchCb := true));
      DispatchedFires(c1, EvFdWatch(revents), env);
      ClosedStays(c, step, c1, EvFdWatch(revents), env);
    case LookupEnds(result, env) =>
      DispatchedFires(c, EvLookupDone(result), env);
      ClosedStays(c, step, c, EvLookupDone(result), env);
    case WatchReturns =>
    case Finalizes(env) => FinalizesFromClosed(c, env);
  }

  lemma ClosedStays(c: Chan, step: Step, c1: Chan, e: Event, env: Env)
    requires Inv(c) && Enabled(c, step) && Dispatches(c, step, c1, e, env) && !step.UserCall?
    ensures c.desc.closed ==> Dispatched(c1, e, env).c.desc.closed
  {
    hide Dispatched, Holds, After, Enabled, WasFired;
    if c.desc.closed {
      InvClosed(c);
      StepDispatches(c, step, c1, e, env);
      AfterDeadEnd(c, step);
    }
  }

  lemma AfterShut(c: Chan, step: Step)
    requires Inv(c) && Enabled(c, step) && c.leaf.CryptoShut?
    ensures After(c, step).leaf.CryptoShut? ==> ShutForward(c, After(c, step))
  {
    hide Dispatched, Holds, After, Enabled, Onward, WasFired, ShutRank;
    match step
    case UserCall(e, env) => AfterShutEvent(c, step, Noted(c, CbOf(e)), e, env);
    case WatchReady(revents, env) =>
      AfterShutEvent(c, step, c.(calls := c.calls.(inFdWatchCb := true)), EvFdWatch(revents), env);
    case LookupEnds(result, env) => AfterShutEvent(c, step, c, EvLookupDone(result), env);
    case WatchReturns => ReturnKeepsShut(c);
    case Finalizes(env) => FinalizesFromClosed(c, env);
  }

  lemma ReturnKeepsShut(c: Chan)
    ensures ShutForward(c, After(c, WatchReturns))
  {
  }

  lemma AfterShutEvent(c: Chan, step: Step, c1: Chan, e: Event, env: Env)
    requires Inv(c) && Enabled(c, step) && c.leaf.CryptoShut? && Dispatches(c, step, c1, e, env)
    ensures After(c, step).leaf.CryptoShut? ==> ShutForward(c, After(c, step))
  {
    hide Dispatched, Holds, After, Enabled, Dispatches, Onward, WasFired, Rank;
    StepDispatches(c, step, c1, e, env);
    DispatchedShut(c1, e, env);
  }

  /** The steps that can lead from the crypto mode back to plaintext. */
  predicate Resumes(c: Chan, step: Step) {
    match step
    case UserCall(e, _) => ResumesBy(c, e) && e.EvResumePlaintext?
    case WatchReady(revents, _) => ResumesBy(c, EvFdWatch(revents))
    case _ => false
  }

  lemma AfterResumes(c: Chan, step: Step)
    requires Inv(c) && Enabled(c, step) && c.leaf.InCrypto() && After(c, step).leaf.PlainTcp?
    ensures Resumes(c, step)
  {
    hide Dispatched, Holds, After, WasFired;
    match step
    case UserCall(e, env) => AfterResumesBy(c, step, Noted(c, CbOf(e)), e, env);
    case WatchReady(revents, env) =>
      AfterResumesBy(c, step, c.(calls := c.calls.(inFdWatchCb := true)), EvFdWatch(revents), env);
    case LookupEnds(result, env) => AfterResumesBy(c, step, c, EvLookupDone(result), env);
    case WatchReturns => AfterReturn(c);
    case Finalizes(env) => FinalizesFromClosed(c, env);
  }

  lemma AfterResumesBy(c: Chan, step: Step, c1: Chan, e: Event, env: Env)
    requires Inv(c) && Enabled(c, step) && c.leaf.InCrypto() && Dispatches(c, step, c1, e, env)
    requires After(c, step).leaf.PlainTcp?
    ensures ResumesBy(c, e)
  {
    hide Dispatched, Holds, After, Enabled, Dispatches, WasFired;
    StepDispatches(c, step, c1, e, env);
    DispatchedResumes(c1, e, env);
  }

  // ---------------------------------------------------------------------------------------
  // Runs
  // ---------------------------------------------------------------------------------------

  /** The machine from its creation on, through any steps that can happen to it. */
  predicate IsRun(cs: seq<Chan>, steps: seq<Step>) {
    && |cs| == |steps| + 1 && Created(cs[0])
    && forall i :: 0 <= i < |steps| ==> Enabled(cs[i], steps[i]) && cs[i + 1] == After(cs[i], steps[i])
  }

  lemma {:induction false} RunHolds(cs: seq<Chan>, steps: seq<Step>, i: nat)
    requires IsRun(cs, steps) && i < |cs|
    ensures Inv(cs[i])
  {
    hide After, Inv, Enabled;
    if i == 0 {
      CreatedHolds(cs[0]);
    } else {
      RunHolds(cs, steps, i - 1);
      AfterHolds(cs[i - 1], steps[i - 1]);
    }
  }

  /**
   Every completion callback is made at most once in a run, only after it was asked for; and
   what was made stays on record.
   */
  lemma {:induction false} CallbacksAtMostOnce(cs: seq<Chan>, steps: seq<Step>, i: nat, j: nat)
    requires IsRun(cs, steps) && i <= j < |cs|
    ensures FiredOnce(cs[j].calls) && cs[i].calls.fired <= cs[j].calls.fired
    decreases j
  {
    hide After, Enabled, Inv, FiredOnce;
    RunHolds(cs, steps, j);
    InvFired(cs[j]);
    if i < j {
      CallbacksAtMostOnce(cs, steps, i, j - 1);
      RunHolds(cs, steps, j - 1);
      AfterFires(cs[j - 1], steps[j - 1]);
    }
  }

  lemma InvFired(c: Chan)
    requires Inv(c)
    ensures FiredOnce(c.calls)
  {
    hide FiredOnce, IoInv, DescInv, RefsInv;
  }

  /** From CLOSE on: no callback, no SSL context reference, no descriptor, and each was closed once. */
  lemma {:induction false} NothingAfterClose(cs: seq<Chan>, steps: seq<Step>, i: nat, j: nat)
    requires IsRun(cs, steps) && i <= j < |cs| && cs[i].desc.closed
    ensures cs[j].desc.closed && cs[j].calls.fired == cs[i].calls.fired
    ensures cs[j].ctxRefs == multiset{} && Unclosed(cs[j].desc.log) == multiset{} && ClosesOnce(cs[j].desc.log)
    decreases j
  {
    hide After, Enabled, Inv, Unclosed, ClosesOnce;
    RunHolds(cs, steps, j);
    if i < j {
      NothingAfterClose(cs, steps, i, j - 1);
      RunHolds(cs, steps, j - 1);
      InvClosed(cs[j - 1]);
      AfterFires(cs[j - 1], steps[j - 1]);
      AfterDeadEnd(cs[j - 1], steps[j - 1]);
    }
    ClosedHoldsNothing(cs[j]);
  }

  lemma ClosedHoldsNothing(c: Chan)
    requires Inv(c) && c.desc.closed
    ensures c.ctxRefs == multiset{} && Unclosed(c.desc.log) == multiset{} && ClosesOnce(c.desc.log)
  {
    hide CallsInv, IoInv, Unclosed, ClosesOnce;
  }

  /** One crypto state after another: errors stay, octets stay accepted and given, in order. */
  lemma {:induction false} CryptoModeKeeps(cs: seq<Chan>, steps: seq<Step>, i: nat, j: nat)
    requires IsRun(cs, steps) && i <= j < |cs|
    requires forall k :: i <= k <= j ==> cs[k].leaf.InCrypto()
    ensures Onward(cs[i].io, cs[j].io) && Sound(cs[j].io)
    decreases j
  {
    hide After, Enabled, Onward, Inv, Sound;
    RunHolds(cs, steps, j);
    InvSound(cs[j]);
    if i < j {
      CryptoModeKeeps(cs, steps, i, j - 1);
      RunHolds(cs, steps, j - 1);
      AfterCrypto(cs[j - 1], steps[j - 1]);
      OnwardComposes(cs[i].io, cs[j - 1].io, cs[j].io);
    } else {
      OnwardSelf(cs[i].io);
    }
  }

  lemma InvSound(c: Chan)
    requires Inv(c) && c.leaf.InCrypto()
    ensures Sound(c.io)
  {
    hide CallsInv, DescInv, RefsInv, LeafIo, Sound;
    RestIo(c);
  }

  /**
   A channel that was encrypted is plaintext again only after both close alerts had passed, ours
   after every octet accepted had been taken by SSL_write; and only through a RESUME_PLAINTEXT
   after a successful shutdown, or the end of a two-way shutdown of the legacy interface.
   */
  lemma {:induction false} PlaintextAfterBothAlerts(cs: seq<Chan>, steps: seq<Step>, i: nat, j: nat) returns (k: nat)
    requires IsRun(cs, steps) && i < j < |cs| && cs[i].leaf.InCrypto() && cs[j].leaf.PlainTcp?
    ensures i < k <= j && cs[k - 1].leaf.InCrypto() && cs[k].leaf.PlainTcp? && ClosedBothWays(cs[k].io)
    ensures Resumes(cs[k - 1], steps[k - 1])
    decreases j - i
  {
    hide After, Enabled, Onward, Inv, ClosedBothWays, Resumes;
    RunHolds(cs, steps, i);
    AfterCrypto(cs[i], steps[i]);
    if cs[i + 1].leaf.PlainTcp? {
      AfterResumes(cs[i], steps[i]);
      k := i + 1;
    } else if cs[i + 1].leaf.InCrypto() {
      k := PlaintextAfterBothAlerts(cs, steps, i + 1, j);
    } else {
      DeadEndStays(cs, steps, i + 1, j);
      assert false;
    }
  }

  lemma {:induction false} DeadEndStays(cs: seq<Chan>, steps: seq<Step>, i: nat, j: nat)
    requires IsRun(cs, steps) && i <= j < |cs| && DeadEnd(cs[i].leaf)
    ensures DeadEnd(cs[j].leaf)
    decreases j
  {
    hide After, Enabled, Inv;
    if i < j {
      DeadEndStays(cs, steps, i, j - 1);
      RunHolds(cs, steps, j - 1);
      AfterDeadEnd(cs[j - 1], steps[j - 1]);
    }
  }

  /**
   Within one visit, whatever happens in it, the shutdown never goes back and no octet of a WRITE
   is accepted.
   */
  lemma {:induction false} ShutdownGoesForward(cs: seq<Chan>, steps: seq<Step>, i: nat, j: nat)
    requires IsRun(cs, steps) && i <= j < |cs|
    requires forall k :: i <= k <= j ==> cs[k].leaf.CryptoShut?
    ensures ShutForward(cs[i], cs[j])
    ensures cs[j].shutHow == cs[i].shutHow ==> Rank(cs[i].shutPhase) <= Rank(cs[j].shutPhase)
    ensures cs[i].shutHow.TwoWay? ==> cs[j].shutHow.TwoWay?
    decreases j
  {
    hide After, Enabled, Onward, Inv, ShutForward, Rank;
    if i < j {
      ShutdownGoesForward(cs, steps, i, j - 1);
      RunHolds(cs, steps, j - 1);
      AfterShut(cs[j - 1], steps[j - 1]);
      ShutForwardComposes(cs[i], cs[j - 1], cs[j]);
    } else {
      ForwardSelf(cs[i]);
    }
    ForwardTells(cs[i], cs[j]);
  }

  lemma ForwardSelf(c: Chan)
    ensures ShutForward(c, c)
  {
  }

  lemma ForwardTells(c: Chan, d: Chan)
    requires ShutForward(c, d)
    ensures d.shutHow == c.shutHow ==> Rank(c.shutPhase) <= Rank(d.shutPhase)
    ensures c.shutHow.TwoWay? ==> d.shutHow.TwoWay?
  {
  }

  /** In CRYPTO_SSL at rest the two directions do not wait crosswise and exactly what they wait for is watched. */
  lemma EstablishedWatchesExactly(cs: seq<Chan>, steps: seq<Step>, i: nat)
    requires IsRun(cs, steps) && i < |cs| && cs[i].leaf.CryptoSsl?
    ensures NoCrossedWaits(cs[i].io) && WatchExact(cs[i].io) && !cs[i].io.timer && BeforeClose(cs[i].io.ssl.log).None?
  {
    hide After, Enabled, CallsInv, DescInv, RefsInv, Sound;
    RunHolds(cs, steps, i);
  }

  /** In every crypto state at rest the component is right about what is registered. */
  lemma CryptoWatchCoherent(cs: seq<Chan>, steps: seq<Step>, i: nat)
    requires IsRun(cs, steps) && i < |cs| && cs[i].leaf.InCrypto()
    ensures WatchCoherent(cs[i].io)
  {
    hide After, Enabled, CallsInv, DescInv, RefsInv, Sound;
    RunHolds(cs, steps, i);
  }

  // ---------------------------------------------------------------------------------------
  // The conservation laws at every point of every run
  // ---------------------------------------------------------------------------------------

  /**
   What was accepted is what SSL_write took followed by the buffer; what was given, with the held
   octet, is what SSL_read produced.  Waiting output has a buffer and idle output none, waiting
   input holds nothing.  Every retry was exact, and no shutdown was called over a retry.
   */
  lemma OctetsConserved(cs: seq<Chan>, steps: seq<Step>, i: nat)
    requires IsRun(cs, steps) && i < |cs| && cs[i].leaf.InCrypto()
    ensures var s := cs[i].io;
            && s.accepted == Taken(s.ssl.log) + s.outBuf && s.given + s.Held() == Produced(s.ssl.log)
            && (Pending(s.outState) ==> s.outBuf != []) && (s.outState.Idle? ==> s.outBuf == [])
            && (Pending(s.inState) ==> !s.held)
            && RetriesExact(s.ssl.log) && ShutdownsClean(s.ssl.log)
            && (BeforeClose(s.ssl.log).Some? ==> s.accepted == Taken(BeforeClose(s.ssl.log).value))
  {
    hide After, Enabled, Inv, Taken, Produced, RetriesExact, ShutdownsClean, BeforeClose;
    RunHolds(cs, steps, i);
    InvSound(cs[i]);
  }

  /** The SSL context references held are one for an active crypto attempt and one for the SSL object. */
  lemma ReferencesConserved(cs: seq<Chan>, steps: seq<Step>, i: nat)
    requires IsRun(cs, steps) && i < |cs|
    ensures cs[i].ctxRefs == LeafRefs(cs[i]) + SslRefs(cs[i])
  {
    hide After, Enabled, Inv, LeafRefs, SslRefs;
    RunHolds(cs, steps, i);
    InvRefs(cs[i]);
  }

  lemma InvRefs(c: Chan)
    requires Inv(c)
    ensures c.ctxRefs == LeafRefs(c) + SslRefs(c)
  {
    hide CallsInv, DescInv, IoInv, LeafRefs, SslRefs;
    assert LeafRefs(c) + SslRefs(c) + multiset{} == LeafRefs(c) + SslRefs(c);
  }

  /**
   What the machine owns and has not closed is its descriptor; connected states have one; an
   adopted descriptor and a server address exclude each other.
   */
  lemma DescriptorsConserved(cs: seq<Chan>, steps: seq<Step>, i: nat)
    requires IsRun(cs, steps) && i < |cs|
    ensures Unclosed(cs[i].desc.log) == Owned(cs[i].desc) && ClosesOnce(cs[i].desc.log)
    ensures NeedsFd(cs[i].leaf) ==> cs[i].desc.fd >= 0
    ensures !(cs[i].desc.fdIsUserProvided && cs[i].desc.serverSet)
  {
    hide After, Enabled, CallsInv, IoInv, RefsInv, Unclosed, ClosesOnce;
    RunHolds(cs, steps, i);
  }

  /** While renegotiating the input never waits. */
  lemma RenegotiatingInputNeverWaits(cs: seq<Chan>, steps: seq<Step>, i: nat)
    requires IsRun(cs, steps) && i < |cs| && cs[i].leaf.CryptoReneg?
    ensures !Pending(cs[i].io.inState)
  {
    hide After, Enabled, CallsInv, DescInv, RefsInv, Sound;
    RunHolds(cs, steps, i);
  }

  /** A callback made after FD_WATCH reports success exactly when the machine is not in a failed state by then. */
  lemma CallbackTellsTruth(cs: seq<Chan>, steps: seq<Step>, i: nat)
    requires IsRun(cs, steps) && i < |steps| && steps[i].WatchReady?
    requires |cs[i].calls.fired| < |cs[i + 1].calls.fired|
    ensures var k := cs[i + 1].calls; k.fired[|k.fired| - 1].err.NoError? <==> !FailedState(cs[i + 1].leaf)
  {
    hide After, Enabled, Inv, FailedState;
    RunHolds(cs, steps, i);
    WatchTellsTruth(cs[i], steps[i].revents, steps[i].env);
  }

  lemma WatchTellsTruth(c: Chan, revents: Option<GioCond>, env: Env)
    requires Inv(c) && Enabled(c, WatchReady(revents, env))
    ensures var d := After(c, WatchReady(revents, env));
            |c.calls.fired| < |d.calls.fired| ==>
              (d.calls.fired[|d.calls.fired| - 1].err.NoError? <==> !FailedState(d.leaf))
  {
    hide Handled, Moved, Inv, Rests, Proper, WasFired;
    var e := EvFdWatch(revents);
    var c1 := c.(calls := c.calls.(inFdWatchCb := true));
    StepIsProper(c, WatchReady(revents, env), c1, e, env);
    WatchedNotFailed(c, revents);
    HandledIsTruthful(c1, revents, env);
    HandledFrames(c1, e, env);
    var h := Handled(c1, e, env).c;
    if h.request.NoRequest? {
      NotMoved(h, env);
    } else {
      MovedCalls(h, env);
    }
  }
}
