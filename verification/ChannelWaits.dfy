/**
 Over whole runs: in every crypto state a direction waits for what the library asked for, the
 watch of CRYPTO_SSL waits for exactly that, and an FD_WATCH retries what its flags allow.
 */
module ChannelWaits {
  import opened Common
  import opened SslOracle
  import opened DeferredIo
  import opened DeferredIoProofs
  import opened CryptoEventProofs
  import opened CryptoControlProofs
  import opened CryptoRest
  import opened DeferredIoEffects
  import opened ChannelState
  import opened ChannelInvariant
  import opened ChannelProofs
  import opened ChannelTransitions
  import opened ChannelFrames
  import opened ChannelSteps
  import opened ChannelForward
  import opened ChannelRuns
  import opened ChannelRenegotiation

  // ---------------------------------------------------------------------------------------
  // The handlers
  // ---------------------------------------------------------------------------------------

  lemma IdleTold(s: Io)
    requires s.inState.Idle? && s.outState.Idle?
    ensures Told(s)
  {
  }

  lemma ConnRoundTold(c: Chan, before: PslError)
    requires Told(c.io)
    ensures Told(ConnRound(c, before).c.io)
  {
    hide DoHandshake, Told;
    DoHandshakeIsControl(c.io);
    ControlTold(c.io, DoHandshake(c.io).io, 0);
  }

  lemma ConnTold(c: Chan, e: Event, env: Env)
    requires Told(c.io) && (!c.started ==> c.io.inState.Idle? && c.io.outState.Idle?)
    ensures Told(OnCryptoConn(c, e, env).c.io)
  {
    hide ConnRound, Told;
    if e.EvFdWatch? {
      if c.started {
        ConnRoundTold(c, NoError);
      } else {
        var (d, err) := ConnSetup(c, env.setup);
        IdleTold(d.io);
        ConnRoundTold(d, err);
      }
    }
  }

  lemma SslTold(c: Chan, e: Event)
    requires Sound(c.io) && NoCloseYet(c.io) && Told(c.io)
    ensures Told(OnCryptoSsl(c, e).c.io)
  {
    hide Sound, HandleRead, HandleWrite, ProcessDeferred, Told;
    match e
    case EvFdWatch(revents) => DeferredTold(c.io, Unknown, Indicated(revents));
    case EvRead(cnt) => ReadTold(c.io, cnt);
    case EvWrite(data) => WriteTold(c.io, data);
    case _ =>
  }

  lemma RenegotiateTold(s: Io, r: Reneg)
    requires Sound(s) && !r.err.IsDeferral() && Told(s)
    ensures Told(DoRenegotiate(s, r).0)
  {
    hide DoRenegotiate, Told;
    DoRenegotiateIsSound(s, r);
    ControlTold(s, DoRenegotiate(s, r).0, if MayStart(s, r) then 1 else 0);
  }

  lemma RenegWatchTold(c: Chan, revents: Option<GioCond>)
    requires RenegRest(c.io, c.reneg) && Told(c.io)
    ensures Told(OnCryptoReneg(c, EvFdWatch(revents)).c.io)
  {
    hide Sound, ProcessDeferred, DoRenegotiate, RenegRound, RenegRest, Told;
    RenegRestTells(c.io, c.reneg);
    if revents.Some? && c.reneg.phase.RenegFlushOut? {
      var d := c.(io := ProcessDeferred(c.io, Unknown, revents.value));
      DeferredTold(c.io, Unknown, revents.value);
      RenegFlushes(c.io, c.reneg, revents.value);
      RenegotiateTold(d.io, c.reneg);
      RenegRoundIo(d);
    } else {
      RenegotiateTold(c.io, c.reneg);
      RenegRoundIo(c);
    }
  }

  lemma RenegReadTold(c: Chan, cnt: nat)
    requires RenegRest(c.io, c.reneg) && Told(c.io)
    ensures Told(RenegRead(c, cnt).c.io)
  {
    hide Sound, DoRenegotiate, HandleRead, RenegRest, Told, BytesReady;
    RenegRestTells(c.io, c.reneg);
    var n := if BytesReady(c.io) < cnt then BytesReady(c.io) else cnt;
    var o := HandleRead(c.io, n);
    ReadTold(c.io, n);
    RenegReads(c.io, c.reneg, n);
    RenegotiateTold(o.io, c.reneg);
    var t := DoRenegotiate(o.io, c.reneg).0;
    WatchTold(t, t.(timer := true));
  }

  lemma RenegTold(c: Chan, e: Event)
    requires RenegRest(c.io, c.reneg) && Told(c.io)
    ensures Told(OnCryptoReneg(c, e).c.io)
  {
    hide ProcessDeferred, RenegRead, RenegRound, RenegRest, Told;
    match e
    case EvFdWatch(revents) => RenegWatchTold(c, revents);
    case EvRead(cnt) => RenegReadTold(c, cnt);
    case _ =>
  }

  lemma ShutDoneTold(c: Chan)
    requires Sound(c.io) && Told(c.io)
    ensures Told(ShutDone(c).c.io)
  {
    hide Sound, ProcessDeferred, Told;
    ResetIsOnward(c.io);
    WatchTold(c.io, ResetWatch(c.io));
    DeferredTold(ResetWatch(c.io), Unknown, {});
  }

  lemma ShutRoundTold(c: Chan)
    requires ShutInFlight(c) && Told(c.io)
    ensures Told(ShutRound(c).c.io)
  {
    hide Sound, DoShutdown, ShutDone, ShutRest, NothingWatched, DescInv, CallsInv, RefsInv, Rank, PhaseTells,
      Onward, Told;
    if !c.io.outState.Failed? {
      var r := DoShutdown(c.io, c.shutHow, c.shutPhase);
      ShutCloses(c.io, c.shutHow, c.shutPhase);
      ShutdownTold(c.io, c.shutHow, c.shutPhase);
      ShutDoneTold(c.(io := r.io, shutPhase := r.phase));
    }
  }

  lemma ShutFlushTold(c: Chan, revents: GioCond)
    requires Rests(c, true) && c.leaf.CryptoShut? && (c.shutPhase.ShutInit? || c.shutPhase.ShutFlushOut?) && Told(c.io)
    ensures Told(ShutFlush(c, revents).c.io)
  {
    hide Holds, Sound, ProcessDeferred, ShutRound, ShutInFlight, Told;
    FlushStarts(c);
    var s := if c.shutPhase.ShutInit? then ResetWatch(c.io) else c.io;
    WatchTold(c.io, s);
    DeferredTold(s, Unknown, revents);
    var io := ProcessDeferred(s, Unknown, revents);
    if !Pending(io.outState) {
      FlushedMayShutNow(c, revents);
      WatchTold(io, ResetWatch(io));
      ShutRoundTold(c.(io := ResetWatch(io), shutPhase := Shut1));
    }
  }

  lemma ShutWatchTold(c: Chan, revents: GioCond)
    requires Rests(c, true) && c.leaf.CryptoShut? && Told(c.io)
    ensures Told(ShutWatch(c, revents).c.io)
  {
    hide Holds, Sound, ProcessDeferred, ShutRound, ShutFlush, ShutInFlight, Told;
    FlushStarts(c);
    if c.shutPhase.ShutInit? || c.shutPhase.ShutFlushOut? {
      ShutFlushTold(c, revents);
    } else if c.shutPhase.Shut1? || c.shutPhase.Shut2? {
      ShutMayGoOn(c);
      ShutRoundTold(c);
    } else if c.shutPhase.ShutSuccess? {
      DeferredTold(c.io, Unknown, revents);
    }
  }

  lemma ShutTold(c: Chan, e: Event)
    requires Rests(c, e.EvFdWatch?) && c.leaf.CryptoShut? && Told(c.io)
    ensures Told(OnCryptoShut(c, e).c.io)
  {
    hide Holds, Sound, ShutWatch, HandleRead, Told;
    ShutIsSound(c, e.EvFdWatch?);
    match e
    case EvFdWatch(revents) => ShutWatchTold(c, Indicated(revents));
    case EvRead(cnt) => ReadTold(c.io, cnt);
    case _ =>
  }

  lemma ConnIsIdle(c: Chan, pending: bool)
    requires Rests(c, pending) && c.leaf.CryptoConn?
    ensures c.io.inState.Idle? && c.io.outState.Idle?
  {
    hide DescInv, CallsInv, RefsInv, Sound;
  }

  lemma LeafTold(c: Chan, e: Event, env: Env)
    requires Rests(c, e.EvFdWatch?) && c.leaf.InCrypto() && Told(c.io)
    ensures Told(OnLeaf(c, e, env).c.io)
  {
    hide OnCryptoConn, OnCryptoSsl, OnCryptoReneg, OnCryptoShut, Holds, Sound, RenegRest, Told;
    ShutIsSound(c, e.EvFdWatch?);
    match c.leaf
    case CryptoConn =>
      ConnIsIdle(c, e.EvFdWatch?);
      ConnTold(c, e, env);
    case CryptoSsl => SslTold(c, e);
    case CryptoReneg => RenegTold(c, e);
    case CryptoShut => ShutTold(c, e);
    case _ =>
  }

  lemma HandledTold(c: Chan, e: Event, env: Env)
    requires Rests(c, e.EvFdWatch?) && c.leaf.InCrypto() && Told(c.io)
    ensures Told(Handled(c, e, env).c.io)
  {
    hide Handled, OnLeaf, GoTo, Holds, Told;
    LeafTold(c, e, env);
    HandledOneOf(c, e, env);
    GoToRequests(c);
  }

  lemma MovedTold(c: Chan, env: Env)
    requires IoAllows(c) && c.leaf.InCrypto() && !c.request.NoRequest? && c.request.Target().InCrypto() && Told(c.io)
    requires !c.request.ToCryptoConn?
    ensures Told(Moved(c, env).io)
  {
    hide Passage, Arrived, Sound, NothingWatched, Onward, NoCloseYet, ProcessDeferred, Told;
    var d := Passage(c, c.request.Target());
    PassageDoes(c, c.request.Target());
    PassageIo(c, c.request.Target());
    ArrivedIoIs(d, c.request, env);
    WatchTold(c.io, d.io);
    if c.request.ToCryptoSsl? {
      ResetIsOnward(d.io);
      WatchTold(d.io, ResetWatch(d.io));
      DeferredTold(ResetWatch(d.io), Unknown, {});
    } else {
      WatchTold(d.io, Arrived(d, c.request, env).io);
    }
  }

  /** After an event that leaves the machine in the crypto mode what waits still waits for what it was told. */
  lemma DispatchedTold(c: Chan, e: Event, env: Env)
    requires Rests(c, e.EvFdWatch?) && Proper(c, e, env, e.EvFdWatch?) && c.leaf.InCrypto() && Told(c.io)
    requires Dispatched(c, e, env).c.leaf.InCrypto()
    ensures Told(Dispatched(c, e, env).c.io)
  {
    hide Handled, Moved, Told, DescInv, CallsInv, LeafIo, IoAllows, WasFired;
    var d := Handled(c, e, env).c;
    HandledHolds(c, e, env, e.EvFdWatch?);
    HandledFrames(c, e, env);
    HandledTold(c, e, env);
    if d.request.NoRequest? {
      NotMoved(d, env);
    } else {
      MovedCalls(d, env);
      MovedTold(d, env);
    }
  }

  lemma AfterTold(c: Chan, step: Step)
    requires Inv(c) && Enabled(c, step) && After(c, step).leaf.InCrypto() && (c.leaf.InCrypto() ==> Told(c.io))
    ensures Told(After(c, step).io)
  {
    hide Dispatched, Holds, After, Enabled, Told, WasFired;
    match step
    case UserCall(e, env) => AfterToldBy(c, step, Noted(c, CbOf(e)), e, env);
    case WatchReady(revents, env) =>
      AfterToldBy(c, step, c.(calls := c.calls.(inFdWatchCb := true)), EvFdWatch(revents), env);
    case LookupEnds(result, env) => AfterToldBy(c, step, c, EvLookupDone(result), env);
    case WatchReturns => AfterReturn(c);
    case Finalizes(env) => FinalizesFromClosed(c, env);
  }

  lemma AfterToldBy(c: Chan, step: Step, c1: Chan, e: Event, env: Env)
    requires Inv(c) && Enabled(c, step) && Dispatches(c, step, c1, e, env)
    requires After(c, step).leaf.InCrypto() && (c.leaf.InCrypto() ==> Told(c.io))
    ensures Told(After(c, step).io)
  {
    hide Dispatched, Holds, After, Enabled, Dispatches, Told, WasFired;
    StepDispatches(c, step, c1, e, env);
    if c.leaf.InCrypto() {
      DispatchedTold(c1, e, env);
    } else {
      AfterHolds(c, step);
      DispatchedEnters(c1, e, env);
      ConnIsIdle(After(c, step), false);
      IdleTold(After(c, step).io);
    }
  }

  /** In every crypto state of every run what waits waits for what the library asked for. */
  lemma {:induction false} WaitsAsTold(cs: seq<Chan>, steps: seq<Step>, i: nat)
    requires IsRun(cs, steps) && i < |cs| && cs[i].leaf.InCrypto()
    ensures Told(cs[i].io)
  {
    hide After, Enabled, Inv, Told, Created;
    if i == 0 {
      NewIsPlain(cs[0]);
    } else {
      RunHolds(cs, steps, i - 1);
      assert cs[i - 1 + 1] == After(cs[i - 1], steps[i - 1]);
      if cs[i - 1].leaf.InCrypto() {
        WaitsAsTold(cs, steps, i - 1);
      }
      AfterTold(cs[i - 1], steps[i - 1]);
    }
  }

  lemma NewIsPlain(c: Chan)
    requires Created(c)
    ensures !c.leaf.InCrypto()
  {
  }

  /**
   In CRYPTO_SSL at rest a direction that waits has the watch wait for the socket condition that
   its last call asked for, or as the optimistic switch and the shared wait have it; and the
   watch waits for nothing else.
   */
  lemma EstablishedWaitsAsTold(cs: seq<Chan>, steps: seq<Step>, i: nat)
    requires IsRun(cs, steps) && i < |cs| && cs[i].leaf.CryptoSsl?
    ensures var s := cs[i].io;
            && (Pending(s.outState) && LastWrite(s.ssl.log) == Some(SslWantWrite) ==> IoOut in s.registered)
            && (Pending(s.outState) && LastWrite(s.ssl.log) == Some(SslWantRead) ==>
                  IoIn in s.registered || (IoOut in s.registered && ReadSinceWrite(s.ssl.log)))
            && (Pending(s.inState) && LastRead(s.ssl.log) == Some(SslWantWrite) && !s.outState.WaitRead? ==>
                  IoOut in s.registered)
            && (Pending(s.inState) && LastRead(s.ssl.log) == Some(SslWantRead) ==> IoIn in s.registered)
            && (s.registered != {} ==> Pending(s.inState) || Pending(s.outState)) && s.registered <= {IoIn, IoOut}
  {
    hide After, Enabled, Inv, Sound;
    WaitsAsTold(cs, steps, i);
    EstablishedWatchesExactly(cs, steps, i);
    ExactFlags(cs[i].io);
  }

  // ---------------------------------------------------------------------------------------
  // Retries at the steps of a run
  // ---------------------------------------------------------------------------------------

  /** What an FD_WATCH in CRYPTO_SSL does to a machine. */
  lemma WatchProcesses(c: Chan, revents: GioCond, env: Env)
    requires Inv(c) && Enabled(c, WatchReady(Some(revents), env)) && c.leaf.CryptoSsl?
    ensures After(c, WatchReady(Some(revents), env)).io == ProcessDeferred(c.io, Unknown, revents)
    ensures After(c, WatchReady(Some(revents), env)).leaf.CryptoSsl?
  {
    hide Dispatched, Holds, ProcessDeferred, WatchCalled, WasFired;
    WatchChangesCalls(c, Some(revents), env);
    SslWatchHandled(c.(calls := c.calls.(inFdWatchCb := true)), revents, env);
  }

  lemma SslWatchHandled(c: Chan, revents: GioCond, env: Env)
    requires c.leaf.CryptoSsl? && c.request.NoRequest?
    ensures var d := Dispatched(c, EvFdWatch(Some(revents)), env).c;
            d.io == ProcessDeferred(c.io, Unknown, revents) && d.leaf == c.leaf
  {
    hide ProcessDeferred, Moved;
    NotMoved(Handled(c, EvFdWatch(Some(revents)), env).c, env);
  }

  /**
   At every step of a run: when an FD_WATCH reports CRYPTO_SSL's socket writable while output
   waits, the first thing done is SSL_write of exactly what waits; when it reports it readable
   while input waits and the output does not wait to read, SSL_read is called.
   */
  lemma RetriedWhenReady(cs: seq<Chan>, steps: seq<Step>, i: nat)
    requires IsRun(cs, steps) && i < |steps| && cs[i].leaf.CryptoSsl?
    requires steps[i].WatchReady? && steps[i].revents.Some?
    ensures var s, t, revents := cs[i].io, cs[i + 1].io, steps[i].revents.value;
            var first := FirstSince(s.ssl.log, t.ssl.log);
            && (Pending(s.outState) && (IoOut in revents || IoHup in revents || IoNval in revents) ==>
                  && first.Some? && first.value.WriteCall? && first.value.data == s.outBuf
                  && (first.value.taken == |s.outBuf| ==> t.outBuf == []))
            && (Pending(s.inState) && !Pending(s.outState)
                && (IoIn in revents || IoHup in revents || IoNval in revents) ==>
                  ReadCalls(t.ssl.log) == ReadCalls(s.ssl.log) + 1)
            && (Pending(s.inState) && s.ssl.pending > 0 ==> ReadCalls(t.ssl.log) == ReadCalls(s.ssl.log) + 1)
  {
    hide After, Enabled, Inv, Sound, ProcessDeferred;
    RunHolds(cs, steps, i);
    InvSound(cs[i]);
    WatchProcesses(cs[i], steps[i].revents.value, steps[i].env);
    if Pending(cs[i].io.outState) {
      RetriesOutput(cs[i].io, steps[i].revents.value);
    }
    if Pending(cs[i].io.inState) {
      RetriesInput(cs[i].io, steps[i].revents.value);
    }
  }

  // ---------------------------------------------------------------------------------------
  // The flush before the close
  // ---------------------------------------------------------------------------------------

  lemma ShutRoundExtends(c: Chan)
    requires ShutInFlight(c)
    ensures Extends(c.io.ssl.log, ShutRound(c).c.io.ssl.log)
  {
    hide Sound, DoShutdown, ProcessDeferred, ShutRest, NothingWatched, DescInv, CallsInv, RefsInv, Rank,
      PhaseTells, Onward;
    if !c.io.outState.Failed? {
      var r := DoShutdown(c.io, c.shutHow, c.shutPhase);
      ShutCloses(c.io, c.shutHow, c.shutPhase);
      ShutdownExtends(c.io, c.shutHow, c.shutPhase);
      ResetIsOnward(r.io);
      DeferredExtends(ResetWatch(r.io), Unknown, {});
      ExtendsOn(c.io.ssl.log, r.io.ssl.log, ProcessDeferred(ResetWatch(r.io), Unknown, {}).ssl.log);
    }
  }

  /** An FD_WATCH that reports a writable socket while the flush waits begins with SSL_write of exactly what waits. */
  lemma FlushRetries(c: Chan, revents: GioCond)
    requires Rests(c, true) && c.leaf.CryptoShut? && c.shutPhase.ShutFlushOut? && Pending(c.io.outState)
    requires IoOut in revents || IoHup in revents || IoNval in revents
    ensures var first := FirstSince(c.io.ssl.log, ShutFlush(c, revents).c.io.ssl.log);
            first.Some? && first.value.WriteCall? && first.value.data == c.io.outBuf
  {
    hide Holds, Sound, ProcessDeferred, ShutRound, ShutInFlight;
    FlushStarts(c);
    RetriesOutput(c.io, revents);
    var io := ProcessDeferred(c.io, Unknown, revents);
    DeferredExtends(c.io, Unknown, revents);
    if !Pending(io.outState) {
      FlushedMayShutNow(c, revents);
      var d := c.(io := ResetWatch(io), shutPhase := Shut1);
      ShutRoundExtends(d);
      ExtendsOn(c.io.ssl.log, io.ssl.log, ShutRound(d).c.io.ssl.log);
    }
  }
}
