/**
 SSL_renegotiate and unfinished writes over whole runs.  The machine starts a renegotiation when
 its output does not wait; the library wants more, namely that no write of its own is waiting to
 be retried.  The two differ exactly after the descriptor broke under a write.
 */
module ChannelRenegotiation {
  import opened Common
  import opened SslOracle
  import opened DeferredIo
  import opened DeferredIoProofs
  import opened CryptoEventProofs
  import opened CryptoControlProofs
  import opened CryptoRest
  import opened DeferredIoEffects
  import opened ChannelState
  import opened ChannelInvariant
  import opened ChannelProofs
  import opened ChannelTransitions
  import opened ChannelFrames
  import opened ChannelSteps
  import opened ChannelForward
  import opened ChannelRuns

  // ---------------------------------------------------------------------------------------
  // The two kinds of steps that matter
  // ---------------------------------------------------------------------------------------

  /** An FD_WATCH in this state retries what waits. */
  predicate Processes(c: Chan) {
    || c.leaf.CryptoSsl?
    || (c.leaf.CryptoReneg? && c.reneg.phase.RenegFlushOut?)
    || (c.leaf.CryptoShut? && (c.shutPhase.ShutFlushOut? || c.shutPhase.ShutSuccess?))
  }

  /** An FD_WATCH reports a broken descriptor, and the output still waits after its retry. */
  predicate BreaksBy(c: Chan, e: Event) {
    && e.EvFdWatch? && Broken(Indicated(e.revents)) && Processes(c)
    && Pending(Settle(c.io, Unknown, Indicated(e.revents)).outState)
  }

  /** The output of a renegotiation does not wait (any more): its flush phase is over. */
  predicate StartsBy(c: Chan, e: Event) {
    && c.leaf.CryptoReneg? && (c.reneg.phase.RenegInit? || c.reneg.phase.RenegFlushOut?)
    && match e
       case EvFdWatch(revents) =>
         !Pending((if revents.Some? && c.reneg.phase.RenegFlushOut? then ProcessDeferred(c.io, Unknown, revents.value)
                   else c.io).outState)
       case EvRead(cnt) => (BytesReady(c.io) > 0 || cnt == 0) && !Pending(c.io.outState)
       case _ => false
  }

  /**
   From `s` to `t` SSL_renegotiate is called once or not at all, over an unfinished write exactly
   when the output is stuck by then.
   */
  predicate Tracked(s: Io, t: Io, breaks: bool, starts: bool) {
    && (Stuck(t) <==> Stuck(s) || breaks)
    && RenegotiateCalls(t.ssl.log) == RenegotiateCalls(s.ssl.log) + (if starts then 1 else 0)
    && (RenegotiatesClean(t.ssl.log) <==> RenegotiatesClean(s.ssl.log) && !(starts && (Stuck(s) || breaks)))
  }

  lemma NoRenegTracked(s: Io, t: Io, breaks: bool)
    requires NoReneg(s, t, breaks)
    ensures Tracked(s, t, breaks, false)
  {
  }

  lemma TrackedSelf(s: Io)
    ensures Tracked(s, s, false, false)
  {
  }

  /** First the output may get stuck, then a renegotiation may start, then neither. */
  lemma TrackedThen(a: Io, b: Io, c: Io, breaks: bool, starts: bool)
    requires NoReneg(a, b, breaks) && Tracked(b, c, false, starts)
    ensures Tracked(a, c, breaks, starts)
  {
    hide Stuck, RenegotiatesClean, RenegotiateCalls;
  }

  lemma TrackedOn(a: Io, b: Io, c: Io, breaks: bool, starts: bool)
    requires Tracked(a, b, breaks, starts) && NoReneg(b, c, false)
    ensures Tracked(a, c, breaks, starts)
  {
    hide Stuck, RenegotiatesClean, RenegotiateCalls;
  }

  // ---------------------------------------------------------------------------------------
  // The handlers
  // ---------------------------------------------------------------------------------------

  lemma ConnRoundTracked(c: Chan, before: PslError)
    ensures NoReneg(c.io, ConnRound(c, before).c.io, false)
  {
    hide DoHandshake, NoReneg;
    NoRenegSelf(c.io);
    DoHandshakeIsControl(c.io);
    ControlNoReneg(c.io, DoHandshake(c.io).io);
  }

  /** The connecting state has a new SSL object, or gets one. */
  lemma SetupTracked(c: Chan, setup: SetupAnswer)
    requires c.io.ssl.log == NoCalls && c.io.outState.Idle?
    ensures NoReneg(c.io, ConnSetup(c, setup).0.io, false)
  {
  }

  lemma ConnTracked(c: Chan, e: Event, env: Env)
    requires !c.started ==> c.io.ssl.log == NoCalls && c.io.outState.Idle?
    ensures NoReneg(c.io, OnCryptoConn(c, e, env).c.io, false)
  {
    hide ConnRound, ConnSetup, NoReneg;
    NoRenegSelf(c.io);
    if e.EvFdWatch? {
      if c.started {
        ConnRoundTracked(c, NoError);
      } else {
        var (d, err) := ConnSetup(c, env.setup);
        SetupTracked(c, env.setup);
        ConnRoundTracked(d, err);
        NoRenegComposes(c.io, d.io, ConnRound(d, err).c.io, false, false);
      }
    }
  }

  lemma SslTracked(c: Chan, e: Event)
    requires Sound(c.io) && NoCloseYet(c.io) && c.leaf.CryptoSsl?
    ensures NoReneg(c.io, OnCryptoSsl(c, e).c.io, BreaksBy(c, e))
  {
    hide Sound, HandleRead, HandleWrite, ProcessDeferred, Settle, NoReneg;
    NoRenegSelf(c.io);
    match e
    case EvFdWatch(revents) => DeferredNoReneg(c.io, Unknown, Indicated(revents));
    case EvRead(cnt) => ReadNoReneg(c.io, cnt);
    case EvWrite(data) => WriteNoReneg(c.io, data);
    case _ =>
  }

  lemma RenegotiateTracked(s: Io, r: Reneg)
    requires Sound(s) && !r.err.IsDeferral()
    ensures Tracked(s, DoRenegotiate(s, r).0, false, MayStart(s, r))
  {
    RenegotiateOverUnfinishedWrite(s, r);
  }

  lemma RenegRoundIo(c: Chan)
    ensures RenegRound(c).c.io == DoRenegotiate(c.io, c.reneg).0
  {
    hide DoRenegotiate;
  }

  lemma RenegWatchTracked(c: Chan, revents: Option<GioCond>)
    requires RenegRest(c.io, c.reneg) && c.leaf.CryptoReneg?
    ensures Tracked(c.io, OnCryptoReneg(c, EvFdWatch(revents)).c.io, revents.Some? && BreaksBy(c, EvFdWatch(revents)),
                    StartsBy(c, EvFdWatch(revents)))
  {
    hide Sound, ProcessDeferred, Settle, DoRenegotiate, RenegRound, NoReneg, Tracked, RenegRest;
    RenegRestTells(c.io, c.reneg);
    if revents.Some? && c.reneg.phase.RenegFlushOut? {
      var d := c.(io := ProcessDeferred(c.io, Unknown, revents.value));
      DeferredNoReneg(c.io, Unknown, revents.value);
      RenegFlushes(c.io, c.reneg, revents.value);
      RenegotiateTracked(d.io, c.reneg);
      RenegRoundIo(d);
      TrackedThen(c.io, d.io, DoRenegotiate(d.io, c.reneg).0, BreaksBy(c, EvFdWatch(revents)), MayStart(d.io, c.reneg));
    } else {
      RenegotiateTracked(c.io, c.reneg);
      RenegRoundIo(c);
    }
  }

  /** A read of `n` octets, none of them from the transport, before the renegotiation goes on. */
  lemma RenegReadsTracked(s: Io, r: Reneg, n: nat)
    requires RenegRest(s, r) && n <= BytesReady(s)
    ensures var t := HandleRead(s, n).io;
            Tracked(s, DoRenegotiate(t, r).0, false, MayStart(s, r))
  {
    hide Sound, HandleRead, DoRenegotiate, NoReneg, Tracked, RenegRest, BytesReady;
    RenegRestTells(s, r);
    var t := HandleRead(s, n).io;
    RenegReads(s, r, n);
    ReadNoReneg(s, n);
    RenegotiateTracked(t, r);
    TrackedThen(s, t, DoRenegotiate(t, r).0, false, MayStart(t, r));
  }

  lemma TimerTracked(s: Io, t: Io, starts: bool)
    requires Tracked(s, t, false, starts)
    ensures Tracked(s, t.(timer := true), false, starts)
  {
    OutputSameNoReneg(t, t.(timer := true));
    TrackedOn(s, t, t.(timer := true), false, starts);
  }

  lemma RenegReadTracked(c: Chan, cnt: nat)
    requires RenegRest(c.io, c.reneg) && c.leaf.CryptoReneg?
    ensures Tracked(c.io, RenegRead(c, cnt).c.io, false, StartsBy(c, EvRead(cnt)))
  {
    hide HandleRead, DoRenegotiate, Tracked, RenegRest, BytesReady, MayStart;
    var ready := BytesReady(c.io);
    if ready == 0 && cnt > 0 {
      TrackedSelf(c.io);
    } else {
      var n := if ready < cnt then ready else cnt;
      RenegReadsTracked(c.io, c.reneg, n);
      TimerTracked(c.io, DoRenegotiate(HandleRead(c.io, n).io, c.reneg).0, MayStart(c.io, c.reneg));
      ReadStarts(c, cnt);
    }
  }

  lemma ReadStarts(c: Chan, cnt: nat)
    requires c.leaf.CryptoReneg? && (BytesReady(c.io) > 0 || cnt == 0)
    ensures StartsBy(c, EvRead(cnt)) <==> MayStart(c.io, c.reneg)
  {
  }

  lemma RenegTracked(c: Chan, e: Event)
    requires RenegRest(c.io, c.reneg) && c.leaf.CryptoReneg?
    requires e.EvFdWatch? && Broken(Indicated(e.revents)) ==> e.revents.Some?
    ensures Tracked(c.io, OnCryptoReneg(c, e).c.io, BreaksBy(c, e), StartsBy(c, e))
  {
    hide Sound, ProcessDeferred, Settle, RenegRound, RenegRead, RenegRest, Tracked, NoReneg;
    NoRenegSelf(c.io);
    NoRenegTracked(c.io, c.io, false);
    match e
    case EvFdWatch(revents) => RenegWatchTracked(c, revents);
    case EvRead(cnt) => RenegReadTracked(c, cnt);
    case _ =>
  }

  lemma ShutDoneTracked(c: Chan)
    requires Sound(c.io)
    ensures NoReneg(c.io, ShutDone(c).c.io, false)
  {
    hide Sound, ProcessDeferred, NoReneg, Settle;
    NoRenegSelf(c.io);
    ResetIsOnward(c.io);
    var s := ResetWatch(c.io);
    OutputSameNoReneg(c.io, s);
    DeferredNoReneg(s, Unknown, {});
    NoRenegComposes(c.io, s, ProcessDeferred(s, Unknown, {}), false, false);
  }

  lemma ShutRoundTracked(c: Chan)
    requires ShutInFlight(c)
    ensures NoReneg(c.io, ShutRound(c).c.io, false)
  {
    hide Sound, DoShutdown, ShutDone, ShutRest, NoReneg, NothingWatched, DescInv, CallsInv, RefsInv, Rank, PhaseTells,
      Onward;
    NoRenegSelf(c.io);
    if !c.io.outState.Failed? {
      var r := DoShutdown(c.io, c.shutHow, c.shutPhase);
      ShutCloses(c.io, c.shutHow, c.shutPhase);
      DoShutdownNoReneg(c.io, c.shutHow, c.shutPhase);
      var d := c.(io := r.io, shutPhase := r.phase);
      if r.err.NoError? && r.phase.ShutSuccess? {
        ShutDoneTracked(d);
        NoRenegComposes(c.io, d.io, ShutDone(d).c.io, false, false);
      }
    }
  }

  lemma ShutFlushTracked(c: Chan, revents: GioCond)
    requires Rests(c, true) && c.leaf.CryptoShut? && (c.shutPhase.ShutInit? || c.shutPhase.ShutFlushOut?)
    requires c.shutPhase.ShutInit? ==> revents == {}
    ensures NoReneg(c.io, ShutFlush(c, revents).c.io,
                    Broken(revents) && Pending(Settle(c.io, Unknown, revents).outState))
  {
    hide Holds, Sound, ProcessDeferred, Settle, ShutRest, ShutRound, NoReneg, ResetWatch, Onward, InFlight,
      ShutInFlight;
    RestInFlight(c, true);
    var s := if c.shutPhase.ShutInit? then ResetWatch(c.io) else c.io;
    FlushStarts(c);
    var io := ProcessDeferred(s, Unknown, revents);
    DeferredNoReneg(s, Unknown, revents);
    NoRenegComposes(c.io, s, io, false, Broken(revents) && Pending(Settle(s, Unknown, revents).outState));
    if !Pending(io.outState) {
      FlushedMayShutNow(c, revents);
      var d := c.(io := ResetWatch(io), shutPhase := Shut1);
      ResetSameOutput(io);
      OutputSameNoReneg(io, d.io);
      ShutRoundTracked(d);
      NoRenegComposes(c.io, io, d.io, Broken(revents) && Pending(Settle(s, Unknown, revents).outState), false);
      NoRenegComposes(c.io, d.io, ShutRound(d).c.io,
                      Broken(revents) && Pending(Settle(s, Unknown, revents).outState), false);
    }
  }

  lemma FlushStarts(c: Chan)
    requires Rests(c, true) && c.leaf.CryptoShut?
    ensures Sound(c.io) && Sound(ResetWatch(c.io))
    ensures NoReneg(c.io, c.io, false) && NoReneg(c.io, ResetWatch(c.io), false)
  {
    hide DescInv, CallsInv, RefsInv, Sound;
    RestIo(c);
    ResetIsOnward(c.io);
    OutputSameNoReneg(c.io, c.io);
    OutputSameNoReneg(c.io, ResetWatch(c.io));
  }

  lemma ResetSameOutput(s: Io)
    ensures ResetWatch(s).ssl == s.ssl && ResetWatch(s).outState == s.outState
  {
  }

  lemma FlushedMayShutNow(c: Chan, revents: GioCond)
    requires Rests(c, true) && c.leaf.CryptoShut? && (c.shutPhase.ShutInit? || c.shutPhase.ShutFlushOut?)
    ensures var io := ProcessDeferred(if c.shutPhase.ShutInit? then ResetWatch(c.io) else c.io, Unknown, revents);
            !Pending(io.outState) ==> ShutInFlight(c.(io := ResetWatch(io), shutPhase := Shut1))
  {
    hide DescInv, CallsInv, Sound, ProcessDeferred, ShutRest;
    RestInFlight(c, true);
    ShutFlushes(c.io, c.shutHow, c.shutPhase, revents);
    var io := ProcessDeferred(if c.shutPhase.ShutInit? then ResetWatch(c.io) else c.io, Unknown, revents);
    ShutRestInput(io, c.shutHow, ShutFlushOut);
    if !Pending(io.outState) {
      var d := c.(io := ResetWatch(io), shutPhase := Shut1);
      assert LeafRefs(d) == LeafRefs(c) && SslRefs(d) == SslRefs(c);
    }
  }

  /** Nothing is registered before the first round. */
  lemma ShutInitIsKicked(c: Chan, revents: Option<GioCond>)
    requires Rests(c, true) && c.leaf.CryptoShut? && c.shutPhase.ShutInit? && WatchFires(c.io, revents)
    ensures revents.None?
  {
    hide DescInv, CallsInv, RefsInv, Sound;
  }

  lemma ShutWatchTracked(c: Chan, revents: Option<GioCond>)
    requires Rests(c, true) && c.leaf.CryptoShut? && WatchFires(c.io, revents)
    ensures NoReneg(c.io, ShutWatch(c, Indicated(revents)).c.io, BreaksBy(c, EvFdWatch(revents)))
  {
    hide Holds, Sound, ProcessDeferred, Settle, ShutRest, ShutRound, ShutFlush, NoReneg, InFlight, ShutInFlight,
      WatchFires;
    FlushStarts(c);
    if c.shutPhase.ShutInit? || c.shutPhase.ShutFlushOut? {
      if c.shutPhase.ShutInit? {
        ShutInitIsKicked(c, revents);
      }
      ShutFlushTracked(c, Indicated(revents));
    } else if c.shutPhase.Shut1? || c.shutPhase.Shut2? {
      ShutMayGoOn(c);
      ShutRoundTracked(c);
    } else if c.shutPhase.ShutSuccess? {
      DeferredNoReneg(c.io, Unknown, Indicated(revents));
    }
  }

  lemma ShutMayGoOn(c: Chan)
    requires Rests(c, true) && c.leaf.CryptoShut? && (c.shutPhase.Shut1? || c.shutPhase.Shut2?)
    ensures ShutInFlight(c)
  {
    hide DescInv, CallsInv, Sound, NothingWatched;
    RestInFlight(c, true);
  }

  lemma ShutTracked(c: Chan, e: Event)
    requires Rests(c, e.EvFdWatch?) && c.leaf.CryptoShut? && (e.EvFdWatch? ==> WatchFires(c.io, e.revents))
    ensures NoReneg(c.io, OnCryptoShut(c, e).c.io, BreaksBy(c, e))
  {
    hide Holds, Sound, Settle, ShutWatch, HandleRead, NoReneg, WatchFires;
    ShutIsSound(c, e.EvFdWatch?);
    NoRenegSelf(c.io);
    match e
    case EvFdWatch(revents) => ShutWatchTracked(c, revents);
    case EvRead(cnt) => ReadNoReneg(c.io, cnt);
    case _ =>
  }

  lemma ShutIsSound(c: Chan, pending: bool)
    requires Rests(c, pending) && c.leaf.InCrypto()
    ensures Sound(c.io)
    ensures c.leaf.CryptoSsl? ==> NoCloseYet(c.io)
    ensures c.leaf.CryptoReneg? ==> RenegRest(c.io, c.reneg)
    ensures c.leaf.CryptoConn? && !c.started ==> c.io.ssl.log == NoCalls && c.io.outState.Idle?
    ensures c.leaf.CryptoFail? ==> NothingWatched(c.io)
  {
    hide DescInv, CallsInv, RefsInv, Sound;
    RestIo(c);
  }

  lemma OnLeafTracked(c: Chan, e: Event, env: Env)
    requires Rests(c, e.EvFdWatch?) && Proper(c, e, env, e.EvFdWatch?) && c.leaf.InCrypto()
    ensures Tracked(c.io, OnLeaf(c, e, env).c.io, BreaksBy(c, e), StartsBy(c, e))
  {
    hide OnCryptoConn, OnCryptoSsl, OnCryptoReneg, OnCryptoShut, NoReneg, Tracked, Holds, WasFired, Sound, RenegRest,
      Settle, ProcessDeferred;
    ShutIsSound(c, e.EvFdWatch?);
    match c.leaf
    case CryptoConn =>
      ConnTracked(c, e, env);
      NoRenegTracked(c.io, OnCryptoConn(c, e, env).c.io, false);
    case CryptoSsl =>
      SslTracked(c, e);
      NoRenegTracked(c.io, OnCryptoSsl(c, e).c.io, BreaksBy(c, e));
    case CryptoReneg => RenegTracked(c, e);
    case CryptoShut =>
      ShutTracked(c, e);
      NoRenegTracked(c.io, OnCryptoShut(c, e).c.io, BreaksBy(c, e));
    case _ =>
      NoRenegSelf(c.io);
      NoRenegTracked(c.io, c.io, false);
  }

  /** What a crypto state passes on is nothing of the two. */
  lemma LeafPassesQuietly(c: Chan, e: Event, env: Env)
    requires OnLeaf(c, e, env).status.PassToParent?
    ensures !BreaksBy(c, e) && !StartsBy(c, e)
  {
    hide HandleRead, HandleWrite, ProcessDeferred, Settle, GoTo, RenegRound, RenegRead, ShutWatch;
    RoundsTake();
    if e.EvFdWatch? {
      ShutWatchTakes(c, Indicated(e.revents));
    }
  }

  /** What an event handled in the crypto mode does to the output and the renegotiations. */
  lemma HandledTracked(c: Chan, e: Event, env: Env)
    requires Rests(c, e.EvFdWatch?) && Proper(c, e, env, e.EvFdWatch?) && c.leaf.InCrypto()
    ensures Tracked(c.io, Handled(c, e, env).c.io, BreaksBy(c, e), StartsBy(c, e))
  {
    hide OnLeaf, GoTo, Tracked, Holds, WasFired, BreaksBy, StartsBy;
    OnLeafTracked(c, e, env);
    if OnLeaf(c, e, env).status.PassToParent? {
      LeafPassesQuietly(c, e, env);
      GoToRequests(c);
      TrackedSelf(c.io);
    }
  }

  // ---------------------------------------------------------------------------------------
  // The transitions
  // ---------------------------------------------------------------------------------------

  lemma ArrivedTracked(s: Io, c: Chan, req: Request, env: Env)
    requires !req.NoRequest? && c.request.NoRequest? && Sound(c.io) && NoReneg(s, c.io, false)
    requires req.Target().InCrypto() && !req.ToCryptoConn?
    ensures NoReneg(s, Arrived(c, req, env).io, false)
  {
    hide Arrived, Sound, ProcessDeferred, NoReneg, Settle;
    ArrivedIoIs(c, req, env);
    var d := Arrived(c, req, env);
    match req
    case ToCryptoSsl =>
      ResetIsOnward(c.io);
      OutputSameNoReneg(c.io, ResetWatch(c.io));
      DeferredNoReneg(ResetWatch(c.io), Unknown, {});
      NoRenegComposes(c.io, ResetWatch(c.io), d.io, false, false);
      NoRenegComposes(s, c.io, d.io, false, false);
    case _ =>
      OutputSameNoReneg(c.io, d.io);
      NoRenegComposes(s, c.io, d.io, false, false);
  }

  lemma MovedTracked(c: Chan, env: Env)
    requires IoAllows(c) && c.leaf.InCrypto() && !c.request.NoRequest? && c.request.Target().InCrypto()
    requires c.request.ToCryptoConn? ==> !c.leaf.InCrypto()
    ensures NoReneg(c.io, Moved(c, env).io, false)
  {
    hide Passage, Arrived, Sound, NoReneg, NothingWatched, Onward, NoCloseYet;
    var d := Passage(c, c.request.Target());
    PassageDoes(c, c.request.Target());
    PassageIo(c, c.request.Target());
    assert d.io.ssl == c.io.ssl && d.io.outState == c.io.outState;
    OutputSameNoReneg(c.io, d.io);
    ArrivedTracked(c.io, d, c.request, env);
  }

  /** An event that leaves the machine in the crypto mode. */
  lemma DispatchedTracked(c: Chan, e: Event, env: Env)
    requires Rests(c, e.EvFdWatch?) && Proper(c, e, env, e.EvFdWatch?) && c.leaf.InCrypto()
    requires Dispatched(c, e, env).c.leaf.InCrypto()
    ensures Tracked(c.io, Dispatched(c, e, env).c.io, BreaksBy(c, e), StartsBy(c, e))
  {
    hide Handled, Moved, Tracked, NoReneg, DescInv, CallsInv, LeafIo, IoAllows, WasFired, BreaksBy, StartsBy;
    var d := Handled(c, e, env).c;
    HandledHolds(c, e, env, e.EvFdWatch?);
    HandledFrames(c, e, env);
    HandledTracked(c, e, env);
    if d.request.NoRequest? {
      NotMoved(d, env);
    } else {
      MovedCalls(d, env);
      MovedTracked(d, env);
      TrackedOn(c.io, d.io, Moved(d, env).io, BreaksBy(c, e), StartsBy(c, e));
    }
  }

  /** The crypto mode is entered with a new SSL object. */
  lemma DispatchedEnters(c: Chan, e: Event, env: Env)
    requires Rests(c, e.EvFdWatch?) && Proper(c, e, env, e.EvFdWatch?) && !c.leaf.InCrypto()
    requires Dispatched(c, e, env).c.leaf.InCrypto()
    ensures var d := Dispatched(c, e, env).c; d.leaf.CryptoConn? && !d.started
  {
    hide Handled, Passage, Arrived, DescInv, CallsInv, LeafIo, WasFired, IoAllows, RefsInv, LeafDesc, DescAllows,
      LiveCb,
      WatchFires, Owed;
    var d := Handled(c, e, env).c;
    HandledHolds(c, e, env, e.EvFdWatch?);
    HandledFrames(c, e, env);
    if d.request.NoRequest? {
      NotMoved(d, env);
    } else {
      MovedCalls(d, env);
      EntersByConnecting(d);
      PassageDoes(d, d.request.Target());
      ArrivedStarts(Passage(d, d.request.Target()), d.request, env);
    }
  }

  lemma EntersByConnecting(c: Chan)
    requires IoAllows(c) && !c.leaf.InCrypto() && !c.request.NoRequest? && c.request.Target().InCrypto()
    ensures c.request.ToCryptoConn?
  {
    hide Sound, NothingWatched, NoCloseYet, Unwatched;
  }

  // ---------------------------------------------------------------------------------------
  // Steps
  // ---------------------------------------------------------------------------------------

  /** The step's FD_WATCH finds the descriptor broken and the output waiting after its retry. */
  predicate BreaksOff(c: Chan, step: Step) {
    step.WatchReady? && BreaksBy(c, EvFdWatch(step.revents))
  }

  /** In this step SSL_renegotiate is due. */
  predicate StartsRenegotiation(c: Chan, step: Step) {
    match step
    case UserCall(e, _) => StartsBy(c, e)
    case WatchReady(revents, _) => StartsBy(c, EvFdWatch(revents))
    case _ => false
  }

  lemma AfterTracked(c: Chan, step: Step)
    requires Inv(c) && Enabled(c, step) && c.leaf.InCrypto() && After(c, step).leaf.InCrypto()
    ensures Tracked(c.io, After(c, step).io, BreaksOff(c, step), StartsRenegotiation(c, step))
  {
    hide Dispatched, Holds, After, Enabled, Tracked, WasFired, Processes, ProcessDeferred, Settle;
    match step
    case UserCall(e, env) =>
      AfterTrackedBy(c, step, Noted(c, CbOf(e)), e, env);
      CallableUserCall(c, e, env);
    case WatchReady(revents, env) =>
      AfterTrackedBy(c, step, c.(calls := c.calls.(inFdWatchCb := true)), EvFdWatch(revents), env);
    case LookupEnds(result, env) => AfterTrackedBy(c, step, c, EvLookupDone(result), env);
    case WatchReturns =>
      AfterReturn(c);
      TrackedSelf(c.io);
    case Finalizes(env) => FinalizesFromClosed(c, env);
  }

  lemma CallableUserCall(c: Chan, e: Event, env: Env)
    requires Enabled(c, UserCall(e, env))
    ensures Callable(c, e)
  {
  }

  lemma AfterTrackedBy(c: Chan, step: Step, c1: Chan, e: Event, env: Env)
    requires Inv(c) && Enabled(c, step) && c.leaf.InCrypto() && Dispatches(c, step, c1, e, env)
    requires After(c, step).leaf.InCrypto()
    ensures Tracked(c.io, After(c, step).io, BreaksBy(c, e), StartsBy(c, e))
  {
    hide Dispatched, Holds, After, Enabled, Dispatches, Tracked, WasFired, ProcessDeferred, Settle;
    StepDispatches(c, step, c1, e, env);
    DispatchedTracked(c1, e, env);
    assert BreaksBy(c1, e) == BreaksBy(c, e) && StartsBy(c1, e) == StartsBy(c, e);
  }

  lemma AfterEnters(c: Chan, step: Step)
    requires Inv(c) && Enabled(c, step) && !c.leaf.InCrypto() && After(c, step).leaf.InCrypto()
    ensures After(c, step).io.ssl.log == NoCalls && After(c, step).io.outState.Idle?
  {
    hide Dispatched, Holds, After, Enabled, WasFired;
    AfterHolds(c, step);
    match step
    case UserCall(e, env) => AfterEntersBy(c, step, Noted(c, CbOf(e)), e, env);
    case WatchReady(revents, env) =>
      AfterEntersBy(c, step, c.(calls := c.calls.(inFdWatchCb := true)), EvFdWatch(revents), env);
    case LookupEnds(result, env) => AfterEntersBy(c, step, c, EvLookupDone(result), env);
    case WatchReturns => AfterReturn(c);
    case Finalizes(env) => FinalizesFromClosed(c, env);
  }

  lemma AfterEntersBy(c: Chan, step: Step, c1: Chan, e: Event, env: Env)
    requires Inv(c) && Enabled(c, step) && !c.leaf.InCrypto() && Dispatches(c, step, c1, e, env)
    requires After(c, step).leaf.InCrypto() && Inv(After(c, step))
    ensures After(c, step).io.ssl.log == NoCalls && After(c, step).io.outState.Idle?
  {
    hide Dispatched, Holds, After, Enabled, Dispatches, WasFired;
    StepDispatches(c, step, c1, e, env);
    DispatchedEnters(c1, e, env);
    ShutIsSound(After(c, step), false);
  }

  // ---------------------------------------------------------------------------------------
  // Runs
  // ---------------------------------------------------------------------------------------

  /** A stretch in the crypto mode from the step that enters it on. */
  predicate CryptoStretch(cs: seq<Chan>, steps: seq<Step>, i0: nat, i: nat) {
    && IsRun(cs, steps) && 0 < i0 <= i < |cs| && !cs[i0 - 1].leaf.InCrypto()
    && forall k :: i0 <= k <= i ==> cs[k].leaf.InCrypto()
  }

  /** The descriptor broke under a waiting write at some step from `i0` to `j`. */
  predicate BrokeOff(cs: seq<Chan>, steps: seq<Step>, i0: nat, j: int)
    requires j < |steps| < |cs|
  {
    exists k :: i0 <= k <= j && BreaksOff(cs[k], steps[k])
  }

  /** A renegotiation started after that. */
  predicate StartedOver(cs: seq<Chan>, steps: seq<Step>, i0: nat, i: nat)
    requires i <= |steps| < |cs|
  {
    exists j :: i0 <= j < i && StartsRenegotiation(cs[j], steps[j]) && BrokeOff(cs, steps, i0, j)
  }

  /** The output is stuck exactly after the descriptor broke under a waiting write. */
  lemma {:induction false} StuckAfterBreak(cs: seq<Chan>, steps: seq<Step>, i0: nat, i: nat)
    requires CryptoStretch(cs, steps, i0, i)
    ensures Stuck(cs[i].io) <==> BrokeOff(cs, steps, i0, i - 1)
    decreases i
  {
    hide After, Enabled, Inv, BreaksOff, StartsRenegotiation, Created;
    RunHolds(cs, steps, i - 1);
    assert cs[i - 1 + 1] == After(cs[i - 1], steps[i - 1]);
    if i == i0 {
      AfterEnters(cs[i - 1], steps[i - 1]);
    } else {
      StuckAfterBreak(cs, steps, i0, i - 1);
      AfterTracked(cs[i - 1], steps[i - 1]);
      BrokeOffStep(cs, steps, i0, i - 1);
    }
  }

  lemma BrokeOffStep(cs: seq<Chan>, steps: seq<Step>, i0: nat, j: nat)
    requires i0 <= j < |steps| < |cs|
    ensures BrokeOff(cs, steps, i0, j) <==> BrokeOff(cs, steps, i0, j - 1) || BreaksOff(cs[j], steps[j])
  {
    hide BreaksOff;
  }

  lemma StartedOverStep(cs: seq<Chan>, steps: seq<Step>, i0: nat, i: nat)
    requires i0 <= i < |steps| < |cs|
    ensures StartedOver(cs, steps, i0, i + 1)
       <==> StartedOver(cs, steps, i0, i) || (StartsRenegotiation(cs[i], steps[i]) && BrokeOff(cs, steps, i0, i))
  {
    hide StartsRenegotiation, BrokeOff;
  }

  /**
   SSL_renegotiate is never called over an unfinished write, except exactly when a renegotiation
   starts after an FD_WATCH has reported a broken descriptor and found the output still waiting
   after its retry.
   */
  lemma {:induction false} RenegotiatesCleanUnlessBroken(cs: seq<Chan>, steps: seq<Step>, i0: nat, i: nat)
    requires CryptoStretch(cs, steps, i0, i)
    ensures RenegotiatesClean(cs[i].io.ssl.log) <==> !StartedOver(cs, steps, i0, i)
    decreases i
  {
    hide After, Enabled, Inv, BreaksOff, StartsRenegotiation, BrokeOff, Created;
    RunHolds(cs, steps, i - 1);
    assert cs[i - 1 + 1] == After(cs[i - 1], steps[i - 1]);
    if i == i0 {
      AfterEnters(cs[i - 1], steps[i - 1]);
      assert !StartedOver(cs, steps, i0, i0);
    } else {
      RenegotiatesCleanUnlessBroken(cs, steps, i0, i - 1);
      StuckAfterBreak(cs, steps, i0, i - 1);
      AfterTracked(cs[i - 1], steps[i - 1]);
      BrokeOffStep(cs, steps, i0, i - 1);
      StartedOverStep(cs, steps, i0, i - 1);
    }
  }

  // ---------------------------------------------------------------------------------------
  // It does happen
  // ---------------------------------------------------------------------------------------

  function Plainly(o: Outcome): Answer {
    Answer(o, [], 0, 0, false, false)
  }

  const CLIENT := ConnArg(KindClient, 0, NoCb)

  /** A handshake at once, then a write refused twice. */
  const SCRIPT := [Plainly(Done), Plainly(WantWrite), Plainly(WantWrite)]

  const ENV := Env(NoError, NoSocket(OtherError(0)), NoError, SetupOk(SCRIPT), NoError)

  /** Connected through the descriptor 3 of the user, with nothing under way. */
  predicate Quiet(c: Chan) {
    && c.request.NoRequest? && c.calls.slot.NoCb? && !c.calls.inFdWatchCb && !c.finalized
    && c.desc.fd == 3 && c.desc.fdIsUserProvided && !c.desc.closed
  }

  /** The same, when the watch may be calling back. */
  predicate Calm(c: Chan) {
    && c.request.NoRequest? && c.calls.slot.NoCb? && !c.finalized
    && c.desc.fd == 3 && c.desc.fdIsUserProvided && !c.desc.closed
  }

  lemma ArrivedArgs(c: Chan, req: Request, env: Env)
    requires !req.NoRequest?
    ensures var d := Arrived(c, req, env);
            && (req.ToPlainConn? ==> d.plainConn == req.arg) && (req.ToCryptoConn? ==> d.cryptoConn == req.arg)
  {
    hide LeafEntered, Begun;
    BegunArgs(LeafEntered(c, req.Target()).(leaf := req.Target()), req, env);
  }

  /** What a target of the run finds and leaves. */
  lemma MovesTo(c: Chan, req: Request)
    requires Calm(c) && (req.ToPlainConn? || req.ToCryptoConn? || req.ToCryptoSsl? || req.ToReneg?)
    ensures var d := Moved(GoTo(c, req), ENV);
            && d.leaf == req.Target() && Calm(d) && d.calls == c.calls
            && (req.ToPlainConn? ==> d.plainConn == req.arg && d.plainConnErr.NoError?)
            && (req.ToCryptoConn? ==> d.cryptoConn == req.arg && !d.started)
            && (req.ToReneg? ==> d.reneg.phase.RenegInit?)
            && var left := LeftIo(c.leaf, c.io);
               var found :=
                 if req.Target().InCrypto() && !c.leaf.InCrypto() then NewIo(left.registered, left.timer) else left;
               match req
               case ToPlainConn(_) => d.io == found.(registered := {IoOut}, timer := false)
               case ToCryptoConn(_) => d.io == ResetWatch(found).(timer := true)
               case ToCryptoSsl => d.io == ProcessDeferred(ResetWatch(found), Unknown, {})
               case _ => d.io == RenegStart(found)
  {
    hide Passage, Arrived, ProcessDeferred, ResetWatch, RenegStart, NewIo, LeftIo, MakeSock, CloseFd, LiveCb;
    var g := GoTo(c, req);
    var p := Passage(g, req.Target());
    PassageDoes(g, req.Target());
    MovedCalls(g, ENV);
    ArrivedDescIs(p, req, ENV);
    ArrivedIoIs(p, req, ENV);
    ArrivedStarts(p, req, ENV);
    ArrivedArgs(p, req, ENV);
  }

  /** A call of the interface without a callback. */
  lemma UserStep(c: Chan, e: Event)
    requires Quiet(c) && CbOf(e).NoCb? && Calm(Dispatched(Noted(c, NoCb), e, ENV).c)
    requires Dispatched(Noted(c, NoCb), e, ENV).c.calls == Noted(c, NoCb).calls
    ensures var d := After(c, UserCall(e, ENV)); d == Dispatched(Noted(c, NoCb), e, ENV).c && Quiet(d)
  {
    hide Dispatched;
  }

  lemma NotedQuiet(c: Chan)
    requires Quiet(c)
    ensures var d := Noted(c, NoCb); Calm(d) && d == c.(calls := d.calls) && d.calls.slot.NoCb?
  {
  }

  /** An FD_WATCH that calls nobody back. */
  lemma WatchStep(c: Chan, revents: Option<GioCond>)
    requires Quiet(c) && Calm(Dispatched(Marked(c), EvFdWatch(revents), ENV).c)
    ensures var d := After(c, WatchReady(revents, ENV));
            Quiet(d) && d == Dispatched(Marked(c), EvFdWatch(revents), ENV).c.(calls := d.calls)
  {
    hide Dispatched;
  }

  /** An event after which nothing is asked for. */
  lemma Stays(c: Chan, e: Event)
    requires Handled(c, e, ENV).c.request.NoRequest?
    ensures Dispatched(c, e, ENV).c == Handled(c, e, ENV).c
  {
    hide Handled;
  }

  lemma Goes(c: Chan, e: Event, d: Chan, req: Request)
    requires !req.NoRequest? && Handled(c, e, ENV).c == GoTo(d, req)
    ensures Dispatched(c, e, ENV).c == Moved(GoTo(d, req), ENV)
  {
    hide Handled, Moved;
  }

  lemma Adopts(c: Chan)
    requires c == NEW_CHAN
    ensures Created(c) && Enabled(c, UserCall(EvSetConnFd(3, false), ENV))
    ensures var d := After(c, UserCall(EvSetConnFd(3, false), ENV));
            d.leaf.Init? && Quiet(d) && d.io == NewIo({}, false)
  {
  }

  predicate Attempting(c: Chan) {
    && c.leaf.PlainConn? && Quiet(c) && c.plainConn == CLIENT && c.plainConnErr.NoError?
    && c.io == NewIo({}, false).(registered := {IoOut})
  }

  lemma Attempts(c: Chan)
    requires c.leaf.Init? && Quiet(c) && c.io == NewIo({}, false)
    ensures Enabled(c, UserCall(EvConnect(CLIENT), ENV)) && Attempting(After(c, UserCall(EvConnect(CLIENT), ENV)))
  {
    hide After, Dispatched, Moved, GoTo, Noted;
    var e, c1 := EvConnect(CLIENT), Noted(c, NoCb);
    NotedQuiet(c);
    assert Handled(c1, e, ENV).c == GoTo(c1, ToPlainConn(CLIENT));
    Goes(c1, e, c1, ToPlainConn(CLIENT));
    MovesTo(c1, ToPlainConn(CLIENT));
    UserStep(c, e);
  }

  predicate Connecting(c: Chan) {
    c.leaf.CryptoConn? && Quiet(c) && c.cryptoConn == CLIENT && !c.started && c.io == NewIo({}, true)
  }

  lemma ConnectHandled(c: Chan)
    requires c.leaf.PlainConn? && Calm(c) && c.plainConn == CLIENT && c.plainConnErr.NoError?
    ensures Handled(c, EvFdWatch(Some({IoOut})), ENV).c
            == GoTo(WatchReset(c).(plainConnErr := NoError), ToCryptoConn(CLIENT))
  {
    hide GoTo;
  }

  lemma Connects(c: Chan)
    requires Attempting(c)
    ensures Enabled(c, WatchReady(Some({IoOut}), ENV)) && Connecting(After(c, WatchReady(Some({IoOut}), ENV)))
  {
    hide After, Dispatched, Moved, GoTo, Handled;
    var e, c1 := EvFdWatch(Some({IoOut})), Marked(c);
    var d := WatchReset(c1).(plainConnErr := NoError);
    ConnectHandled(c1);
    Goes(c1, e, d, ToCryptoConn(CLIENT));
    MovesTo(d, ToCryptoConn(CLIENT));
    WatchStep(c, Some({IoOut}));
  }

  predicate Connected(c: Chan) {
    && c.leaf.CryptoSsl? && Quiet(c) && c.io == NewIo({}, false).(ssl := c.io.ssl)
    && c.io.ssl.script == [Plainly(WantWrite), Plainly(WantWrite)]
  }

  /** The SSL object after the handshake. */
  const SHAKEN := Ssl([Plainly(WantWrite), Plainly(WantWrite)], 0, false, false, Then(NoCalls, HandshakeCall(NoError)))

  lemma ShakeDone()
    ensures DoHandshake(NewIo({}, false).(ssl := NewSsl(SCRIPT)))
         == HandshakeResult(NewIo({}, false).(ssl := SHAKEN), true, NoError)
  {
    assert SCRIPT[1..] == [Plainly(WantWrite), Plainly(WantWrite)];
  }

  function Shaken(c: Chan): Chan {
    ConnSetup(c, ENV.setup).0.(io := NewIo({}, false).(ssl := SHAKEN),
      calls := c.calls.(slot := NoCb, slotErr := NoError))
  }

  lemma ShakeHandled(c: Chan)
    requires Calm(c) && c.leaf.CryptoConn? && c.cryptoConn == CLIENT && !c.started && c.io == NewIo({}, true)
    ensures Handled(c, EvFdWatch(None), ENV).c == GoTo(Shaken(c), ToCryptoSsl)
  {
    hide DoHandshake, GoTo;
    ShakeDone();
    assert ConnSetup(c, ENV.setup).0.io == NewIo({}, false).(ssl := NewSsl(SCRIPT));
  }

  lemma Shakes(c: Chan)
    requires Connecting(c)
    ensures Enabled(c, WatchReady(None, ENV)) && Connected(After(c, WatchReady(None, ENV)))
  {
    hide After, Dispatched, Moved, GoTo, Handled, ProcessDeferred;
    var e, c1 := EvFdWatch(None), Marked(c);
    var d := Shaken(c1);
    ShakeHandled(c1);
    Goes(c1, e, d, ToCryptoSsl);
    MovesTo(d, ToCryptoSsl);
    WatchStep(c, None);
    NothingDeferred(d.io);
  }

  predicate Waiting(c: Chan) {
    && c.leaf.CryptoSsl? && Quiet(c) && c.io.outState.WaitWrite? && c.io.outBuf == [7] && c.io.inState.Idle?
    && c.io.registered == {IoOut} && c.io.ssl.script == [Plainly(WantWrite)]
  }

  lemma WriteWaits(s: Io)
    requires s == NewIo({}, false).(ssl := s.ssl) && s.ssl.script == [Plainly(WantWrite), Plainly(WantWrite)]
    ensures var t := HandleWrite(s, [7]).io;
            && t.outState.WaitWrite? && t.outBuf == [7] && t.inState.Idle? && t.registered == {IoOut}
            && t.ssl.script == [Plainly(WantWrite)]
  {
    var r := Send(s.ssl, [7], MAX_IO_BUF_SIZE);
    assert [7][..1] == [7] && [7][0..1] == [7];
    assert r.err == SslWantWrite && r.numWritten == 0 && r.deferredCnt == 1;
    assert r.ssl.script == [Plainly(WantWrite)];
  }

  lemma Writes(c: Chan)
    requires Connected(c)
    ensures Enabled(c, UserCall(EvWrite([7]), ENV)) && Waiting(After(c, UserCall(EvWrite([7]), ENV)))
  {
    hide After, Dispatched, Moved, HandleWrite, Noted, NewIo;
    var e, c1 := EvWrite([7]), Noted(c, NoCb);
    NotedQuiet(c);
    WriteWaits(c.io);
    assert Handled(c1, e, ENV).c == c1.(io := HandleWrite(c1.io, [7]).io);
    Stays(c1, e);
    UserStep(c, e);
  }

  lemma RetryWaits(s: Io)
    requires s.outState.WaitWrite? && s.outBuf == [7] && s.inState.Idle? && s.ssl.script == [Plainly(WantWrite)]
    ensures Settle(s, Unknown, {IoHup}).outState.WaitWrite?
    ensures ProcessDeferred(s, Unknown, {IoHup}).outState.Failed?
  {
    var r := Send(s.ssl, s.outBuf, 1);
    assert s.outBuf[..1] == s.outBuf;
    assert r.err == SslWantWrite;
  }

  lemma Breaks(c: Chan)
    requires Waiting(c)
    ensures var step := WatchReady(Some({IoHup}), ENV);
            && Enabled(c, step) && BreaksOff(c, step)
            && After(c, step).leaf.CryptoSsl? && Quiet(After(c, step)) && After(c, step).io.outState.Failed?
  {
    hide After, Dispatched, Moved, ProcessDeferred, Settle;
    var e, c1 := EvFdWatch(Some({IoHup})), Marked(c);
    RetryWaits(c.io);
    assert Handled(c1, e, ENV).c == c1.(io := ProcessDeferred(c1.io, Unknown, {IoHup}));
    Stays(c1, e);
    WatchStep(c, Some({IoHup}));
  }

  lemma Renegotiates(c: Chan)
    requires c.leaf.CryptoSsl? && Quiet(c) && c.io.outState.Failed?
    ensures var step := UserCall(EvRenegotiate(false, NoCb), ENV);
            && Enabled(c, step) && After(c, step).leaf.CryptoReneg? && Quiet(After(c, step))
            && After(c, step).io.outState.Failed? && After(c, step).io.timer && After(c, step).reneg.phase.RenegInit?
  {
    hide After, Dispatched, Moved, GoTo, Noted;
    var e, c1 := EvRenegotiate(false, NoCb), Noted(c, NoCb);
    NotedQuiet(c);
    assert Handled(c1, e, ENV).c == GoTo(c1, ToReneg(false, NoCb));
    Goes(c1, e, c1, ToReneg(false, NoCb));
    MovesTo(c1, ToReneg(false, NoCb));
    UserStep(c, e);
  }

  lemma Starts(c: Chan)
    requires c.leaf.CryptoReneg? && Quiet(c) && c.io.outState.Failed? && c.io.timer && c.reneg.phase.RenegInit?
    ensures var step := WatchReady(None, ENV);
            Enabled(c, step) && StartsRenegotiation(c, step) && After(c, step).leaf.InCrypto()
  {
    hide Dispatched, WatchCalled;
    RoundStaysInCrypto(Marked(c));
    WatchChangesCalls(c, None, ENV);
  }

  lemma RoundStaysInCrypto(c: Chan)
    requires c.leaf.CryptoReneg? && Calm(c)
    ensures Dispatched(c, EvFdWatch(None), ENV).c.leaf.InCrypto()
  {
    hide Moved, DoRenegotiate;
    var h := Handled(c, EvFdWatch(None), ENV).c;
    assert h == RenegRound(c).c;
    if h.request.NoRequest? {
      Stays(c, EvFdWatch(None));
    } else {
      MovedCalls(h, ENV);
    }
  }

  /**
   A run in which SSL_renegotiate is called over an unfinished write: connected, a WRITE that
   has to wait, a hang-up, a RENEGOTIATE.
   */
  lemma HangUpThenRenegotiate() returns (cs: seq<Chan>, steps: seq<Step>)
    ensures CryptoStretch(cs, steps, 3, 8) && |steps| == 8
    ensures steps[5] == WatchReady(Some({IoHup}), ENV) && steps[6] == UserCall(EvRenegotiate(false, NoCb), ENV)
    ensures !RenegotiatesClean(cs[8].io.ssl.log)
  {
    hide After, Enabled, BreaksOff, StartsRenegotiation, Quiet;
    steps := [
      UserCall(EvSetConnFd(3, false), ENV), UserCall(EvConnect(CLIENT), ENV),
      WatchReady(Some({IoOut}), ENV), WatchReady(None, ENV),
      UserCall(EvWrite([7]), ENV), WatchReady(Some({IoHup}), ENV),
      UserCall(EvRenegotiate(false, NoCb), ENV), WatchReady(None, ENV)];
    var c0 := NEW_CHAN;
    var c1 := After(c0, steps[0]);
    var c2 := After(c1, steps[1]);
    var c3 := After(c2, steps[2]);
    var c4 := After(c3, steps[3]);
    var c5 := After(c4, steps[4]);
    var c6 := After(c5, steps[5]);
    var c7 := After(c6, steps[6]);
    var c8 := After(c7, steps[7]);
    cs := [c0, c1, c2, c3, c4, c5, c6, c7, c8];
    Adopts(c0);
    Attempts(c1);
    Connects(c2);
    Shakes(c3);
    Writes(c4);
    Breaks(c5);
    Renegotiates(c6);
    Starts(c7);
    assert IsRun(cs, steps);
    assert BreaksOff(cs[5], steps[5]) && StartsRenegotiation(cs[7], steps[7]);
    assert BrokeOff(cs, steps, 3, 7);
    RenegotiatesCleanUnlessBroken(cs, steps, 3, 8);
  }
}
