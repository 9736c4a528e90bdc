/** What single steps of the channel state machine never undo. */
module ChannelForward {
  import opened Common
  import opened SslOracle
  import opened DeferredIo
  import opened DeferredIoProofs
  import opened CryptoEventProofs
  import opened CryptoControlProofs
  import opened CryptoRest
  import opened ChannelState
  import opened ChannelInvariant
  import opened ChannelProofs
  import opened ChannelTransitions
  import opened ChannelFrames
  import opened ChannelSteps

  // ---------------------------------------------------------------------------------------
  // Within the crypto mode: errors stay and no octet is taken back
  // ---------------------------------------------------------------------------------------

  lemma OnwardSelf(s: Io)
    ensures Onward(s, s)
  {
  }

  lemma ConnRoundOnward(c: Chan, before: PslError)
    requires before.NoError? ==> ConnShakable(c.io)
    ensures Onward(c.io, ConnRound(c, before).c.io)
  {
    hide Onward, ConnShakable, DoHandshake;
    OnwardSelf(c.io);
    if before.NoError? {
      ConnShakes(c.io);
    }
  }

  lemma ConnOnward(c: Chan, e: Event, env: Env)
    requires Rests(c, true) && c.leaf.CryptoConn? && (env.setup.SetupFails? ==> env.setup.err.IsFatal())
    ensures Onward(c.io, OnCryptoConn(c, e, env).c.io)
  {
    hide ConnRound, ConnSetup, Sound, CallsInv, DescInv, RefsInv, NoCloseYet, Onward, ConnShakable, ConnRest;
    OnwardSelf(c.io);
    if e.EvFdWatch? {
      if c.started {
        ConnRestShakable(c.io);
        ConnRoundOnward(c, NoError);
      } else {
        ConnSetupHolds(c, env.setup);
        var (d, err) := ConnSetup(c, env.setup);
        ConnRoundOnward(d, err);
        SetupOnward(c, env.setup);
        OnwardComposes(c.io, d.io, ConnRound(d, err).c.io);
      }
    }
  }

  lemma SetupOnward(c: Chan, setup: SetupAnswer)
    ensures Onward(c.io, ConnSetup(c, setup).0.io)
  {
  }

  lemma SslOnward(c: Chan, e: Event)
    requires SslRest(c.io)
    ensures Onward(c.io, OnCryptoSsl(c, e).c.io)
  {
    hide SslRest, HandleRead, HandleWrite, ProcessDeferred, Onward;
    OnwardSelf(c.io);
    match e
    case EvFdWatch(revents) => SslWatches(c.io, Indicated(revents));
    case EvRead(cnt) => SslReads(c.io, cnt);
    case EvWrite(data) => SslWrites(c.io, data);
    case _ =>
  }

  lemma RenegRoundOnward(c: Chan)
    requires Sound(c.io) && WatchCoherent(c.io) && !Pending(c.io.inState) && NoCloseYet(c.io)
             && !c.reneg.err.IsDeferral()
    ensures Onward(c.io, RenegRound(c).c.io)
  {
    hide Sound, DoRenegotiate, RenegRest, Onward, NoCloseYet;
    RenegSteps(c.io, c.reneg);
  }

  lemma RenegOnward(c: Chan, e: Event)
    requires RenegRest(c.io, c.reneg)
    ensures Onward(c.io, OnCryptoReneg(c, e).c.io)
  {
    hide Sound, RenegRest, HandleRead, ProcessDeferred, RenegRound, DoRenegotiate, Onward, NoTransport, NoCloseYet;
    OnwardSelf(c.io);
    RenegRestTells(c.io, c.reneg);
    match e
    case EvFdWatch(revents) =>
      RenegRoundOnward(c);
      if revents.Some? {
        RenegFlushes(c.io, c.reneg, revents.value);
        var d := c.(io := ProcessDeferred(c.io, Unknown, revents.value));
        RenegRoundOnward(d);
        OnwardComposes(c.io, d.io, RenegRound(d).c.io);
      }
    case EvRead(cnt) =>
      var n := if BytesReady(c.io) < cnt then BytesReady(c.io) else cnt;
      RenegReads(c.io, c.reneg, n);
      var o := HandleRead(c.io, n);
      RenegSteps(o.io, c.reneg);
      OnwardComposes(c.io, o.io, DoRenegotiate(o.io, c.reneg).0);
      TimerIsOnward(c.io, DoRenegotiate(o.io, c.reneg).0);
    case _ =>
  }

  lemma TimerIsOnward(s: Io, t: Io)
    requires Onward(s, t)
    ensures Onward(s, t.(timer := true))
  {
  }

  /**
   How far a shutdown has come: a two-way shutdown is beyond every one-way one, and within one
   kind the phases count.
   */
  function ShutRank(c: Chan): nat {
    (if c.shutHow.TwoWay? then 1 + Rank(ShutFailed) else 0) + Rank(c.shutPhase)
  }

  /** The shutdown goes forward and accepts no octet. */
  predicate ShutForward(c: Chan, d: Chan) {
    Onward(c.io, d.io) && d.io.accepted == c.io.accepted && ShutRank(c) <= ShutRank(d)
  }

  /** The same shutdown goes forward. */
  predicate SameShut(c: Chan, d: Chan) {
    && Onward(c.io, d.io) && d.io.accepted == c.io.accepted
    && d.shutHow == c.shutHow && Rank(c.shutPhase) <= Rank(d.shutPhase)
  }

  lemma SameShutSelf(c: Chan)
    ensures SameShut(c, c)
  {
  }

  lemma SameShutComposes(a: Chan, b: Chan, c: Chan)
    requires SameShut(a, b) && SameShut(b, c)
    ensures SameShut(a, c)
  {
    hide Rank, Onward;
    OnwardComposes(a.io, b.io, c.io);
  }

  lemma ShutForwardComposes(a: Chan, b: Chan, c: Chan)
    requires ShutForward(a, b) && ShutForward(b, c)
    ensures ShutForward(a, c)
  {
    hide ShutRank, Onward;
    OnwardComposes(a.io, b.io, c.io);
  }

  /** A handler that only asks for a transition. */
  lemma GoesSameShut(c: Chan, req: Request)
    requires !req.NoRequest?
    ensures SameShut(c, GoTo(c, req))
  {
  }

  lemma ShutDoneForward(c: Chan)
    requires Sound(c.io) && PhaseTells(c.io.ssl, c.shutHow, ShutSuccess) && !Pending(c.io.outState)
    requires c.shutHow.TwoWay? ==> !Pending(c.io.inState)
    ensures SameShut(c, ShutDone(c).c)
  {
    hide Sound, ProcessDeferred, ShutRest, Onward, NothingWatched;
    OnwardSelf(c.io);
    ResetIsOnward(c.io);
    ShutSucceeds(c.io, c.shutHow);
  }

  lemma ShutRoundForward(c: Chan)
    requires ShutInFlight(c)
    ensures SameShut(c, ShutRound(c).c)
  {
    hide Sound, DoShutdown, ShutDone, ShutRest, Onward, NothingWatched, DescInv, CallsInv, RefsInv, Rank, PhaseTells;
    OnwardSelf(c.io);
    if !c.io.outState.Failed? {
      var r := DoShutdown(c.io, c.shutHow, c.shutPhase);
      ShutCloses(c.io, c.shutHow, c.shutPhase);
      var d := c.(io := r.io, shutPhase := r.phase);
      if r.err.NoError? && r.phase.ShutSuccess? {
        ShutDoneForward(d);
        SameShutComposes(c, d, ShutDone(d).c);
      }
    }
  }

  lemma ShutFlushForward(c: Chan, revents: GioCond)
    requires Rests(c, true) && c.leaf.CryptoShut? && (c.shutPhase.ShutInit? || c.shutPhase.ShutFlushOut?)
    ensures SameShut(c, ShutFlush(c, revents).c)
  {
    hide DescInv, CallsInv, Sound, ProcessDeferred, ShutRest, ShutRound, Onward;
    RestInFlight(c, true);
    ShutFlushes(c.io, c.shutHow, c.shutPhase, revents);
    var io := ProcessDeferred(if c.shutPhase.ShutInit? then ResetWatch(c.io) else c.io, Unknown, revents);
    ShutRestSound(io, c.shutHow, ShutFlushOut);
    if !Pending(io.outState) {
      ShutRestInput(io, c.shutHow, ShutFlushOut);
      ResetIsOnward(io);
      var d := c.(io := ResetWatch(io), shutPhase := Shut1);
      assert LeafRefs(d) == LeafRefs(c) && SslRefs(d) == SslRefs(c);
      ShutRoundForward(d);
      OnwardComposes(c.io, io, d.io);
      SameShutComposes(c, d, ShutRound(d).c);
    }
  }

  lemma ShutWatchForward(c: Chan, revents: Option<GioCond>)
    requires Rests(c, true) && c.leaf.CryptoShut? && WatchFires(c.io, revents)
    ensures SameShut(c, ShutWatch(c, Indicated(revents)).c)
  {
    hide DescInv, CallsInv, RefsInv, Sound, ProcessDeferred, ShutRest, ShutRound, ShutFlush, Onward, Rank;
    OnwardSelf(c.io);
    if c.shutPhase.ShutInit? || c.shutPhase.ShutFlushOut? {
      ShutFlushForward(c, Indicated(revents));
    } else if c.shutPhase.Shut1? || c.shutPhase.Shut2? {
      RestInFlight(c, true);
      ShutPhaseRest(c.io, c.shutHow, c.shutPhase);
      ShutRoundForward(c);
    } else if c.shutPhase.ShutSuccess? {
      TwoWaySuccessIsQuiet(c.io, c.shutHow, revents);
      ShutWatches(c.io, Indicated(revents));
    }
  }

  lemma ShutReadForward(c: Chan, cnt: nat)
    requires Rests(c, false) && c.leaf.CryptoShut?
    ensures SameShut(c, ShutRead(c, cnt).c)
  {
    hide DescInv, CallsInv, RefsInv, Sound, HandleRead, ShutRest, Onward, Rank;
    OnwardSelf(c.io);
    if c.shutHow.OneWay? && (c.shutPhase.ShutSuccess? || c.shutPhase.ShutFlushOut?) {
      ShutReads(c.io, c.shutPhase, cnt);
    }
  }

  lemma ShutGoesForward(c: Chan, e: Event)
    requires Rests(c, e.EvFdWatch?) && c.leaf.CryptoShut? && (e.EvFdWatch? ==> WatchFires(c.io, e.revents))
    ensures SameShut(c, OnCryptoShut(c, e).c)
  {
    hide Holds, ShutWatch, ShutRead, SameShut, GoTo;
    SameShutSelf(c);
    match e
    case EvFdWatch(revents) => ShutWatchForward(c, revents);
    case EvRead(cnt) => ShutReadForward(c, cnt);
    case EvResumePlaintext => GoesSameShut(c, ToPlainTcp);
    case EvShutCrypto(how, cb) => GoesSameShut(c, ToCryptoShut(how, cb));
    case _ =>
  }

  /** No event handled in the crypto mode clears an error or takes back octets. */
  lemma HandledOnward(c: Chan, e: Event, env: Env)
    requires Rests(c, e.EvFdWatch?) && Proper(c, e, env, e.EvFdWatch?) && c.leaf.InCrypto()
    ensures Onward(c.io, Handled(c, e, env).c.io)
  {
    hide OnLeaf, Handled, GoTo, Onward, Rests, Proper;
    OnwardSelf(c.io);
    HandledOneOf(c, e, env);
    GoToRequests(c);
    LeafOnward(c, e, env);
  }

  lemma LeafOnward(c: Chan, e: Event, env: Env)
    requires Rests(c, e.EvFdWatch?) && Proper(c, e, env, e.EvFdWatch?) && c.leaf.InCrypto()
    ensures Onward(c.io, OnLeaf(c, e, env).c.io)
  {
    hide OnCryptoConn, OnCryptoSsl, OnCryptoReneg, OnCryptoShut, Onward, WasFired, FiredOnce, ConnRest,
      SslRest, RenegRest, ShutRest, Sound, RefsInv, DescInv, NothingWatched;
    OnwardSelf(c.io);
    match c.leaf
    case CryptoConn => ConnAnyOnward(c, e, env);
    case CryptoSsl => SslOnward(c, e);
    case CryptoReneg => RenegOnward(c, e);
    case CryptoShut => ShutGoesForward(c, e);
    case _ =>
  }

  lemma ConnAnyOnward(c: Chan, e: Event, env: Env)
    requires Rests(c, e.EvFdWatch?) && c.leaf.CryptoConn? && env.Plausible()
    ensures Onward(c.io, OnCryptoConn(c, e, env).c.io)
  {
    hide Onward, OnCryptoConn, Holds;
    if e.EvFdWatch? {
      ConnOnward(c, e, env);
    } else {
      ConnIdles(c, e, env);
    }
  }

  lemma ConnIdles(c: Chan, e: Event, env: Env)
    requires !e.EvFdWatch?
    ensures Onward(c.io, OnCryptoConn(c, e, env).c.io)
  {
    hide ConnRound, ConnSetup;
  }

  // ---------------------------------------------------------------------------------------
  // What one step does
  // ---------------------------------------------------------------------------------------

  /** States that lead to nothing but CLOSED and FINAL. */
  predicate DeadEnd(leaf: Leaf) {
    leaf.PlainShut? || leaf.Closed? || leaf.Final?
  }

  /** Both close alerts have passed, ours after every octet accepted was taken. */
  ghost predicate ClosedBothWays(s: Io) {
    && s.ssl.sent && s.ssl.received
    && BeforeClose(s.ssl.log).Some? && s.accepted == Taken(BeforeClose(s.ssl.log).value)
  }

  /** What an event does to a machine in the crypto mode. */
  ghost predicate CryptoStep(c: Chan, d: Chan) {
    && (d.leaf.InCrypto() ==> Onward(c.io, d.io))
    && (d.leaf.InCrypto() || DeadEnd(d.leaf)
       || (d.leaf.PlainTcp? && ClosedBothWays(d.io) && c.io.accepted <= d.io.accepted))
  }

  lemma MovedCrypto(c: Chan, env: Env)
    requires IoAllows(c) && c.leaf.InCrypto() && !c.request.NoRequest?
    requires DescInv(c.desc) && DescAllows(c.request, c.desc) && env.Plausible()
    ensures CryptoStep(c, Moved(c, env))
  {
    hide Passage, Arrived, Sound, Onward, DescInv, NothingWatched, NoCloseYet;
    var target := c.request.Target();
    MovedIo(c, env);
    MovedCalls(c, env);
    if c.request.ToPlainTcp? {
      PassageIo(c, target);
      PassageDoes(c, target);
      ArrivedIoIs(Passage(c, target), c.request, env);
      ClosedAfterEverything(c.io);
    }
  }

  lemma DispatchedCrypto(c: Chan, e: Event, env: Env)
    requires Rests(c, e.EvFdWatch?) && Proper(c, e, env, e.EvFdWatch?) && c.leaf.InCrypto()
    ensures CryptoStep(c, Dispatched(c, e, env).c)
  {
    hide Handled, Moved, Onward, DescInv, CallsInv, RefsInv, IoAllows, LeafIo, WasFired;
    var d := Handled(c, e, env).c;
    HandledHolds(c, e, env, e.EvFdWatch?);
    HandledFrames(c, e, env);
    HandledOnward(c, e, env);
    if d.request.NoRequest? {
      NotMoved(d, env);
    } else {
      MovedCrypto(d, env);
      CryptoStepComposes(c, d, Moved(d, env));
    }
  }

  lemma CryptoStepComposes(a: Chan, b: Chan, c: Chan)
    requires Onward(a.io, b.io) && CryptoStep(b, c)
    ensures CryptoStep(a, c)
  {
    hide ClosedBothWays, ErrorsKept;
    if c.leaf.InCrypto() {
      OnwardComposes(a.io, b.io, c.io);
    }
  }

  // ---------------------------------------------------------------------------------------
  // Dead ends, the shutdown, and the callbacks
  // ---------------------------------------------------------------------------------------

  lemma DispatchedDeadEnd(c: Chan, e: Event, env: Env)
    requires Rests(c, e.EvFdWatch?) && Proper(c, e, env, e.EvFdWatch?) && DeadEnd(c.leaf)
    ensures DeadEnd(Dispatched(c, e, env).c.leaf)
    ensures c.desc.closed ==> Dispatched(c, e, env).c.leaf.Closed? || Dispatched(c, e, env).c.leaf.Final?
  {
    hide Handled, Moved, DescInv, CallsInv, RefsInv, LeafIo, Unwatched, WasFired;
    var d := Handled(c, e, env).c;
    HandledHolds(c, e, env, e.EvFdWatch?);
    HandledFrames(c, e, env);
    if d.request.NoRequest? {
      NotMoved(d, env);
    } else {
      MovedCalls(d, env);
    }
  }

  /** An event calls nobody back: that is done after it. */
  lemma DispatchedFires(c: Chan, e: Event, env: Env)
    ensures var d := Dispatched(c, e, env).c;
            d.calls.fired == c.calls.fired && d.calls.requested == c.calls.requested
  {
    hide Handled, Moved;
    var d := Handled(c, e, env).c;
    HandledFrames(c, e, env);
    if d.request.NoRequest? {
      NotMoved(d, env);
    } else {
      MovedCalls(d, env);
    }
  }

  /** Only a SHUT_CRYPTO that makes a one-way shutdown a two-way one enters the shutdown anew. */
  lemma ShutEntersAnew(c: Chan, e: Event, env: Env)
    requires c.leaf.CryptoShut? && c.request.NoRequest? && Handled(c, e, env).c.request.ToCryptoShut?
    ensures e.EvShutCrypto? && c.shutHow.OneWay? && e.how.TwoWay?
    ensures Handled(c, e, env).c == GoTo(c, ToCryptoShut(e.how, e.cb))
  {
    hide Handled, OnCryptoShut, GoTo;
    HandledOneOf(c, e, env);
    GoToRequests(c);
    AsksAnew(c, e);
  }

  lemma AsksAnew(c: Chan, e: Event)
    requires c.request.NoRequest? && OnCryptoShut(c, e).c.request.ToCryptoShut?
    ensures e.EvShutCrypto? && c.shutHow.OneWay? && e.how.TwoWay?
            && OnCryptoShut(c, e).c == GoTo(c, ToCryptoShut(e.how, e.cb))
  {
    hide ShutWatch, HandleRead;
    if e.EvFdWatch? {
      ShutWatchAsks(c, e);
    }
  }

  lemma ShutWatchAsks(c: Chan, e: Event)
    requires c.request.NoRequest? && e.EvFdWatch?
    ensures !ShutWatch(c, Indicated(e.revents)).c.request.ToCryptoShut?
    ensures ShutWatch(c, Indicated(e.revents)).c.request.ToPlainTcp? ==> c.shutCb.Cb? && c.shutCb.kind.SwitchCb?
  {
    hide ShutRound, ProcessDeferred, ResetWatch;
    ShutRoundAsks(c);
    var io := ProcessDeferred(if c.shutPhase.ShutInit? then ResetWatch(c.io) else c.io, Unknown, Indicated(e.revents));
    ShutRoundAsks(c.(io := ResetWatch(io), shutPhase := Shut1));
  }

  lemma ShutRoundAsks(c: Chan)
    requires c.request.NoRequest?
    ensures !ShutRound(c).c.request.ToCryptoShut?
    ensures ShutRound(c).c.request.ToPlainTcp? ==> c.shutCb.Cb? && c.shutCb.kind.SwitchCb?
  {
    hide DoShutdown, ProcessDeferred, ResetWatch;
  }

  /** Entered anew, the shutdown is a two-way one. */
  lemma ReenteredShut(c: Chan, how: ShutHow, cb: Cb, env: Env)
    requires c.leaf.CryptoShut? && c.shutHow.OneWay? && how.TwoWay? && Sound(c.io)
    ensures ShutForward(c, Moved(GoTo(c, ToCryptoShut(how, cb)), env))
  {
    hide Passage, Arrived, Sound, Onward, Rank, ShutStart;
    var req := ToCryptoShut(how, cb);
    var c0 := GoTo(c, req);
    var d := Passage(c0, CryptoShut);
    PassageDoes(c0, CryptoShut);
    assert d.io == ResetWatch(c.io);
    ResetIsOnward(c.io);
    ArrivedIoIs(d, req, env);
    ShutBegins(d.io, how);
    OnwardComposes(c.io, d.io, ShutStart(d.io, how));
    RanksApart(c, Moved(c0, env));
  }

  lemma RanksApart(c: Chan, d: Chan)
    requires c.shutHow.OneWay? && d.shutHow.TwoWay?
    ensures ShutRank(c) <= ShutRank(d)
  {
  }

  /** Every event that leaves the machine in the shutdown takes it forward. */
  lemma DispatchedShut(c: Chan, e: Event, env: Env)
    requires Rests(c, e.EvFdWatch?) && Proper(c, e, env, e.EvFdWatch?) && c.leaf.CryptoShut?
    ensures var d := Dispatched(c, e, env).c; d.leaf.CryptoShut? ==> ShutForward(c, d)
  {
    hide OnLeaf, OnMode, OnAlive, Moved, Onward, ShutRank, Rank, DescInv, CallsInv, RefsInv, LeafIo, WasFired, Sound,
      GoTo;
    var d := Handled(c, e, env).c;
    RestIo(c);
    if d.request.NoRequest? {
      NotMoved(d, env);
      HandledShutForward(c, e, env);
    } else {
      MovedCalls(d, env);
      if d.request.ToCryptoShut? {
        ShutEntersAnew(c, e, env);
        ReenteredShut(c, e.how, e.cb, env);
      }
    }
  }

  lemma HandledShutForward(c: Chan, e: Event, env: Env)
    requires Rests(c, e.EvFdWatch?) && Proper(c, e, env, e.EvFdWatch?) && c.leaf.CryptoShut?
    ensures ShutForward(c, Handled(c, e, env).c)
  {
    hide OnCryptoShut, GoTo, SameShut, Holds, WasFired;
    SameShutSelf(c);
    ShutGoesForward(c, e);
    GoesSameShut(c, ToPlainShut);
    GoesSameShut(c, ToClosed);
    GoesSameShut(c, ToFinal);
    SameShutIsForward(c, Handled(c, e, env).c);
  }

  lemma SameShutIsForward(c: Chan, d: Chan)
    requires SameShut(c, d)
    ensures ShutForward(c, d)
  {
  }

  /**
   The two ways back to plaintext: RESUME_PLAINTEXT after success, and the round that ends a
   two-way shutdown which the legacy interface asked for.
   */
  predicate ResumesBy(c: Chan, e: Event) {
    && c.leaf.CryptoShut?
    && ((e.EvResumePlaintext? && c.shutPhase.ShutSuccess?)
        || (e.EvFdWatch? && c.shutCb.Cb? && c.shutCb.kind.SwitchCb? && c.shutHow.TwoWay?))
  }

  lemma RoundsAsk(c: Chan)
    requires c.request.NoRequest?
    ensures forall err: PslError :: !ConnRound(c, err).c.request.ToPlainTcp?
    ensures !RenegRound(c).c.request.ToPlainTcp?
  {
    hide DoHandshake, DoRenegotiate;
  }

  lemma ConnAsks(c: Chan, e: Event, env: Env)
    requires c.request.NoRequest?
    ensures !OnCryptoConn(c, e, env).c.request.ToPlainTcp?
  {
    hide ConnRound, ResetWatch;
    RoundsAsk(c);
    RoundsAsk(ConnSetup(c, env.setup).0);
  }

  lemma RenegAsks(c: Chan, e: Event)
    requires c.request.NoRequest?
    ensures !OnCryptoReneg(c, e).c.request.ToPlainTcp?
  {
    hide RenegRound, ProcessDeferred, HandleRead, DoRenegotiate;
    RoundsAsk(c);
    if e.EvFdWatch? && e.revents.Some? {
      RoundsAsk(c.(io := ProcessDeferred(c.io, Unknown, e.revents.value)));
    }
  }

  lemma SslAsks(c: Chan, e: Event)
    requires c.request.NoRequest?
    ensures !OnCryptoSsl(c, e).c.request.ToPlainTcp?
  {
    hide HandleRead, HandleWrite, ProcessDeferred;
  }

  lemma ShutAsks(c: Chan, e: Event)
    requires c.request.NoRequest? && OnCryptoShut(c, e).c.request.ToPlainTcp?
    ensures if e.EvFdWatch? then c.shutCb.Cb? && c.shutCb.kind.SwitchCb?
            else e.EvResumePlaintext? && c.shutPhase.ShutSuccess?
  {
    hide ShutWatch, HandleRead;
    if e.EvFdWatch? {
      ShutWatchAsks(c, e);
    }
  }

  lemma AsksPlaintext(c: Chan, e: Event, env: Env)
    requires Rests(c, e.EvFdWatch?) && c.leaf.InCrypto() && Handled(c, e, env).c.request.ToPlainTcp?
    ensures ResumesBy(c, e)
  {
    hide Handled, OnCryptoConn, OnCryptoSsl, OnCryptoReneg, OnCryptoShut, GoTo, Holds;
    HandledOneOf(c, e, env);
    GoToRequests(c);
    ConnAsks(c, e, env);
    SslAsks(c, e);
    RenegAsks(c, e);
    if c.leaf.CryptoShut? {
      ShutAsks(c, e);
      ShutIsLegacy(c);
    }
  }

  lemma ShutIsLegacy(c: Chan)
    requires Rests(c, true) || Rests(c, false)
    ensures c.leaf.CryptoShut? ==> LegacyTwoWay(c.shutHow, c.shutCb)
  {
    hide DescInv, CallsInv, RefsInv, Sound, ShutRest;
  }

  lemma DispatchedResumes(c: Chan, e: Event, env: Env)
    requires Rests(c, e.EvFdWatch?) && c.leaf.InCrypto() && Dispatched(c, e, env).c.leaf.PlainTcp?
    ensures ResumesBy(c, e)
  {
    hide Handled, Moved, Holds, ResumesBy;
    var d := Handled(c, e, env).c;
    HandledFrames(c, e, env);
    if d.request.NoRequest? {
      NotMoved(d, env);
    } else {
      MovedCalls(d, env);
      AsksPlaintext(c, e, env);
    }
  }

  // ---------------------------------------------------------------------------------------
  // What a callback says is true
  // ---------------------------------------------------------------------------------------

  predicate Failing(request: Request) {
    request.ToPlainFail? || request.ToCryptoFail?
  }

  predicate FailedState(leaf: Leaf) {
    leaf.PlainFail? || leaf.CryptoFail?
  }

  /** A scheduled callback reports an error exactly when the machine is on its way to a failed state. */
  predicate Truthful(c: Chan) {
    c.calls.slot.Cb? ==> (c.calls.slotErr.NoError? <==> !Failing(c.request))
  }

  lemma PlainConnIsTruthful(c: Chan, revents: Option<GioCond>, env: Env)
    requires c.calls.slot.NoCb?
    ensures Truthful(OnPlainConn(c, EvFdWatch(revents), env).c)
  {
    hide ConnectError;
  }

  lemma ConnIsTruthful(c: Chan, revents: Option<GioCond>, env: Env)
    requires c.calls.slot.NoCb? && c.request.NoRequest?
    ensures Truthful(OnCryptoConn(c, EvFdWatch(revents), env).c)
  {
    hide DoHandshake, ResetWatch;
  }

  lemma RenegRoundIsTruthful(c: Chan)
    requires c.calls.slot.NoCb?
    ensures Truthful(RenegRound(c).c)
  {
    hide DoRenegotiate;
  }

  lemma RenegIsTruthful(c: Chan, revents: Option<GioCond>)
    requires c.calls.slot.NoCb?
    ensures Truthful(OnCryptoReneg(c, EvFdWatch(revents)).c)
  {
    hide RenegRound, ProcessDeferred, Truthful;
    RenegRoundIsTruthful(c);
    if revents.Some? {
      RenegRoundIsTruthful(c.(io := ProcessDeferred(c.io, Unknown, revents.value)));
    }
  }

  lemma ShutDoneIsTruthful(c: Chan)
    requires c.calls.slot.NoCb? && c.request.NoRequest?
    ensures Truthful(ShutDone(c).c)
  {
    hide ProcessDeferred, ResetWatch;
  }

  lemma ShutRoundIsTruthful(c: Chan)
    requires c.calls.slot.NoCb? && c.request.NoRequest? && (c.io.outState.Failed? ==> !c.io.outErr.NoError?)
    ensures Truthful(ShutRound(c).c)
  {
    hide DoShutdown, ShutDone;
    var r := DoShutdown(c.io, c.shutHow, c.shutPhase);
    ShutDoneIsTruthful(c.(io := r.io, shutPhase := r.phase));
  }

  lemma ShutIsTruthful(c: Chan, revents: Option<GioCond>)
    requires Rests(c, true) && c.leaf.CryptoShut? && WatchFires(c.io, revents)
    ensures Truthful(OnCryptoShut(c, EvFdWatch(revents)).c)
  {
    hide ShutRound, ProcessDeferred, ResetWatch, Truthful, DescInv, CallsInv, RefsInv, ShutRest, Sound, Onward,
      NothingWatched;
    SlotFree(c);
    FailedHasError(c.io);
    ShutRestSound(c.io, c.shutHow, c.shutPhase);
    ShutRoundIsTruthful(c);
    if c.shutPhase.ShutInit? || c.shutPhase.ShutFlushOut? {
      ShutFlushes(c.io, c.shutHow, c.shutPhase, Indicated(revents));
      var io := ProcessDeferred(if c.shutPhase.ShutInit? then ResetWatch(c.io) else c.io, Unknown, Indicated(revents));
      ShutRestSound(io, c.shutHow, ShutFlushOut);
      FailedHasError(io);
      ResetKeepsOutput(io);
      ShutRoundIsTruthful(c.(io := ResetWatch(io), shutPhase := Shut1));
    }
  }

  lemma SlotFree(c: Chan)
    requires c.calls.slot.NoCb?
    ensures Truthful(c)
    ensures forall io: Io, p: ShutPhase :: Truthful(c.(io := io, shutPhase := p)) && Truthful(c.(io := io))
  {
  }

  lemma FailedHasError(s: Io)
    ensures Sound(s) && s.outState.Failed? ==> !s.outErr.NoError?
  {
  }

  lemma ResetKeepsOutput(s: Io)
    ensures ResetWatch(s).outState == s.outState && ResetWatch(s).outErr == s.outErr
  {
  }

  /** The watch is never ready in a failed state. */
  lemma WatchedNotFailed(c: Chan, revents: Option<GioCond>)
    requires Inv(c) && WatchFires(c.io, revents)
    ensures !FailedState(c.leaf)
  {
    hide CallsInv, DescInv, RefsInv, Sound;
  }

  lemma HandledIsTruthful(c: Chan, revents: Option<GioCond>, env: Env)
    requires Rests(c, true) && Proper(c, EvFdWatch(revents), env, true)
    ensures Truthful(Handled(c, EvFdWatch(revents), env).c)
  {
    hide OnPlainConn, OnCryptoConn, OnCryptoReneg, OnCryptoShut, ProcessDeferred, Truthful, Holds, WasFired;
    SlotFree(c);
    match c.leaf
    case PlainConn => PlainConnIsTruthful(c, revents, env);
    case CryptoConn => ConnIsTruthful(c, revents, env);
    case CryptoSsl => SlotFreeIo(c, ProcessDeferred(c.io, Unknown, Indicated(revents)));
    case CryptoReneg => RenegIsTruthful(c, revents);
    case CryptoShut => ShutIsTruthful(c, revents);
    case _ =>
  }

  lemma SlotFreeIo(c: Chan, io: Io)
    requires c.calls.slot.NoCb?
    ensures Truthful(c.(io := io))
  {
  }
}
