/** What no handler of the channel state machine touches. */
module ChannelFrames {
  import opened Common
  import opened DeferredIo
  import opened ChannelState

  /** The state, the callbacks made and asked for, and the argument of the last lookup are as before. */
  predicate SameFrame(c: Chan, d: Chan) {
    && d.leaf == c.leaf && d.finalized == c.finalized && d.lookup == c.lookup && d.lookupSes == c.lookupSes
    && d.calls.fired == c.calls.fired && d.calls.requested == c.calls.requested
       && d.calls.inFdWatchCb == c.calls.inFdWatchCb
  }

  lemma RequestFrames()
    ensures forall c: Chan, req: Request :: !req.NoRequest? ==> SameFrame(c, GoTo(c, req))
    ensures forall c: Chan, cb: Cb, err: PslError :: SameFrame(c, Sched(c, cb, err))
  {
  }

  lemma InitFrames(c: Chan, e: Event)
    ensures SameFrame(c, OnInit(c, e).c)
  {
    hide Adopt, GoTo;
    RequestFrames();
  }

  lemma PlainFrames(c: Chan, e: Event, env: Env)
    ensures SameFrame(c, OnLookup(c, e).c) && SameFrame(c, OnPlainTcp(c, e, env).c)
  {
    hide GoTo;
    RequestFrames();
  }

  lemma AttemptFrames(c: Chan, err: PslError)
    ensures SameFrame(c, WatchReset(c).(plainConnErr := err))
    ensures SameFrame(c, Sched(WatchReset(c).(plainConnErr := err), c.plainConn.cb, err))
  {
  }

  lemma PlainConnFrames(c: Chan, e: Event, env: Env)
    ensures SameFrame(c, OnPlainConn(c, e, env).c)
  {
    hide ConnectError, GoTo, Sched, WatchReset;
    RequestFrames();
    if e.EvFdWatch? {
      AttemptFrames(c, ConnectError(c, e.revents, env));
    }
  }

  lemma ConnRoundFrames(c: Chan, before: PslError)
    ensures SameFrame(c, ConnRound(c, before).c)
  {
    hide DoHandshake, ResetWatch, GoTo, Sched;
    RequestFrames();
    var h := DoHandshake(c.io);
    var c1 := if before.NoError? then c.(io := h.io) else c;
    var err := if before.NoError? then h.err else before;
    assert SameFrame(c1, GoTo(Sched(c1, c.cryptoConn.cb, err), ToCryptoFail(err)));
    assert SameFrame(c1, GoTo(Sched(c1, c.cryptoConn.cb, NoError), ToCryptoSsl));
  }

  lemma ConnFrames(c: Chan, e: Event, env: Env)
    ensures SameFrame(c, OnCryptoConn(c, e, env).c)
  {
    hide ConnRound, ResetWatch, GoTo, Sched;
    if e.EvFdWatch? {
      if c.started {
        ConnRoundFrames(c, NoError);
      } else {
        var (c1, err) := ConnSetup(c, env.setup);
        ConnRoundFrames(c1, err);
      }
    }
  }

  lemma SslFrames(c: Chan, e: Event)
    ensures SameFrame(c, OnCryptoSsl(c, e).c)
  {
    hide HandleRead, HandleWrite, ProcessDeferred, GoTo, Sched;
    RequestFrames();
  }

  lemma RenegRoundFrames(c: Chan)
    ensures SameFrame(c, RenegRound(c).c)
  {
    hide DoRenegotiate, GoTo, Sched;
    RequestFrames();
    var (io, r) := DoRenegotiate(c.io, c.reneg);
    var c1 := c.(io := io, reneg := r);
    assert SameFrame(c1, GoTo(Sched(c1, c.renegCb, NoError), ToCryptoSsl));
    assert SameFrame(c1, GoTo(Sched(c1, c.renegCb, r.err), ToCryptoFail(r.err)));
  }

  lemma RenegFrames(c: Chan, e: Event)
    ensures SameFrame(c, OnCryptoReneg(c, e).c)
  {
    hide HandleRead, DoRenegotiate, ProcessDeferred, RenegRound, GoTo, Sched;
    RequestFrames();
    if e.EvFdWatch? {
      RenegRoundFrames(c);
      if e.revents.Some? {
        RenegRoundFrames(c.(io := ProcessDeferred(c.io, Unknown, e.revents.value)));
      }
    }
  }

  lemma ShutDoneFrames(c: Chan)
    ensures SameFrame(c, ShutDone(c).c)
  {
    hide ProcessDeferred, ResetWatch, GoTo, Sched;
    RequestFrames();
  }

  lemma ShutRoundFrames(c: Chan)
    ensures SameFrame(c, ShutRound(c).c)
  {
    hide DoShutdown, ShutDone, GoTo, Sched;
    RequestFrames();
    var r := DoShutdown(c.io, c.shutHow, c.shutPhase);
    ShutDoneFrames(c.(io := r.io, shutPhase := r.phase));
  }

  lemma ShutWatchFrames(c: Chan, revents: GioCond)
    ensures SameFrame(c, ShutWatch(c, revents).c)
  {
    hide ShutRound, ProcessDeferred, ResetWatch;
    ShutRoundFrames(c);
    var io := ProcessDeferred(if c.shutPhase.ShutInit? then ResetWatch(c.io) else c.io, Unknown, revents);
    ShutRoundFrames(c.(io := ResetWatch(io), shutPhase := Shut1));
  }

  lemma ShutFrames(c: Chan, e: Event)
    ensures SameFrame(c, OnCryptoShut(c, e).c)
  {
    hide HandleRead, ShutWatch, GoTo;
    RequestFrames();
    if e.EvFdWatch? {
      ShutWatchFrames(c, Indicated(e.revents));
    }
  }

  /** A handler's own work, or one of the three transitions of the enclosing states, or nothing. */
  lemma HandledOneOf(c: Chan, e: Event, env: Env)
    ensures var h := Handled(c, e, env).c;
            || h == OnLeaf(c, e, env).c || h == c
            || h == GoTo(c, ToPlainShut) || h == GoTo(c, ToClosed) || h == GoTo(c, ToFinal)
  {
    hide OnLeaf, GoTo;
  }

  lemma GoToRequests(c: Chan)
    ensures GoTo(c, ToPlainShut).request.ToPlainShut? && GoTo(c, ToClosed).request.ToClosed?
            && GoTo(c, ToFinal).request.ToFinal?
    ensures GoTo(c, ToPlainShut).io == c.io && GoTo(c, ToClosed).io == c.io && GoTo(c, ToFinal).io == c.io
  {
  }

  /** No handler calls back, forgets a callback that was made, or moves by itself. */
  lemma HandledFrames(c: Chan, e: Event, env: Env)
    ensures SameFrame(c, Handled(c, e, env).c)
  {
    hide OnInit, OnLookup, OnPlainConn, OnPlainTcp, OnCryptoConn, OnCryptoSsl, OnCryptoReneg, OnCryptoShut, GoTo;
    RequestFrames();
    InitFrames(c, e);
    PlainFrames(c, e, env);
    PlainConnFrames(c, e, env);
    ConnFrames(c, e, env);
    SslFrames(c, e);
    RenegFrames(c, e);
    ShutFrames(c, e);
  }

  /** The rounds of the crypto states take their events. */
  lemma RoundsTake()
    ensures forall c: Chan, err: PslError :: !ConnRound(c, err).status.PassToParent?
    ensures forall c: Chan :: !RenegRound(c).status.PassToParent?
    ensures forall c: Chan, cnt: nat :: !RenegRead(c, cnt).status.PassToParent?
    ensures forall c: Chan, cnt: nat :: !ShutRead(c, cnt).status.PassToParent?
    ensures forall c: Chan, env: Env :: !ShutSock(c, env).status.PassToParent?
  {
    hide DoHandshake, DoRenegotiate, HandleRead, GoTo, Sched, BytesReady;
  }

  lemma ShutWatchTakes(c: Chan, revents: GioCond)
    ensures !ShutWatch(c, revents).status.PassToParent?
  {
    hide DoShutdown, ProcessDeferred, GoTo, Sched, ResetWatch;
  }

  /** A handler that passes an event on has done nothing. */
  lemma LeafPasses(c: Chan, e: Event, env: Env)
    ensures var r := OnLeaf(c, e, env); r.status.PassToParent? ==> r == Result(c, PassToParent, NoReply)
  {
    hide GoTo, Sched, ConnectError, ConnRound, ConnSetup, HandleRead, HandleWrite, ProcessDeferred, RenegRound,
      RenegRead, ShutWatch, ShutRead, ShutSock, Adopt;
    RoundsTake();
    if e.EvFdWatch? {
      ShutWatchTakes(c, Indicated(e.revents));
      var (c1, err) := ConnSetup(c, env.setup);
      assert !ConnRound(c1, err).status.PassToParent?;
    }
  }
}
