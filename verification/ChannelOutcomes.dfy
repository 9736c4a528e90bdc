/**
 What comes of each event, told from its arguments, the answers of the system and of the SSL
 object, and the flags of the watch alone: which state follows, what is reported to whom, and
 with which error.
 */
module ChannelOutcomes {
  import opened Common
  import opened SslOracle
  import opened DeferredIo
  import opened DeferredIoProofs
  import opened CryptoEventProofs
  import opened CryptoControlProofs
  import opened CryptoRest
  import opened DeferredIoEffects
  import opened ChannelState
  import opened ChannelInvariant
  import opened ChannelProofs
  import opened ChannelTransitions
  import opened ChannelFrames
  import opened ChannelSteps
  import opened ChannelForward
  import opened ChannelRuns
  import opened ChannelRenegotiation
  import opened ChannelWaits

  // ---------------------------------------------------------------------------------------
  // From a handler to the step
  // ---------------------------------------------------------------------------------------

  /** The state after an event is the one its handler asked for, or the same. */
  lemma DispatchedTo(c: Chan, e: Event, env: Env)
    ensures var h, d := Handled(c, e, env), Dispatched(c, e, env);
            && d.status == h.status && d.reply == h.reply && d.c.calls == h.c.calls && d.c == Moved(h.c, env)
            && (h.c.request.NoRequest? ==> d.c == h.c) && (!h.c.request.NoRequest? ==> d.c.leaf == h.c.request.Target())
            && (Failing(h.c.request) ==> d.c.failErr == h.c.request.cause)
  {
    hide Handled, Moved;
    var h := Handled(c, e, env).c;
    if h.request.NoRequest? {
      NotMoved(h, env);
    } else {
      MovedCalls(h, env);
      MovedFails(h, env);
    }
  }

  /** A failed state knows why. */
  lemma MovedFails(c: Chan, env: Env)
    ensures Failing(c.request) ==> Moved(c, env).failErr == c.request.cause
  {
    hide Passage, LeafEntered;
  }

  /** The state that was asked for gets the argument of the request. */
  lemma MovedArg(c: Chan, env: Env)
    requires !c.request.NoRequest?
    ensures c.request.ToLookup? ==> Moved(c, env).lookup == c.request.arg
    ensures c.request.ToPlainConn? ==> Moved(c, env).plainConn == c.request.arg
    ensures c.request.ToCryptoConn? ==> Moved(c, env).cryptoConn == c.request.arg
  {
    hide Passage, LeafEntered, ProcessDeferred, MakeSock;
  }

  /** The callback `cb`, if it is one, was made with `err`. */
  predicate Reported(c: Chan, d: Chan, cb: Cb, err: PslError) {
    d.calls.fired == c.calls.fired + if cb.Cb? then [Firing(cb.id, err)] else []
  }

  /** An FD_WATCH leads where its handler asks, and then makes the callback that was scheduled. */
  lemma WatchedTo(c: Chan, revents: Option<GioCond>, env: Env)
    requires Inv(c) && Enabled(c, WatchReady(revents, env))
    ensures var h := Handled(Marked(c), EvFdWatch(revents), env).c; var d := After(c, WatchReady(revents, env));
            && d.leaf == (if h.request.NoRequest? then h.leaf else h.request.Target())
            && (Failing(h.request) ==> d.failErr == h.request.cause)
            && (h.request.NoRequest? ==> d == h.(calls := d.calls))
            && d.io == Moved(h, env).io && d.reneg == Moved(h, env).reneg && d.cryptoConn == Moved(h, env).cryptoConn
            && (!d.leaf.Closed? && !d.leaf.Final? ==> Reported(c, d, h.calls.slot, h.calls.slotErr))
  {
    hide Handled, Dispatched, Moved, Inv, Enabled, Failing;
    var e := EvFdWatch(revents);
    DispatchedTo(Marked(c), e, env);
    HandledFrames(Marked(c), e, env);
    AfterHolds(c, WatchReady(revents, env));
    WatchChangesCalls(c, revents, env);
    InvClosed(After(c, WatchReady(revents, env)));
  }

  // ---------------------------------------------------------------------------------------
  // What a user's call brings about
  // ---------------------------------------------------------------------------------------

  /** The event was refused: nothing changed but perhaps the last error. */
  predicate Refused(c: Chan, r: Result) {
    r.c == c && (r.status.Error? || r.status.ErrorCatchAll?) && r.reply.NoReply?
  }

  /** CONNECT is taken before anything else, with an address or a descriptor, and to encrypt a plain connection. */
  lemma ConnectTaken(c: Chan, arg: ConnArg, env: Env)
    requires c.request.NoRequest?
    ensures var r := Dispatched(c, EvConnect(arg), env);
            && (r.status.Success? <==>
                  || (c.leaf.Init? && (c.desc.serverSet || c.desc.fd >= 0))
                  || (c.leaf.PlainTcp? && (arg.kind.KindClient? || arg.kind.KindServer?)))
            && (r.status.Success? ==>
                  r.c.leaf == if c.leaf.PlainTcp? then CryptoConn else if c.desc.fd >= 0 then PlainConn else Lookup)
            && (r.c.leaf.CryptoConn? && r.status.Success? ==> r.c.cryptoConn == arg)
            && (r.c.leaf.PlainConn? && r.status.Success? ==> r.c.plainConn == arg)
            && (r.c.leaf.Lookup? && r.status.Success? ==> r.c.lookup == arg)
            && (!r.status.Success? ==> Refused(c, r))
  {
    hide Handled, Moved;
    DispatchedTo(c, EvConnect(arg), env);
    ConnectAsks(c, arg, env);
    var h := Handled(c, EvConnect(arg), env).c;
    if !h.request.NoRequest? {
      MovedArg(h, env);
    }
  }

  lemma ConnectAsks(c: Chan, arg: ConnArg, env: Env)
    requires c.request.NoRequest?
    ensures var r := Handled(c, EvConnect(arg), env);
            && (r.status.Success? <==> !r.c.request.NoRequest?) && (!r.status.Success? ==> Refused(c, r))
            && r.c.request == if c.leaf.Init? && c.desc.fd >= 0 then ToPlainConn(arg)
                              else if c.leaf.Init? && c.desc.serverSet then ToLookup(arg)
                              else if c.leaf.PlainTcp? && !arg.kind.KindPlain? then ToCryptoConn(arg)
                              else NoRequest
  {
    hide GoTo, Sched, WatchReset, ConnectError, HandleRead, HandleWrite, ProcessDeferred, DoRenegotiate, DoHandshake,
      DoShutdown, BytesReady;
    GoesTo(c, ToLookup(arg));
    GoesTo(c, ToPlainConn(arg));
    GoesTo(c, ToCryptoConn(arg));
  }

  lemma GoesTo(c: Chan, req: Request)
    requires !req.NoRequest?
    ensures GoTo(c, req).request == req && GoTo(c, req).io == c.io && GoTo(c, req).calls == c.calls
    ensures GoTo(c, req).desc == c.desc && GoTo(c, req).leaf == c.leaf && GoTo(c, req).shutPhase == c.shutPhase
  {
  }

  /** SET_CONN_FD is taken in INIT, for a real descriptor, before any address or other descriptor. */
  lemma SetConnFdTaken(c: Chan, fd: int, keep: bool, env: Env)
    requires c.request.NoRequest?
    ensures var r := Dispatched(c, EvSetConnFd(fd, keep), env);
            && (r.status.Success? <==>
                  c.leaf.Init? && fd >= 0 && c.desc.fd < 0 && !c.desc.serverSet && !c.desc.bindSet)
            && (r.status.Success? ==>
                  r.c.leaf.Init? && r.c.desc.fd == fd && r.c.desc.doNotClose == keep && r.c.desc.fdIsUserProvided)
            && (!r.status.Success? ==> Refused(c, r))
  {
    hide Moved, GoTo;
    DispatchedTo(c, EvSetConnFd(fd, keep), env);
  }

  /** SET_SERVER is taken in INIT, once, before a descriptor. */
  lemma SetServerTaken(c: Chan, env: Env)
    requires c.request.NoRequest?
    ensures var r := Dispatched(c, EvSetServer, env);
            && (r.status.Success? <==> c.leaf.Init? && c.desc.fd < 0 && !c.desc.serverSet)
            && (r.status.Success? ==> r.c == c.(desc := c.desc.(serverSet := true)))
            && (!r.status.Success? ==> Refused(c, r))
  {
    hide Moved, GoTo;
    DispatchedTo(c, EvSetServer, env);
  }

  /** SET_SOCK_BIND is taken in INIT, once, before a descriptor. */
  lemma SetSockBindTaken(c: Chan, env: Env)
    requires c.request.NoRequest?
    ensures var r := Dispatched(c, EvSetSockBind, env);
            && (r.status.Success? <==> c.leaf.Init? && c.desc.fd < 0 && !c.desc.bindSet)
            && (r.status.Success? ==> r.c == c.(desc := c.desc.(bindSet := true)))
            && (!r.status.Success? ==> Refused(c, r))
  {
    hide Moved, GoTo;
    DispatchedTo(c, EvSetSockBind, env);
  }

  /** RENEGOTIATE is taken in CRYPTO_SSL; only a server can wait for the client. */
  lemma RenegotiateTaken(c: Chan, wait: bool, cb: Cb, env: Env)
    requires c.request.NoRequest?
    ensures var r := Dispatched(c, EvRenegotiate(wait, cb), env);
            && (r.status.Success? <==> c.leaf.CryptoSsl? && (!wait || c.server))
            && (r.status.Success? ==> r.c == Moved(GoTo(c, ToReneg(wait, cb)), env) && r.c.leaf.CryptoReneg?)
            && (!r.status.Success? ==> Refused(c, r))
  {
    hide Moved, GoTo;
    DispatchedTo(c, EvRenegotiate(wait, cb), env);
    GoesTo(c, ToReneg(wait, cb));
  }

  /** SHUT_CRYPTO is taken in CRYPTO_SSL and CRYPTO_RENEG, and to make a one-way shutdown a two-way one. */
  lemma ShutCryptoTaken(c: Chan, how: ShutHow, cb: Cb, env: Env)
    requires c.request.NoRequest?
    ensures var r := Dispatched(c, EvShutCrypto(how, cb), env);
            && (r.status.Success? <==>
                  || c.leaf.CryptoSsl? || c.leaf.CryptoReneg?
                  || (c.leaf.CryptoShut? && c.shutHow.OneWay? && how.TwoWay?))
            && (r.status.Success? ==> r.c == Moved(GoTo(c, ToCryptoShut(how, cb)), env) && r.c.leaf.CryptoShut?)
            && (!r.status.Success? ==> Refused(c, r))
  {
    hide Moved, GoTo;
    DispatchedTo(c, EvShutCrypto(how, cb), env);
    GoesTo(c, ToCryptoShut(how, cb));
  }

  /** RESUME_PLAINTEXT is taken exactly when the shutdown has succeeded and both alerts have passed. */
  lemma ResumeTaken(c: Chan, env: Env)
    requires c.request.NoRequest?
    ensures var r := Dispatched(c, EvResumePlaintext, env);
            && (r.status.Success? <==>
                  c.leaf.CryptoShut? && c.shutPhase.ShutSuccess? && c.io.ssl.sent && c.io.ssl.received)
            && (r.status.Success? ==> r.c.leaf.PlainTcp?) && (!r.status.Success? ==> Refused(c, r))
  {
    hide Moved, GoTo;
    DispatchedTo(c, EvResumePlaintext, env);
    GoesTo(c, ToPlainTcp);
  }

  /** SHUT_SOCK is taken in every connected state, and shuts unless the system refuses. */
  lemma ShutSockTaken(c: Chan, env: Env)
    requires c.request.NoRequest?
    ensures var r := Dispatched(c, EvShutSock, env);
            && (r.status.Success? <==>
                  (c.leaf.PlainTcp? || c.leaf.PlainShut? || c.leaf.InCrypto()) && env.shutErr.NoError?)
            && (r.status.Success? ==> r.c.leaf.PlainShut?) && (!r.status.Success? ==> Refused(c, r))
  {
    hide Moved, GoTo;
    DispatchedTo(c, EvShutSock, env);
    GoesTo(c, ToPlainShut);
  }

  /** CLOSE is taken everywhere: the descriptor is gone, closed unless the user keeps it. */
  lemma CloseTaken(c: Chan, env: Env)
    requires c.request.NoRequest?
    ensures var r := Dispatched(c, EvClose, env);
            && r.status.Success? && r.c.leaf.Closed? && r.c.desc.closed && r.c.desc.fd == NO_FD
            && r.c.desc.log == if c.desc.fd >= 0 && !c.desc.doNotClose then FdThen(c.desc.log, ClosedFd(c.desc.fd))
                               else c.desc.log
  {
    hide Moved;
    DispatchedTo(c, EvClose, env);
    var h := GoTo(c, ToClosed);
    assert Handled(c, EvClose, env) == Result(h, Success, NoReply);
    ClosedDesc(h, env);
  }

  lemma ClosedDesc(c: Chan, env: Env)
    requires c.request.ToClosed?
    ensures Moved(c, env).desc == CloseFd(c.desc)
  {
    hide Passage, Arrived, CloseFd;
    var d := Passage(c, Closed);
    PassageDoes(c, Closed);
    ArrivedDescIs(d, ToClosed, env);
  }

  // ---------------------------------------------------------------------------------------
  // READ and WRITE
  // ---------------------------------------------------------------------------------------

  /**
   The octets given are the reply, all that was asked for unless SSL_read stopped it; the status
   says why there are none.
   */
  predicate ReadTells(c: Chan, cnt: nat, r: Result) {
    && r.reply.ReadReply? && r.c.io.given == c.io.given + r.reply.data && |r.reply.data| <= cnt
    && (c.io.inState.Idle? && |r.reply.data| < Min(cnt, INT_MAX) ==>
          LastRead(r.c.io.ssl.log).Some? && !LastRead(r.c.io.ssl.log).value.NoError?)
    && (c.io.inState.Idle? && r.reply.data != [] ==> !Pending(r.c.io.inState))
    && (r.status.Error? <==> r.reply.how.StatusError?) && (r.status.Success? <==> !r.reply.how.StatusError?)
    && (r.reply.how.StatusNormal? <==> r.reply.data != [] || cnt == 0)
    && (r.reply.how.StatusAgain? ==> Pending(r.c.io.inState))
    && (r.reply.how.StatusEof? ==> r.c.io.inState.Failed? && r.c.io.inErr.SslCleanEof?)
    && (r.reply.how.StatusError? ==> r.c.io.inState.Failed? && !r.c.io.inErr.SslCleanEof?)
  }

  lemma ReadResultTells(c: Chan, cnt: nat)
    requires Sound(c.io)
    ensures ReadTells(c, cnt, ReadResult(c, HandleRead(c.io, cnt)))
  {
    hide HandleRead, Sound;
    ReadIsSound(c.io, cnt);
    ReadStatusTells(c.io, cnt);
    if c.io.inState.Idle? {
      ReadGivesAll(c.io, cnt);
      GivingReadWaitsNot(c.io, cnt);
    }
  }

  /** READ in CRYPTO_SSL. */
  lemma SslReadReplies(c: Chan, cnt: nat, env: Env)
    requires c.request.NoRequest? && c.leaf.CryptoSsl? && Sound(c.io)
    ensures ReadTells(c, cnt, Dispatched(c, EvRead(cnt), env))
  {
    hide Handled, Moved, HandleRead, Sound, ReadTells;
    ReadResultTells(c, cnt);
    SslReadHandled(c, cnt, env);
    NotMoved(Handled(c, EvRead(cnt), env).c, env);
  }

  lemma SslReadHandled(c: Chan, cnt: nat, env: Env)
    requires c.leaf.CryptoSsl?
            || (c.leaf.CryptoShut? && c.shutHow.OneWay? && (c.shutPhase.ShutSuccess? || c.shutPhase.ShutFlushOut?))
    ensures Handled(c, EvRead(cnt), env) == ReadResult(c, HandleRead(c.io, cnt))
  {
    hide HandleRead;
  }

  /** WRITE in CRYPTO_SSL: what the reply counts was accepted. */
  lemma SslWriteReplies(c: Chan, data: seq<byte>, env: Env)
    requires c.request.NoRequest? && c.leaf.CryptoSsl? && Sound(c.io) && NoCloseYet(c.io)
    ensures var r := Dispatched(c, EvWrite(data), env);
            && r.reply.WriteReply? && r.reply.numWritten <= |data|
            && r.c.io.accepted == c.io.accepted + data[..r.reply.numWritten]
            && (r.status.Error? <==> r.reply.how.StatusError?) && (r.status.Success? <==> !r.reply.how.StatusError?)
            && (r.reply.how.StatusNormal? <==> !c.io.outState.Failed? && (r.reply.numWritten > 0 || data == []))
            && (r.reply.how.StatusAgain? <==> Pending(c.io.outState) && data != [])
            && (c.io.outState.Idle? && WroteAll(c.io.ssl.log, r.c.io.ssl.log) ==>
                  r.reply.numWritten == Min(|data|, INT_MAX))
  {
    hide Moved, HandleWrite, Sound;
    DispatchedTo(c, EvWrite(data), env);
    WriteIsSound(c.io, data);
    if c.io.outState.Idle? && data != [] {
      WriteTakesAll(c.io, data);
    }
  }

  /** READ while renegotiating: all of what is there, up to what is asked for, unless the input fails. */
  lemma RenegReadReplies(c: Chan, cnt: nat, env: Env)
    requires c.request.NoRequest? && c.leaf.CryptoReneg? && RenegRest(c.io, c.reneg)
    ensures var r := Dispatched(c, EvRead(cnt), env);
            var ready := c.io.ssl.pending + (if c.io.held then 1 else 0);
            && r.reply.ReadReply?
            && (ready == 0 && cnt > 0 ==> r.reply == ReadReply([], StatusAgain) && r.c == c && r.status.Success?)
            && (ready > 0 && c.io.inState.Idle? ==>
                  |r.reply.data| == Min(Min(cnt, ready), INT_MAX) || r.c.io.inState.Failed?)
            && r.c.io.given == c.io.given + r.reply.data
            && (ready > 0 ==> GoesOnReneg(c, r.c))
  {
    hide Handled, RenegRead, RenegRest;
    DispatchedTo(c, EvRead(cnt), env);
    RenegReadHandled(c, cnt, env);
    RenegReadGives(c, cnt);
    RenegReadResumes(c, cnt);
  }

  /**
   The renegotiation went on: an end is left to the timer to report, and a handshake with nothing
   to be read first was tried.
   */
  predicate GoesOnReneg(c: Chan, d: Chan) {
    && (d.reneg.phase.RenegDone? ==> d.io.timer)
    && (c.reneg.phase.RenegHandshake? && !(c.reneg.server && c.reneg.waitForClient)
        && d.io.ssl.pending == 0 && !d.io.held ==>
          HandshakeEnds(d.io, d.reneg))
  }

  lemma RenegReadHandled(c: Chan, cnt: nat, env: Env)
    requires c.request.NoRequest? && c.leaf.CryptoReneg?
    ensures Handled(c, EvRead(cnt), env) == RenegRead(c, cnt) && RenegRead(c, cnt).c.request.NoRequest?
  {
    hide HandleRead, DoRenegotiate, BytesReady;
  }

  lemma RenegReadGives(c: Chan, cnt: nat)
    requires RenegRest(c.io, c.reneg)
    ensures var r := RenegRead(c, cnt); var ready := c.io.ssl.pending + (if c.io.held then 1 else 0);
            && r.reply.ReadReply?
            && (ready == 0 && cnt > 0 ==> r == Result(c, Success, ReadReply([], StatusAgain)))
            && (ready > 0 && c.io.inState.Idle? ==>
                  |r.reply.data| == Min(Min(cnt, ready), INT_MAX) || r.c.io.inState.Failed?)
            && r.c.io.given == c.io.given + r.reply.data
  {
    hide HandleRead, DoRenegotiate, RenegRest;
    var ready := BytesReady(c.io);
    if !(ready == 0 && cnt > 0) {
      RenegReadsThenGoesOn(c.io, c.reneg, if ready < cnt then ready else cnt);
    }
  }

  lemma RenegReadResumes(c: Chan, cnt: nat)
    ensures c.io.ssl.pending + (if c.io.held then 1 else 0) > 0 ==> GoesOnReneg(c, RenegRead(c, cnt).c)
  {
    hide HandleRead, DoRenegotiate, HandshakeEnds;
    var ready := BytesReady(c.io);
    if ready > 0 {
      var s := HandleRead(c.io, if ready < cnt then ready else cnt).io;
      RenegReadGoesOn(s, c.reneg);
      var (t, r) := DoRenegotiate(s, c.reneg);
      EndsUnderTimer(t, r);
    }
  }

  lemma EndsUnderTimer(t: Io, r: Reneg)
    ensures HandshakeEnds(t, r) == HandshakeEnds(t.(timer := true), r)
  {
  }

  lemma RenegReadsThenGoesOn(s: Io, r: Reneg, n: nat)
    requires RenegRest(s, r) && n <= BytesReady(s)
    ensures var o := HandleRead(s, n); var t := DoRenegotiate(o.io, r).0;
            && t.given == s.given + o.data && (t.inState.Failed? <==> o.io.inState.Failed?)
            && (s.inState.Idle? ==> |o.data| == Min(n, INT_MAX) || o.io.inState.Failed?)
  {
    hide HandleRead, DoRenegotiate, Sound, RenegRest, NoTransport, NoCloseYet, Onward;
    RenegRestTells(s, r);
    ReadIsSound(s, n);
    if s.inState.Idle? {
      LimitedReadGives(s, n);
    }
    RenegReads(s, r, n);
    RenegotiateFrame(HandleRead(s, n).io, r);
  }

  lemma RenegReadGoesOn(s: Io, r: Reneg)
    ensures var (t, r') := DoRenegotiate(s, r);
            r.phase.RenegHandshake? && !(r.server && r.waitForClient) && t.ssl.pending == 0 && !t.held ==>
              HandshakeEnds(t, r')
  {
    hide DoRenegotiate, RenegShake, HandshakeEnds;
    if r.phase.RenegHandshake? && !(r.server && r.waitForClient) {
      RenegotiationGoesOn(s, r);
      HandshakePhaseGoes(s, r);
      ShakeKeepsHeld(s, r);
      if BytesReady(s) == 0 {
        HandshakeOnce(s, r);
      }
    }
  }

  lemma ShakeKeepsHeld(s: Io, r: Reneg)
    ensures RenegShake(s, r).0.held == s.held
  {
    hide Handshake, Peek, RenegotiatePending;
  }

  lemma RenegotiateFrame(s: Io, r: Reneg)
    requires Sound(s) && !r.err.IsDeferral()
    ensures var t := DoRenegotiate(s, r).0;
            t.given == s.given && t.accepted == s.accepted && t.inState == s.inState && t.outState == s.outState
  {
    hide DoRenegotiate, Sound;
    DoRenegotiateIsSound(s, r);
  }

  /** WRITE in the other states of the crypto mode. */
  lemma OtherWriteReplies(c: Chan, data: seq<byte>, env: Env)
    requires c.request.NoRequest?
    ensures c.leaf.CryptoReneg? ==>
              Dispatched(c, EvWrite(data), env) == Result(c, Success, WriteReply(0, StatusAgain))
    ensures c.leaf.CryptoShut? || c.leaf.CryptoConn? ==>
              Refused(c, Dispatched(c, EvWrite(data), env))
  {
    hide Moved, GoTo;
    DispatchedTo(c, EvWrite(data), env);
  }

  /**
   READ while shutting down: both ways there is nothing to read, and in the end that is the end
   of file; one way octets are given while flushing and after success.
   */
  lemma ShutReadReplies(c: Chan, cnt: nat, env: Env)
    requires c.request.NoRequest? && c.leaf.CryptoShut?
    ensures c.shutHow.TwoWay? ==>
              Dispatched(c, EvRead(cnt), env)
                == Result(c, Success, ReadReply([], if c.shutPhase.ShutSuccess? then StatusEof else StatusAgain))
    ensures c.shutHow.OneWay? && !c.shutPhase.ShutSuccess? && !c.shutPhase.ShutFlushOut? ==>
              Dispatched(c, EvRead(cnt), env) == Result(c, Success, ReadReply([], StatusAgain))
    ensures c.shutHow.OneWay? && (c.shutPhase.ShutSuccess? || c.shutPhase.ShutFlushOut?) && Sound(c.io) ==>
              ReadTells(c, cnt, Dispatched(c, EvRead(cnt), env))
  {
    hide Handled, Moved, HandleRead, Sound, ReadTells;
    if c.shutHow.OneWay? && (c.shutPhase.ShutSuccess? || c.shutPhase.ShutFlushOut?) {
      if Sound(c.io) {
        ReadResultTells(c, cnt);
        SslReadHandled(c, cnt, env);
        NotMoved(Handled(c, EvRead(cnt), env).c, env);
      }
    } else {
      ShutReadHandled(c, cnt, env);
      NotMoved(Handled(c, EvRead(cnt), env).c, env);
    }
  }

  /** READ and WRITE are refused once the channel has failed, and until it is connected. */
  lemma FailedReplies(c: Chan, cnt: nat, data: seq<byte>, env: Env)
    requires c.request.NoRequest?
    requires c.leaf.PlainFail? || c.leaf.CryptoFail? || c.leaf.Init? || c.leaf.Lookup? || c.leaf.PlainConn?
    ensures Refused(c, Dispatched(c, EvRead(cnt), env)) && Refused(c, Dispatched(c, EvWrite(data), env))
  {
    hide Handled, Moved;
    RefusesIo(c, cnt, data, env);
    NotMoved(c, env);
  }

  lemma RefusesIo(c: Chan, cnt: nat, data: seq<byte>, env: Env)
    requires c.leaf.PlainFail? || c.leaf.CryptoFail? || c.leaf.Init? || c.leaf.Lookup? || c.leaf.PlainConn?
    ensures Handled(c, EvRead(cnt), env) == Result(c, ErrorCatchAll, NoReply)
    ensures Handled(c, EvWrite(data), env) == Result(c, ErrorCatchAll, NoReply)
  {
    hide HandleRead, HandleWrite, GoTo;
  }

  lemma ShutReadHandled(c: Chan, cnt: nat, env: Env)
    requires c.leaf.CryptoShut?
    requires c.shutHow.TwoWay? || !(c.shutPhase.ShutSuccess? || c.shutPhase.ShutFlushOut?)
    ensures Handled(c, EvRead(cnt), env)
         == Result(c, Success,
                   ReadReply([], if c.shutHow.TwoWay? && c.shutPhase.ShutSuccess? then StatusEof else StatusAgain))
  {
    hide HandleRead;
  }

  // ---------------------------------------------------------------------------------------
  // Connecting
  // ---------------------------------------------------------------------------------------

  /**
   An attempt to connect begins: with the user's descriptor, or one that was made for it and is
   the machine's if it could be configured.  What failed already waits for the timer, otherwise
   the descriptor is watched until it is writable.
   */
  lemma AttemptBegins(c: Chan, env: Env)
    requires c.request.ToPlainConn?
    ensures var d := Moved(c, env);
            && d.leaf.PlainConn? && d.plainConn == c.request.arg
            && d.plainConnErr == (if c.desc.fdIsUserProvided then env.nonBlockErr
                                  else match env.sock
                                       case NoSocket(err) => err
                                       case BadConfig(_, err) => err
                                       case Socket(_, err) => err)
            && d.desc.fd == (if !c.desc.fdIsUserProvided && env.sock.Socket? then env.sock.sock else c.desc.fd)
            && d.desc.log == (if c.desc.fdIsUserProvided then c.desc.log
                              else match env.sock
                                   case NoSocket(_) => c.desc.log
                                   case BadConfig(sock, _) => FdThen(FdThen(c.desc.log, Opened(sock)), ClosedFd(sock))
                                   case Socket(sock, _) => FdThen(c.desc.log, Opened(sock)))
            && (d.plainConnErr.NoError? ==> d.io.registered == {IoOut} && !d.io.timer)
            && (!d.plainConnErr.NoError? ==> d.io.registered == {} && d.io.timer)
  {
    hide Passage;
    PassageDoes(c, PlainConn);
  }

  /** A renegotiation begins with the timer; a read that waited waits no longer, the output is untouched. */
  lemma RenegotiationBegins(c: Chan, env: Env)
    requires c.request.ToReneg? && c.leaf.InCrypto()
    ensures var d := Moved(c, env);
            && d.leaf.CryptoReneg? && d.reneg == Reneg(RenegInit, NoError, c.server, c.request.wait)
            && d.renegCb == c.request.cb && d.io.timer && d.io.registered == {}
            && d.io.inState == (if c.io.inState.WaitRead? || c.io.inState.WaitWrite? then Idle else c.io.inState)
            && d.io.outState == c.io.outState && d.io.outBuf == c.io.outBuf && d.io.Held() == c.io.Held()
            && d.io.ssl == c.io.ssl
  {
    hide Passage, Arrived;
    PassageDoes(c, CryptoReneg);
    ArrivedIoIs(Passage(c, CryptoReneg), c.request, env);
    RenegArrives(Passage(c, CryptoReneg), c.request, env);
  }

  lemma RenegArrives(c: Chan, req: Request, env: Env)
    requires req.ToReneg?
    ensures Arrived(c, req, env).renegCb == req.cb && Arrived(c, req, env).leaf.CryptoReneg?
  {
    hide RenegStart, CloseFd;
  }

  /**
   A shutdown begins with the timer and the output untouched.  Both ways a read that waited is
   given up; one way it goes on.
   */
  lemma ShutdownBegins(c: Chan, env: Env)
    requires c.request.ToCryptoShut? && c.leaf.InCrypto()
    ensures var d := Moved(c, env); var waits := c.io.inState.WaitRead? || c.io.inState.WaitWrite?;
            && d.leaf.CryptoShut? && d.shutHow == c.request.how && d.shutCb == c.request.cb && d.shutPhase.ShutInit?
            && d.io.timer && d.io.registered == {}
            && d.io.inState == (if c.request.how.TwoWay? && waits then Idle else c.io.inState)
            && (c.request.how.OneWay? || !waits ==> d.io.Held() == c.io.Held())
            && d.io.outState == c.io.outState && d.io.outBuf == c.io.outBuf && d.io.ssl == c.io.ssl
  {
    hide Passage, Arrived;
    PassageDoes(c, CryptoShut);
    ArrivedIoIs(Passage(c, CryptoShut), c.request, env);
    ArrivedLeaf(Passage(c, CryptoShut), c.request, env);
  }

  lemma ArrivedLeaf(c: Chan, req: Request, env: Env)
    requires req.ToCryptoShut?
    ensures Arrived(c, req, env).leaf.CryptoShut?
  {
    hide ShutStart, CloseFd;
  }

  /** What rests in PLAIN_CONN: the attempt's own error waits for the timer, otherwise the descriptor is watched. */
  lemma AttemptRests(c: Chan, revents: Option<GioCond>, env: Env)
    requires Inv(c) && Enabled(c, WatchReady(revents, env)) && c.leaf.PlainConn?
    ensures c.plainConnErr.NoError? ==> revents.Some?
    ensures c.calls.slot.NoCb? && c.request.NoRequest?
  {
    hide DescInv, CallsInv, RefsInv;
    SlotEmpty(c);
  }

  lemma SlotEmpty(c: Chan)
    requires Inv(c) && !c.calls.inFdWatchCb
    ensures c.calls.slot.NoCb? && c.request.NoRequest?
  {
    hide DescInv, RefsInv, IoInv, WasFired, FiredOnce;
  }

  /**
   The connection is made: the attempt had no error, the socket none unless it is the user's,
   and the poll found it writable and not broken.
   */
  predicate ConnectSucceeds(c: Chan, revents: Option<GioCond>, env: Env) {
    && c.plainConnErr.NoError? && (c.desc.fdIsUserProvided || env.soError.NoError?)
    && revents.Some? && IoOut in revents.value
    && IoErr !in revents.value && IoHup !in revents.value && IoNval !in revents.value
  }

  /** The first of the three causes. */
  function ConnectCause(c: Chan, env: Env): PslError {
    if !c.plainConnErr.NoError? then c.plainConnErr
    else if !c.desc.fdIsUserProvided && !env.soError.NoError? then env.soError
    else TcpConnect
  }

  /** What is asked for and reported after a success and after a failure. */
  predicate ConnectGoes(c: Chan, h: Chan, succeeds: bool, cause: PslError) {
    if succeeds && c.plainConn.kind.KindPlain? then
      h.request == ToPlainTcp && h.calls.slot == c.plainConn.cb && h.calls.slotErr.NoError?
    else if succeeds then h.request == ToCryptoConn(c.plainConn) && h.calls.slot.NoCb?
    else h.request == ToPlainFail(cause) && h.calls.slot == c.plainConn.cb && h.calls.slotErr == cause
  }

  lemma ConnectHandled(c: Chan, revents: Option<GioCond>, env: Env)
    requires c.leaf.PlainConn? && c.request.NoRequest? && c.calls.slot.NoCb?
    requires c.plainConnErr.NoError? ==> revents.Some?
    ensures var h := Handled(c, EvFdWatch(revents), env).c;
            ConnectGoes(c, h, ConnectSucceeds(c, revents, env), ConnectCause(c, env))
  {
    hide ConnectError, ConnectSucceeds, ConnectCause;
    ConnectErrorIs(c, revents, env);
    ConnectHandles(c, revents, env);
  }

  lemma ConnectHandles(c: Chan, revents: Option<GioCond>, env: Env)
    requires c.leaf.PlainConn? && c.request.NoRequest? && c.calls.slot.NoCb?
    ensures var err := ConnectError(c, revents, env);
            ConnectGoes(c, Handled(c, EvFdWatch(revents), env).c, err.NoError?, err)
  {
    hide ConnectError;
  }

  lemma ConnectErrorIs(c: Chan, revents: Option<GioCond>, env: Env)
    requires c.plainConnErr.NoError? ==> revents.Some?
    ensures ConnectError(c, revents, env) == if ConnectSucceeds(c, revents, env) then NoError else ConnectCause(c, env)
    ensures !ConnectSucceeds(c, revents, env) ==> !ConnectCause(c, env).NoError?
  {
    if revents.Some? {
      var failing := revents.value * FAIL_CONDITIONS;
      if failing != {} {
        var flag :| flag in failing;
        assert flag == IoErr || flag == IoHup || flag == IoNval;
      }
      assert IoErr in revents.value ==> IoErr in failing;
      assert IoHup in revents.value ==> IoHup in failing;
      assert IoNval in revents.value ==> IoNval in failing;
    }
  }

  /**
   An FD_WATCH in PLAIN_CONN: the connection is made exactly when nothing speaks against it, and
   leads on to the state that was asked for; otherwise the first of the three causes is what the
   failed state and the callback say.
   */
  lemma ConnectOutcome(c: Chan, revents: Option<GioCond>, env: Env)
    requires Inv(c) && Enabled(c, WatchReady(revents, env)) && c.leaf.PlainConn?
    ensures var d := After(c, WatchReady(revents, env)); var plain := c.plainConn.kind.KindPlain?;
            && (!d.leaf.PlainFail? <==> ConnectSucceeds(c, revents, env))
            && (!d.leaf.PlainFail? ==>
                  && d.leaf == (if plain then PlainTcp else CryptoConn) && (!plain ==> d.cryptoConn == c.plainConn)
                  && Reported(c, d, if plain then c.plainConn.cb else NoCb, NoError))
            && (d.leaf.PlainFail? ==>
                  d.failErr == ConnectCause(c, env) && Reported(c, d, c.plainConn.cb, ConnectCause(c, env)))
  {
    hide Inv, Enabled, After, Handled, Moved, ConnectSucceeds, ConnectCause;
    AttemptRests(c, revents, env);
    ConnectHandled(Marked(c), revents, env);
    WatchedTo(c, revents, env);
    MarkedSame(c, revents, env);
    MovedArg(Handled(Marked(c), EvFdWatch(revents), env).c, env);
  }

  lemma MarkedSame(c: Chan, revents: Option<GioCond>, env: Env)
    ensures ConnectSucceeds(Marked(c), revents, env) == ConnectSucceeds(c, revents, env)
    ensures ConnectCause(Marked(c), env) == ConnectCause(c, env)
  {
  }

  /**
   The end of a lookup: with an address the connection is attempted; otherwise the channel fails,
   and a failed lookup is reported.
   */
  lemma LookupOutcome(c: Chan, result: LookupResult, env: Env)
    requires Inv(c) && Enabled(c, LookupEnds(result, env))
    ensures var d := After(c, LookupEnds(result, env));
            match result
            case Address => d.leaf.PlainConn? && d.plainConn == c.lookup && d.calls.fired == c.calls.fired
            case NoAddress => d.leaf.PlainFail? && d.failErr == BadServAddr && d.calls.fired == c.calls.fired
            case LookupFails(err) => d.leaf.PlainFail? && d.failErr == err && Reported(c, d, c.lookup.cb, err)
  {
    hide Handled, Dispatched, Inv, Moved;
    AfterHolds(c, LookupEnds(result, env));
    InvClosed(After(c, LookupEnds(result, env)));
    SlotlessLookup(c);
    DispatchedTo(c, EvLookupDone(result), env);
    LookupChangesCalls(c, result, env);
    LookupHandled(c, result, env);
    MovedArg(Handled(c, EvLookupDone(result), env).c, env);
    if result.LookupFails? {
      LookupFailsTo(c, result.err, env);
    }
  }

  lemma LookupHandled(c: Chan, result: LookupResult, env: Env)
    requires c.leaf.Lookup? && c.request.NoRequest?
    ensures var h := Handled(c, EvLookupDone(result), env).c;
            && h.calls == c.calls
            && h.request == match result
                            case Address => ToPlainConn(c.lookup)
                            case NoAddress => ToPlainFail(BadServAddr)
                            case LookupFails(err) => ToPlainFail(err)
  {
  }

  lemma SlotlessLookup(c: Chan)
    requires Inv(c)
    ensures c.request.NoRequest?
  {
  }

  // ---------------------------------------------------------------------------------------
  // Handshake, renegotiation and shutdown
  // ---------------------------------------------------------------------------------------

  /** Ways out of a crypto state on which no call is made. */
  lemma MovedSsl(c: Chan, env: Env)
    requires c.leaf.InCrypto()
    requires c.request.ToCryptoFail? || c.request.ToPlainTcp?
             || (c.request.ToCryptoSsl? && !Pending(c.io.inState) && !Pending(c.io.outState))
    ensures Moved(c, env).io.ssl == c.io.ssl && Moved(c, env).io.outErr == c.io.outErr
    ensures Moved(c, env).io.outState == c.io.outState
  {
    hide Passage, Arrived, ProcessDeferred;
    var d := Passage(c, c.request.Target());
    PassageDoes(c, c.request.Target());
    ArrivedIoIs(d, c.request, env);
    if c.request.ToCryptoSsl? {
      NothingDeferred(d.io);
    }
  }

  /** The crypto mode has failed with `err`: that is the callback's error and the failed state's. */
  predicate Fails(h: Chan, cb: Cb, err: PslError) {
    h.request == ToCryptoFail(err) && h.calls.slot == cb && h.calls.slotErr == err
  }

  /** One handshake call was made after `calls`, and what it said decides what is asked for next. */
  predicate ConnSays(c: Chan, h: Chan, calls: Log) {
    var log := h.io.ssl.log;
    && log.Then? && log.before == calls && log.last.HandshakeCall?
    && var err := log.last.err;
       && (err.NoError? ==> h.request.ToCryptoSsl? && h.calls.slot == c.cryptoConn.cb && h.calls.slotErr.NoError?)
       && (err.IsFatal() ==> Fails(h, c.cryptoConn.cb, err))
       && (err.IsDeferral() ==> h.request.NoRequest? && h.calls.slot.NoCb?
                                && h.io.registered == if err.SslWantRead? then {IoIn} else {IoOut})
  }

  /** One round of CRYPTO_CONN, after its setup: what the handshake said. */
  lemma ConnRoundTells(c: Chan)
    requires c.request.NoRequest? && c.calls.slot.NoCb? && WatchCoherent(c.io)
    ensures var h := ConnRound(c, NoError).c;
            h.io.inState == c.io.inState && h.io.outState == c.io.outState && h.leaf == c.leaf
            && ConnSays(c, h, c.io.ssl.log)
  {
    hide DoHandshake, WatchCoherent;
    HandshakeWatches(c.io);
    HandshakeFrame(c.io);
  }

  lemma HandshakeFrame(s: Io)
    ensures var t := DoHandshake(s).io; t.inState == s.inState && t.outState == s.outState
  {
    hide Handshake;
  }

  /** What rests in CRYPTO_CONN. */
  lemma ConnRests(c: Chan, revents: Option<GioCond>, env: Env)
    requires Inv(c) && Enabled(c, WatchReady(revents, env)) && c.leaf.CryptoConn?
    ensures c.calls.slot.NoCb? && c.request.NoRequest? && c.io.inState.Idle? && c.io.outState.Idle?
    ensures c.started ==> WatchCoherent(c.io)
    ensures env.setup.SetupFails? ==> env.setup.err.IsFatal()
  {
    hide DescInv, CallsInv, RefsInv, Sound, WatchFires;
    SlotEmpty(c);
  }

  lemma ConnHandled(c: Chan, revents: Option<GioCond>, env: Env)
    requires c.leaf.CryptoConn? && c.request.NoRequest? && c.calls.slot.NoCb? && (c.started ==> WatchCoherent(c.io))
    requires env.setup.SetupFails? ==> env.setup.err.IsFatal()
    ensures var h := Handled(c, EvFdWatch(revents), env).c;
            && h.leaf == c.leaf && h.io.inState == c.io.inState && h.io.outState == c.io.outState
            && (if !c.started && env.setup.SetupFails? then Fails(h, c.cryptoConn.cb, env.setup.err)
                else ConnSays(c, h, if c.started then c.io.ssl.log else NoCalls))
  {
    hide ConnRound, ConnSetup, WatchCoherent;
    RoundsTake();
    var (c1, err) := ConnSetup(c, env.setup);
    assert !ConnRound(c1, err).status.PassToParent?;
    if c.started {
      ConnRoundTells(c);
      assert Handled(c, EvFdWatch(revents), env).c == ConnRound(c, NoError).c;
    } else {
      SetupTells(c, env.setup);
      assert Handled(c, EvFdWatch(revents), env).c == ConnRound(c1, err).c;
      if env.setup.SetupOk? {
        ConnRoundTells(c1);
      }
    }
  }

  /**
   An FD_WATCH in CRYPTO_CONN: a setup that fails, or else what the handshake call said, decides
   what follows; the callback and the failed state have its error.
   */
  lemma HandshakeOutcome(c: Chan, revents: Option<GioCond>, env: Env)
    requires Inv(c) && Enabled(c, WatchReady(revents, env)) && c.leaf.CryptoConn?
    ensures var d := After(c, WatchReady(revents, env)); var log := d.io.ssl.log;
            if !c.started && env.setup.SetupFails? then
              d.leaf.CryptoFail? && d.failErr == env.setup.err && Reported(c, d, c.cryptoConn.cb, env.setup.err)
            else
              && log.Then? && log.last.HandshakeCall? && log.before == (if c.started then c.io.ssl.log else NoCalls)
              && var err := log.last.err;
                 && (d.leaf.CryptoSsl? <==> err.NoError?) && (d.leaf.CryptoFail? <==> err.IsFatal())
                 && (err.NoError? ==> Reported(c, d, c.cryptoConn.cb, NoError))
                 && (err.IsFatal() ==> d.failErr == err && Reported(c, d, c.cryptoConn.cb, err))
                 && (err.IsDeferral() ==>
                       && d.leaf.CryptoConn? && d.calls.fired == c.calls.fired
                       && d.io.registered == if err.SslWantRead? then {IoIn} else {IoOut})
  {
    hide Inv, Enabled, After, Handled, Moved, WatchCoherent;
    ConnRests(c, revents, env);
    WatchedTo(c, revents, env);
    ConnHandled(Marked(c), revents, env);
    var h := Handled(Marked(c), EvFdWatch(revents), env).c;
    if h.request.NoRequest? {
      NotMoved(h, env);
    } else {
      MovedSsl(h, env);
    }
  }

  lemma SetupTells(c: Chan, setup: SetupAnswer)
    requires c.request.NoRequest? && c.calls.slot.NoCb?
    ensures var (d, err) := ConnSetup(c, setup);
            && d.request.NoRequest? && d.calls == c.calls && d.leaf == c.leaf && d.cryptoConn == c.cryptoConn
            && WatchCoherent(d.io) && d.io.inState == c.io.inState && d.io.outState == c.io.outState
            && (setup.SetupOk? ==> err.NoError? && d.io.ssl.log == NoCalls) && (setup.SetupFails? ==> err == setup.err)
            && (!err.NoError? ==>
                  var h := ConnRound(d, err).c;
                  && Fails(h, c.cryptoConn.cb, err) && h.leaf == c.leaf
                  && h.io.inState == c.io.inState && h.io.outState == c.io.outState)
  {
    hide DoHandshake;
  }

  /** SSL_shutdown was called after `calls`, and what it said last decides what is asked for next. */
  predicate ShutSays(c: Chan, h: Chan, calls: Log) {
    && ShutdownMade(calls, h.io.ssl.log)
    && var ret, err := LastShutdown(h.io.ssl.log).last.ret, LastShutdown(h.io.ssl.log).last.err;
       if ret == 1 || (ret == 0 && err.NoError? && c.shutHow.OneWay?) then
         && !err.IsFatal() && h.calls.slot == c.shutCb && h.calls.slotErr.NoError? && h.shutPhase.ShutSuccess?
         && h.request == if c.shutCb.Cb? && c.shutCb.kind.SwitchCb? then ToPlainTcp else NoRequest
       else if err.IsFatal() then Fails(h, c.shutCb, err)
       else
         && err.IsDeferral() && h.request.NoRequest? && h.calls.slot.NoCb? && (h.shutPhase.Shut1? || h.shutPhase.Shut2?)
         && h.io.registered == if err.SslWantRead? then {IoIn} else {IoOut}
  }

  lemma ShutRoundTells(c: Chan)
    requires ShutInFlight(c) && c.request.NoRequest? && !c.io.outState.Failed?
    ensures ShutSays(c, ShutRound(c).c, c.io.ssl.log) && ShutRound(c).c.io.outState.Idle?
    ensures ShutRound(c).c.leaf == c.leaf
  {
    hide Sound, DoShutdown, ProcessDeferred, ShutRest, NothingWatched, DescInv, CallsInv, RefsInv, Rank, PhaseTells,
      Onward, LastShutdown, Size;
    var r := DoShutdown(c.io, c.shutHow, c.shutPhase);
    ShutdownWatches(c.io, c.shutHow, c.shutPhase);
    ShutdownGrows(c.io, c.shutHow, c.shutPhase);
    ShutCloses(c.io, c.shutHow, c.shutPhase);
    DeferredShutsNothing(ResetWatch(r.io), Unknown, {});
    DeferredKeepsIdle(ResetWatch(r.io));
    LastIsShutdown(r.io.ssl.log);
  }

  lemma LastIsShutdown(log: Log)
    requires log.Then? && log.last.ShutdownCall?
    ensures LastShutdown(log) == log
  {
  }

  /** An output that has failed fails the shutdown; otherwise SSL_shutdown decides. */
  predicate ShutEnds(c: Chan, h: Chan, calls: Log) {
    if h.io.outState.Failed? then
      Fails(h, c.shutCb, h.io.outErr) && LastShutdown(h.io.ssl.log) == LastShutdown(calls)
    else ShutSays(c, h, calls)
  }

  lemma ShutRoundEnds(c: Chan)
    requires ShutInFlight(c) && c.request.NoRequest?
    ensures ShutEnds(c, ShutRound(c).c, c.io.ssl.log) && !Pending(ShutRound(c).c.io.outState)
    ensures ShutRound(c).c.leaf == c.leaf
  {
    hide ShutInFlight, DoShutdown, ShutDone, ShutSays, LastShutdown;
    if !c.io.outState.Failed? {
      ShutRoundTells(c);
    }
  }

  /** What was decided by the calls since `later` was decided by those since `calls`. */
  lemma ShutEndsSince(c: Chan, d: Chan, h: Chan, calls: Log, later: Log)
    requires d.shutCb == c.shutCb && d.shutHow == c.shutHow && ShutEnds(d, h, later)
    requires Size(calls) <= Size(later) && LastShutdown(calls) == LastShutdown(later)
    ensures ShutEnds(c, h, calls)
  {
    hide LastShutdown, Size;
  }

  /** A round of the shutdown while output waits, or after. */
  predicate ShutGoes(c: Chan, h: Chan) {
    if c.shutPhase.ShutSuccess? || ((c.shutPhase.ShutInit? || c.shutPhase.ShutFlushOut?) && Pending(h.io.outState)) then
      && h.request.NoRequest? && h.calls.slot.NoCb? && LastShutdown(h.io.ssl.log) == LastShutdown(c.io.ssl.log)
      && (if c.shutPhase.ShutSuccess? then h.shutPhase.ShutSuccess? else h.shutPhase.ShutFlushOut?)
    else ShutEnds(c, h, c.io.ssl.log)
  }

  lemma ShutFlushTells(c: Chan, revents: GioCond)
    requires Rests(c, true) && c.leaf.CryptoShut? && (c.shutPhase.ShutInit? || c.shutPhase.ShutFlushOut?)
    requires c.request.NoRequest? && c.calls.slot.NoCb?
    ensures ShutGoes(c, ShutFlush(c, revents).c) && ShutFlush(c, revents).c.leaf == c.leaf
  {
    hide Rests, Sound, ProcessDeferred, ShutRound, ShutInFlight, ShutEnds, LastShutdown, Size;
    FlushStarts(c);
    var s := if c.shutPhase.ShutInit? then ResetWatch(c.io) else c.io;
    var io := ProcessDeferred(s, Unknown, revents);
    DeferredShutsNothing(s, Unknown, revents);
    DeferredExtends(s, Unknown, revents);
    ExtendsSize(c.io.ssl.log, io.ssl.log);
    if !Pending(io.outState) {
      FlushedMayShutNow(c, revents);
      var d := c.(io := ResetWatch(io), shutPhase := Shut1);
      ShutRoundEnds(d);
      ShutEndsSince(c, d, ShutRound(d).c, c.io.ssl.log, io.ssl.log);
    }
  }

  lemma ShutWatchTells(c: Chan, revents: GioCond)
    requires Rests(c, true) && c.leaf.CryptoShut? && c.request.NoRequest? && c.calls.slot.NoCb?
    ensures ShutGoes(c, ShutWatch(c, revents).c) && ShutWatch(c, revents).c.leaf == c.leaf
  {
    hide Rests, ProcessDeferred, ShutRound, ShutFlush, ShutInFlight, ShutEnds, LastShutdown;
    ShutPhaseRests(c);
    if c.shutPhase.ShutInit? || c.shutPhase.ShutFlushOut? {
      ShutFlushTells(c, revents);
    } else if c.shutPhase.ShutSuccess? {
      DeferredShutsNothing(c.io, Unknown, revents);
    } else {
      ShutMayGoOn(c);
      ShutRoundEnds(c);
    }
  }

  lemma ShutPhaseRests(c: Chan)
    requires Rests(c, true) && c.leaf.CryptoShut?
    ensures !c.shutPhase.ShutFailed? && (c.shutPhase.Shut1? || c.shutPhase.Shut2? ==> c.io.outState.Idle?)
  {
    hide DescInv, CallsInv, RefsInv, Sound;
  }

  /**
   An FD_WATCH in CRYPTO_SHUT.  While output waits nothing else happens; an output that has
   failed fails the shutdown; otherwise SSL_shutdown was called, and its last answer decides:
   success is reported, and leads back to plaintext exactly for the legacy interface; a failure
   is reported and kept; a deferral makes the watch wait for it.
   */
  lemma ShutdownOutcome(c: Chan, revents: Option<GioCond>, env: Env)
    requires Inv(c) && Enabled(c, WatchReady(revents, env)) && c.leaf.CryptoShut?
    ensures var d := After(c, WatchReady(revents, env)); var log := d.io.ssl.log;
            var legacy := c.shutCb.Cb? && c.shutCb.kind.SwitchCb?;
            if c.shutPhase.ShutSuccess?
               || ((c.shutPhase.ShutInit? || c.shutPhase.ShutFlushOut?) && Pending(d.io.outState)) then
              && d.leaf.CryptoShut? && d.calls.fired == c.calls.fired && LastShutdown(log) == LastShutdown(c.io.ssl.log)
              && (if c.shutPhase.ShutSuccess? then d.shutPhase.ShutSuccess? else d.shutPhase.ShutFlushOut?)
            else if d.io.outState.Failed? then
              && d.leaf.CryptoFail? && d.failErr == d.io.outErr && Reported(c, d, c.shutCb, d.io.outErr)
              && LastShutdown(log) == LastShutdown(c.io.ssl.log)
            else
              && ShutdownMade(c.io.ssl.log, log)
              && var ret, err := LastShutdown(log).last.ret, LastShutdown(log).last.err;
                 var done := ret == 1 || (ret == 0 && err.NoError? && c.shutHow.OneWay?);
                 && (d.leaf.PlainTcp? <==> done && legacy) && (d.leaf.CryptoFail? <==> err.IsFatal())
                 && (done && !legacy ==> d.leaf.CryptoShut? && d.shutPhase.ShutSuccess?)
                 && (done ==> Reported(c, d, c.shutCb, NoError))
                 && (err.IsFatal() ==> d.failErr == err && Reported(c, d, c.shutCb, err))
                 && (!done && !err.IsFatal() ==>
                       && d.leaf.CryptoShut? && (d.shutPhase.Shut1? || d.shutPhase.Shut2?) && err.IsDeferral()
                       && d.calls.fired == c.calls.fired
                       && d.io.registered == if err.SslWantRead? then {IoIn} else {IoOut})
  {
    hide Inv, Enabled, After, Handled, Moved, LastShutdown, Size, Rests, Proper;
    SlotFree(c, revents, env);
    StepDispatches(c, WatchReady(revents, env), Marked(c), EvFdWatch(revents), env);
    WatchedTo(c, revents, env);
    ShutHandled(Marked(c), revents, env);
    var h := Handled(Marked(c), EvFdWatch(revents), env).c;
    if h.request.NoRequest? {
      NotMoved(h, env);
    } else {
      MovedSsl(h, env);
    }
  }

  lemma SlotFree(c: Chan, revents: Option<GioCond>, env: Env)
    requires Inv(c) && Enabled(c, WatchReady(revents, env))
    ensures c.calls.slot.NoCb? && c.request.NoRequest?
  {
    hide Inv;
    SlotEmpty(c);
  }

  lemma ShutHandled(c: Chan, revents: Option<GioCond>, env: Env)
    requires Rests(c, true) && c.leaf.CryptoShut? && c.request.NoRequest? && c.calls.slot.NoCb?
    ensures ShutGoes(c, Handled(c, EvFdWatch(revents), env).c) && Handled(c, EvFdWatch(revents), env).c.leaf == c.leaf
  {
    hide ShutWatch, Rests, ShutGoes;
    ShutWatchTakes(c, Indicated(revents));
    ShutWatchTells(c, Indicated(revents));
  }

  /** How a round of the renegotiation ended decides what is asked for next. */
  predicate RenegEnds(c: Chan, h: Chan) {
    if !h.reneg.phase.RenegDone? then h.request.NoRequest? && h.calls.slot.NoCb?
    else if h.reneg.err.NoError? then
      h.request.ToCryptoSsl? && h.calls.slot == c.renegCb && h.calls.slotErr.NoError?
    else Fails(h, c.renegCb, h.reneg.err)
  }

  lemma RenegRoundEnds(c: Chan)
    requires c.request.NoRequest? && c.calls.slot.NoCb?
    ensures var h := RenegRound(c).c; var (io, r) := DoRenegotiate(c.io, c.reneg);
            RenegEnds(c, h) && h.leaf == c.leaf && h.io == io && h.reneg == r
  {
    hide DoRenegotiate;
  }

  lemma RenegHandled(c: Chan, revents: Option<GioCond>, env: Env)
    requires c.leaf.CryptoReneg?
    ensures Handled(c, EvFdWatch(revents), env).c ==
            if revents.Some? && c.reneg.phase.RenegFlushOut? then
              RenegRound(c.(io := ProcessDeferred(c.io, Unknown, revents.value))).c
            else RenegRound(c).c
  {
    hide RenegRound, ProcessDeferred;
    RoundsTake();
  }

  lemma RenegWatchEnds(c: Chan, revents: Option<GioCond>, env: Env)
    requires c.leaf.CryptoReneg? && c.request.NoRequest? && c.calls.slot.NoCb?
    ensures var h := Handled(c, EvFdWatch(revents), env).c; RenegEnds(c, h) && h.leaf == c.leaf
  {
    hide Handled, RenegRound, ProcessDeferred;
    RenegHandled(c, revents, env);
    RenegRoundEnds(c);
    RenegRoundEnds(c.(io := ProcessDeferred(c.io, Unknown, Indicated(revents))));
  }

  lemma MovedReneg(c: Chan, env: Env)
    requires c.request.NoRequest? || c.request.ToCryptoSsl? || c.request.ToCryptoFail?
    ensures Moved(c, env).reneg == c.reneg
  {
    hide Passage, Arrived;
    if !c.request.NoRequest? {
      PassageReneg(c, c.request.Target());
      ArrivedReneg(Passage(c, c.request.Target()), c.request, env);
    }
  }

  lemma PassageReneg(c: Chan, target: Leaf)
    ensures Passage(c, target).reneg == c.reneg
  {
    hide LeafRefs, SslRefs, LeftIo, NewIo;
  }

  lemma ArrivedReneg(c: Chan, req: Request, env: Env)
    requires req.ToCryptoSsl? || req.ToCryptoFail?
    ensures Arrived(c, req, env).reneg == c.reneg
  {
    hide ProcessDeferred, ResetWatch, CloseFd;
  }

  /**
   An FD_WATCH in CRYPTO_RENEG: the channel renegotiates until the last phase is over; its
   error, or success, is what is reported and where it leads.
   */
  lemma RenegOutcome(c: Chan, revents: Option<GioCond>, env: Env)
    requires Inv(c) && Enabled(c, WatchReady(revents, env)) && c.leaf.CryptoReneg?
    ensures var d := After(c, WatchReady(revents, env)); var err := d.reneg.err;
            && (d.leaf.CryptoReneg? <==> !d.reneg.phase.RenegDone?)
            && (d.leaf.CryptoReneg? ==> d.calls.fired == c.calls.fired)
            && (d.leaf.CryptoSsl? <==> d.reneg.phase.RenegDone? && err.NoError?)
            && (d.leaf.CryptoSsl? ==> Reported(c, d, c.renegCb, NoError))
            && (d.leaf.CryptoFail? <==> d.reneg.phase.RenegDone? && !err.NoError?)
            && (d.leaf.CryptoFail? ==> d.failErr == err && Reported(c, d, c.renegCb, err))
  {
    hide Inv, Enabled, After, Handled, Moved, RenegRound, ProcessDeferred;
    SlotFree(c, revents, env);
    WatchedTo(c, revents, env);
    RenegWatchEnds(Marked(c), revents, env);
    var h := Handled(Marked(c), EvFdWatch(revents), env).c;
    MovedReneg(h, env);
  }

  /** What rests in CRYPTO_RENEG. */
  lemma RenegRests(c: Chan)
    requires Inv(c) && c.leaf.CryptoReneg?
    ensures RenegRest(c.io, c.reneg)
  {
    hide DescInv, CallsInv, RefsInv, RenegRest;
  }

  /** The calls made by a round are followed by those of the state it leads to. */
  lemma MovedExtends(c: Chan, env: Env)
    requires c.leaf.InCrypto() && Sound(c.io)
    requires c.request.NoRequest? || c.request.ToCryptoFail? || c.request.ToCryptoSsl?
    ensures Extends(c.io.ssl.log, Moved(c, env).io.ssl.log)
  {
    hide Passage, Arrived, Sound, ProcessDeferred;
    if c.request.NoRequest? {
      NotMoved(c, env);
    } else {
      var d := Passage(c, c.request.Target());
      PassageDoes(c, c.request.Target());
      ArrivedIoIs(d, c.request, env);
      ResetIsOnward(c.io);
      DeferredExtends(ResetWatch(c.io), Unknown, {});
    }
  }

  /**
   An FD_WATCH in the handshake of a renegotiation, with nothing to be read first and no client
   to be waited for: a handshake call is made, and what it said decides what follows.
   */
  lemma RenegHandshakeOutcome(c: Chan, revents: Option<GioCond>, env: Env)
    requires Inv(c) && Enabled(c, WatchReady(revents, env)) && c.leaf.CryptoReneg? && c.reneg.phase.RenegHandshake?
    requires c.io.ssl.pending == 0 && !c.io.held && !(c.reneg.server && c.reneg.waitForClient)
    ensures var d := After(c, WatchReady(revents, env)); var first := FirstSince(c.io.ssl.log, d.io.ssl.log);
            && first.Some? && first.value.HandshakeCall?
            && var err := first.value.err;
               && (d.leaf.CryptoSsl? <==> err.NoError?) && (d.leaf.CryptoFail? <==> err.IsFatal())
               && (err.NoError? ==> Reported(c, d, c.renegCb, NoError))
               && (err.IsFatal() ==> d.failErr == err && Reported(c, d, c.renegCb, err))
               && (err.IsDeferral() ==>
                     && d.leaf.CryptoReneg? && d.calls.fired == c.calls.fired
                     && d.io.registered == if err.SslWantRead? then {IoIn} else {IoOut})
  {
    hide Inv, Enabled, After, Handled, Moved, RenegRound, DoRenegotiate, RenegShake, RenegEnds, Sound,
      RenegRest, Onward;
    SlotFree(c, revents, env);
    RenegRests(c);
    RenegRestTells(c.io, c.reneg);
    WatchedTo(c, revents, env);
    RenegHandled(Marked(c), revents, env);
    RenegRoundEnds(Marked(c));
    RenegOutcome(c, revents, env);
    RenegotiationGoesOn(c.io, c.reneg);
    HandshakeOnce(c.io, c.reneg);
    RenegSteps(c.io, c.reneg);
    var h := Handled(Marked(c), EvFdWatch(revents), env).c;
    RenegRestTells(h.io, h.reneg);
    RenegWatchEnds(Marked(c), revents, env);
    RenegEndsTargets(Marked(c), h);
    MovedExtends(h, env);
    MovedReneg(h, env);
    if h.request.NoRequest? {
      NotMoved(h, env);
    }
    assert FirstSince(c.io.ssl.log, h.io.ssl.log) == Some(h.io.ssl.log.last);
    ExtendsOn(c.io.ssl.log, h.io.ssl.log, After(c, WatchReady(revents, env)).io.ssl.log);
  }

  lemma RenegEndsTargets(c: Chan, h: Chan)
    requires RenegEnds(c, h)
    ensures h.request.NoRequest? || h.request.ToCryptoFail? || h.request.ToCryptoSsl?
    ensures h.request.NoRequest? <==> !h.reneg.phase.RenegDone?
  {
  }

  // ---------------------------------------------------------------------------------------
  // The lookup session
  // ---------------------------------------------------------------------------------------

  /** There is a lookup session exactly in LOOKUP. */
  predicate LooksUp(c: Chan) {
    c.lookupSes <==> c.leaf.Lookup?
  }

  lemma PassageEndsLookup(c: Chan, target: Leaf)
    ensures Passage(c, target).lookupSes == (c.lookupSes && !c.leaf.Lookup?)
  {
    hide LeafRefs, SslRefs, LeftIo, NewIo;
  }

  lemma ArrivesToLookUp(c: Chan, req: Request, env: Env)
    requires !req.NoRequest?
    ensures Arrived(c, req, env).lookupSes == (req.ToLookup? || c.lookupSes)
    ensures Arrived(c, req, env).leaf == req.Target()
  {
    hide ProcessDeferred, ResetWatch, MakeSock, CloseFd, RenegStart, ShutStart;
  }

  lemma MovedLooksUp(c: Chan, env: Env)
    requires LooksUp(c)
    ensures LooksUp(Moved(c, env))
  {
    hide Passage, Arrived;
    if !c.request.NoRequest? {
      PassageEndsLookup(c, c.request.Target());
      ArrivesToLookUp(Passage(c, c.request.Target()), c.request, env);
    }
  }

  lemma DispatchedLooksUp(c: Chan, e: Event, env: Env)
    requires LooksUp(c)
    ensures LooksUp(Dispatched(c, e, env).c)
  {
    hide Handled, Moved;
    HandledFrames(c, e, env);
    MovedLooksUp(Handled(c, e, env).c, env);
  }

  lemma AfterLooksUp(c: Chan, step: Step)
    requires LooksUp(c)
    ensures LooksUp(After(c, step))
  {
    hide Dispatched;
    match step
    case UserCall(e, env) => DispatchedLooksUp(Noted(c, CbOf(e)), e, env);
    case WatchReady(revents, env) => DispatchedLooksUp(Marked(c), EvFdWatch(revents), env);
    case LookupEnds(result, env) => DispatchedLooksUp(c, EvLookupDone(result), env);
    case WatchReturns =>
    case Finalizes(env) =>
      DispatchedLooksUp(c, EvClose, env);
      DispatchedLooksUp(if c.desc.closed then c else Dispatched(c, EvClose, env).c, EvFinalize, env);
  }

  /** At every point of every run; leaving LOOKUP, also by CLOSE, ends the session. */
  lemma {:induction false} RunsLookUp(cs: seq<Chan>, steps: seq<Step>, i: nat)
    requires IsRun(cs, steps) && i < |cs|
    ensures LooksUp(cs[i])
  {
    hide After, Enabled;
    if i > 0 {
      RunsLookUp(cs, steps, i - 1);
      assert cs[i - 1 + 1] == After(cs[i - 1], steps[i - 1]);
      AfterLooksUp(cs[i - 1], steps[i - 1]);
    }
  }

  // ---------------------------------------------------------------------------------------
  // Which side of the connection
  // ---------------------------------------------------------------------------------------

  /** From its setup on, a crypto connection is a server's exactly when CONNECT asked for one. */
  predicate SideAsAsked(c: Chan) {
    c.leaf.InCrypto() && (c.leaf.CryptoConn? ==> c.started) ==> (c.server <==> c.cryptoConn.kind.KindServer?)
  }

  predicate SameSide(c: Chan, h: Chan) {
    h.server == c.server && h.cryptoConn == c.cryptoConn && h.leaf == c.leaf && h.started == c.started
  }

  lemma RequestsKeepSide()
    ensures forall c: Chan, req: Request :: !req.NoRequest? ==> SameSide(c, GoTo(c, req))
    ensures forall c: Chan, cb: Cb, err: PslError :: SameSide(c, Sched(c, cb, err))
    ensures forall c: Chan, cb: Cb, err: PslError :: Sched(c, cb, err).request == c.request
  {
  }

  lemma ConnRoundSide(c: Chan, before: PslError)
    ensures SameSide(c, ConnRound(c, before).c)
  {
    hide DoHandshake, GoTo, Sched;
    RequestsKeepSide();
  }

  lemma ConnSide(c: Chan, e: Event, env: Env)
    requires c.leaf.CryptoConn? && c.request.NoRequest? && SideAsAsked(c)
    ensures var h := OnCryptoConn(c, e, env).c;
            SideAsAsked(h) && h.leaf == c.leaf && (!h.request.NoRequest? ==> h.started)
  {
    hide ConnRound, NewSsl, ResetWatch;
    if e.EvFdWatch? {
      var (d, err) := ConnSetup(c, env.setup);
      ConnRoundSide(c, NoError);
      ConnRoundSide(d, err);
    }
  }

  lemma EstablishedSide(c: Chan, e: Event)
    ensures SameSide(c, OnCryptoSsl(c, e).c)
  {
    hide ProcessDeferred, HandleRead, HandleWrite, GoTo;
    RequestsKeepSide();
  }

  lemma RenegRoundSide(c: Chan)
    ensures SameSide(c, RenegRound(c).c)
  {
    hide DoRenegotiate, GoTo, Sched;
    RequestsKeepSide();
    var (io, r) := DoRenegotiate(c.io, c.reneg);
    assert SameSide(c, c.(io := io, reneg := r));
  }

  lemma RenegReadSide(c: Chan, cnt: nat)
    ensures SameSide(c, RenegRead(c, cnt).c)
  {
    hide DoRenegotiate, HandleRead, BytesReady;
  }

  lemma RenegSide(c: Chan, e: Event)
    ensures SameSide(c, OnCryptoReneg(c, e).c)
  {
    hide ProcessDeferred, RenegRound, RenegRead, GoTo;
    RequestsKeepSide();
    match e
    case EvFdWatch(revents) =>
      RenegRoundSide(c);
      RenegRoundSide(c.(io := ProcessDeferred(c.io, Unknown, Indicated(revents))));
    case EvRead(cnt) => RenegReadSide(c, cnt);
    case _ =>
  }

  lemma ShutDoneSide(c: Chan)
    ensures SameSide(c, ShutDone(c).c)
  {
    hide ProcessDeferred, ResetWatch, GoTo, Sched;
    RequestsKeepSide();
  }

  lemma ShutRoundSide(c: Chan)
    ensures SameSide(c, ShutRound(c).c)
  {
    hide DoShutdown, ShutDone, GoTo, Sched;
    RequestsKeepSide();
    var r := DoShutdown(c.io, c.shutHow, c.shutPhase);
    ShutDoneSide(c.(io := r.io, shutPhase := r.phase));
  }

  lemma ShutWatchSide(c: Chan, revents: GioCond)
    ensures SameSide(c, ShutWatch(c, revents).c)
  {
    hide ProcessDeferred, ShutRound, ResetWatch;
    var io := ProcessDeferred(if c.shutPhase.ShutInit? then ResetWatch(c.io) else c.io, Unknown, revents);
    ShutRoundSide(c);
    ShutRoundSide(c.(io := ResetWatch(io), shutPhase := Shut1));
  }

  lemma ShutSide(c: Chan, e: Event)
    ensures SameSide(c, OnCryptoShut(c, e).c)
  {
    hide ShutWatch, HandleRead, GoTo;
    RequestsKeepSide();
    if e.EvFdWatch? {
      ShutWatchSide(c, Indicated(e.revents));
    }
  }

  lemma HandledSide(c: Chan, e: Event, env: Env)
    requires c.leaf.InCrypto() && c.request.NoRequest? && SideAsAsked(c)
    ensures var h := Handled(c, e, env).c;
            && SideAsAsked(h) && h.leaf == c.leaf
            && (!h.request.NoRequest? && h.request.Target().InCrypto() ==> h.leaf.CryptoConn? ==> h.started)
  {
    hide Handled, OnCryptoConn, OnCryptoSsl, OnCryptoReneg, OnCryptoShut, GoTo;
    RequestsKeepSide();
    GoToRequests(c);
    HandledOneOf(c, e, env);
    if c.leaf.CryptoConn? {
      ConnSide(c, e, env);
    }
    EstablishedSide(c, e);
    RenegSide(c, e);
    ShutSide(c, e);
  }

  lemma MovedSide(c: Chan, env: Env)
    requires c.leaf.InCrypto() && !c.request.NoRequest? && c.request.Target().InCrypto() && !c.request.ToCryptoConn?
    requires SideAsAsked(c) && (c.leaf.CryptoConn? ==> c.started)
    ensures SideAsAsked(Moved(c, env))
  {
    hide Passage, Begun, LeafEntered;
    var d := Passage(c, c.request.Target());
    PassageDoes(c, c.request.Target());
    ArrivesOnSide(d, c.request, env);
  }

  lemma ArrivesOnSide(c: Chan, req: Request, env: Env)
    requires !req.NoRequest? && !req.ToCryptoConn?
    ensures var d := Arrived(c, req, env);
            d.server == c.server && d.cryptoConn == c.cryptoConn && d.leaf == req.Target()
  {
    hide Begun, CloseFd;
    BegunKeeps(LeafEntered(c, req.Target()).(leaf := req.Target()), req, env);
    BegunKeepsConn(LeafEntered(c, req.Target()).(leaf := req.Target()), req, env);
  }

  lemma BegunKeepsConn(c: Chan, req: Request, env: Env)
    requires !req.ToCryptoConn?
    ensures Begun(c, req, env).cryptoConn == c.cryptoConn
  {
    hide ProcessDeferred, ResetWatch, MakeSock, RenegStart, ShutStart;
  }

  lemma DispatchedSide(c: Chan, e: Event, env: Env)
    requires Rests(c, e.EvFdWatch?) && Proper(c, e, env, e.EvFdWatch?) && c.leaf.InCrypto() && SideAsAsked(c)
    requires Dispatched(c, e, env).c.leaf.InCrypto()
    ensures SideAsAsked(Dispatched(c, e, env).c)
  {
    hide Handled, Moved, SideAsAsked, DescInv, CallsInv, LeafIo, IoAllows, WasFired;
    var d := Handled(c, e, env).c;
    HandledHolds(c, e, env, e.EvFdWatch?);
    HandledSide(c, e, env);
    if d.request.NoRequest? {
      NotMoved(d, env);
    } else {
      MovedCalls(d, env);
      MovedSide(d, env);
    }
  }

  lemma AfterSide(c: Chan, step: Step)
    requires Inv(c) && Enabled(c, step) && SideAsAsked(c)
    ensures SideAsAsked(After(c, step))
  {
    hide Dispatched, Holds, After, Enabled, SideAsAsked, WasFired;
    match step
    case UserCall(e, env) => AfterSideBy(c, step, Noted(c, CbOf(e)), e, env);
    case WatchReady(revents, env) => AfterSideBy(c, step, Marked(c), EvFdWatch(revents), env);
    case LookupEnds(result, env) => AfterSideBy(c, step, c, EvLookupDone(result), env);
    case WatchReturns =>
      AfterReturn(c);
      SideIndependent(c, After(c, step));
    case Finalizes(env) =>
      FinalizesFromClosed(c, env);
      FinalHasNoSide(After(c, step));
  }

  lemma SideIndependent(c: Chan, d: Chan)
    requires d == c.(calls := d.calls) && SideAsAsked(c)
    ensures SideAsAsked(d)
  {
  }

  lemma FinalHasNoSide(c: Chan)
    requires !c.leaf.InCrypto() || (c.leaf.CryptoConn? && !c.started)
    ensures SideAsAsked(c)
  {
  }

  lemma AfterSideBy(c: Chan, step: Step, c1: Chan, e: Event, env: Env)
    requires Inv(c) && Enabled(c, step) && Dispatches(c, step, c1, e, env) && SideAsAsked(c)
    ensures SideAsAsked(After(c, step))
  {
    hide Dispatched, Holds, After, Enabled, Dispatches, SideAsAsked, WasFired;
    StepDispatches(c, step, c1, e, env);
    SideIndependent(c, c1);
    var d := Dispatched(c1, e, env).c;
    if !d.leaf.InCrypto() {
      FinalHasNoSide(d);
    } else if c.leaf.InCrypto() {
      DispatchedSide(c1, e, env);
    } else {
      DispatchedEnters(c1, e, env);
      FinalHasNoSide(d);
    }
    SideIndependent(d, After(c, step));
  }

  /** At every point of every run. */
  lemma {:induction false} RunsOnSideAsAsked(cs: seq<Chan>, steps: seq<Step>, i: nat)
    requires IsRun(cs, steps) && i < |cs|
    ensures SideAsAsked(cs[i])
  {
    hide After, Enabled, Inv, SideAsAsked, Created;
    if i == 0 {
      NewIsPlain(cs[0]);
      FinalHasNoSide(cs[0]);
    } else {
      RunsOnSideAsAsked(cs, steps, i - 1);
      StepOfRun(cs, steps, i - 1);
      AfterSide(cs[i - 1], steps[i - 1]);
    }
  }

  // ---------------------------------------------------------------------------------------
  // At the steps of a run
  // ---------------------------------------------------------------------------------------

  lemma StepOfRun(cs: seq<Chan>, steps: seq<Step>, i: nat)
    requires IsRun(cs, steps) && i < |steps|
    ensures Inv(cs[i]) && Enabled(cs[i], steps[i]) && cs[i + 1] == After(cs[i], steps[i])
  {
    hide Inv, Enabled, After;
    RunHolds(cs, steps, i);
  }

  /**
   At every step of a run: an attempt to connect succeeds exactly when nothing speaks against
   it, and fails with the first of the three causes.
   */
  lemma RunsConnect(cs: seq<Chan>, steps: seq<Step>, i: nat)
    requires IsRun(cs, steps) && i < |steps| && cs[i].leaf.PlainConn? && steps[i].WatchReady?
    ensures var c, d, env := cs[i], cs[i + 1], steps[i].env;
            && (!d.leaf.PlainFail? <==> ConnectSucceeds(c, steps[i].revents, env))
            && (d.leaf.PlainFail? ==>
                  && Reported(c, d, c.plainConn.cb, d.failErr)
                  && d.failErr == if !c.plainConnErr.NoError? then c.plainConnErr
                                  else if !c.desc.fdIsUserProvided && !env.soError.NoError? then env.soError
                                  else TcpConnect)
  {
    hide Inv, Enabled, After;
    StepOfRun(cs, steps, i);
    ConnectOutcome(cs[i], steps[i].revents, steps[i].env);
  }

  /**
   At every step of a run: RESUME_PLAINTEXT leads a channel that is shutting down back to
   plaintext, and succeeds, exactly when the shutdown has succeeded and both alerts have passed;
   in any other state it is refused and changes nothing.
   */
  lemma RunsResume(cs: seq<Chan>, steps: seq<Step>, i: nat)
    requires IsRun(cs, steps) && i < |steps| && steps[i].UserCall? && steps[i].e.EvResumePlaintext?
    ensures var c, d := cs[i], cs[i + 1]; var r := Dispatched(Noted(c, NoCb), EvResumePlaintext, steps[i].env);
            && d == r.c
            && (r.status.Success? <==>
                  c.leaf.CryptoShut? && c.shutPhase.ShutSuccess? && c.io.ssl.sent && c.io.ssl.received)
            && (c.leaf.CryptoShut? ==>
                  (d.leaf.PlainTcp? <==> c.shutPhase.ShutSuccess? && c.io.ssl.sent && c.io.ssl.received))
            && (!r.status.Success? ==> d == c)
  {
    hide Inv, Dispatched;
    StepOfRun(cs, steps, i);
    SlotlessLookup(cs[i]);
    var c := Noted(cs[i], NoCb);
    assert c == cs[i];
    ResumeTaken(c, steps[i].env);
  }

  /**
   At every step of a run: a watch that is ready while the channel is shutting down leads back
   to plaintext exactly for the legacy interface, and when the SSL_shutdown just called said that
   both alerts have passed.
   */
  lemma RunsSwitch(cs: seq<Chan>, steps: seq<Step>, i: nat)
    requires IsRun(cs, steps) && i < |steps| && cs[i].leaf.CryptoShut? && steps[i].WatchReady?
    ensures var c, d := cs[i], cs[i + 1]; var last := LastShutdown(d.io.ssl.log);
            && (d.leaf.PlainTcp? <==>
                  && c.shutCb.Cb? && c.shutCb.kind.SwitchCb?
                  && ShutdownMade(c.io.ssl.log, d.io.ssl.log) && last.last.ret == 1)
            && (d.leaf.PlainTcp? ==> Reported(c, d, c.shutCb, NoError))
  {
    hide Inv, Enabled, After, LastShutdown;
    StepOfRun(cs, steps, i);
    ShutdownOutcome(cs[i], steps[i].revents, steps[i].env);
    SwitchesTwoWay(cs[i]);
    LastIsBefore(cs[i].io.ssl.log);
  }

  lemma SwitchesTwoWay(c: Chan)
    requires Inv(c) && c.leaf.CryptoShut?
    ensures LegacyTwoWay(c.shutHow, c.shutCb)
  {
    hide DescInv, CallsInv, RefsInv, ShutRest, Sound;
  }

  lemma {:induction false} LastIsBefore(log: Log)
    ensures Size(LastShutdown(log)) <= Size(log)
  {
    if log.Then? {
      LastIsBefore(log.before);
    }
  }
}
