/**
 The channel state machine as an object: handlers that update its fields, a dispatcher that
 carries events up and transitions out, and the callbacks around it.  Every method is proved
 against the function of the same purpose in ChannelState; the library's assertions appear as
 `assert` statements.  The descriptor, the shared SSL information and the multi-fd watch are
 those of a CryptoIo: what the handlers do to them is done in place by its methods.
 */
module ChannelFsm {
  import opened Common
  import opened SslOracle
  import opened DeferredIo
  import opened DeferredIoProofs
  import opened DeferredIoEngine
  import opened CryptoRest
  import opened ChannelState
  import opened ChannelInvariant
  import opened ChannelProofs
  import opened ChannelTransitions
  import opened ChannelFrames
  import opened ChannelSteps
  import opened ChannelRuns
  import W = MultiFdWatch

  /** userSettings, as far as it matters here. */
  datatype UserSettings = UserSettings(fdIsUserProvided: bool, doNotClose: bool, serverSet: bool, bindSet: bool)

  /** fdWatchInfo: the mark of being called back, and the callback to make afterwards. */
  datatype FdWatchInfo = FdWatchInfo(inFdWatchCb: bool, slot: Cb, slotErr: PslError)

  /** sslInfo, but for its I/O. */
  datatype SslInfo = SslInfo(haveSsl: bool, sslCtx: Option<nat>, server: bool)

  class Fsm {
    const io: CryptoIo
    var leaf: Leaf
    var request: Request
    var fsmFinalized: bool
    var user: UserSettings
    var fsmClosed: bool
    var watch: FdWatchInfo
    var lookup: ConnArg
    var lookupSes: bool
    var plainConn: ConnArg
    var plainConnErr: PslError
    var cryptoConn: ConnArg
    var started: bool
    var ssl: SslInfo
    var reneg: Reneg
    var renegCb: Cb
    var shutHow: ShutHow
    var shutPhase: ShutPhase
    var shutCb: Cb
    var failErr: PslError
    ghost var ctxRefs: multiset<nat>
    ghost var fdLog: FdLog
    ghost var fired: seq<Firing>
    ghost var requested: set<nat>

    ghost predicate Valid()
      reads io, io.buf, io.watch
    {
      io.Valid()
    }

    /** The shared I/O: the CryptoIo with its output buffer and its watch. */
    ghost function IoRepr(): set<object> {
      {io, io.buf, io.buf.storage, io.watch}
    }

    ghost function Repr(): set<object> {
      {this} + IoRepr()
    }

    ghost function DescView(): Desc
      reads this, io
    {
      Desc(io.fd, user.fdIsUserProvided, user.doNotClose, user.serverSet, user.bindSet, fsmClosed, fdLog)
    }

    ghost function CallsView(): Calls
      reads this
    {
      Calls(watch.inFdWatchCb, watch.slot, watch.slotErr, fired, requested)
    }

    ghost function View(): Chan
      requires Valid()
      reads this, io, io.buf, io.buf.storage, io.watch
    {
      Chan(leaf, request, fsmFinalized, DescView(), CallsView(), ctxRefs, lookup, lookupSes, plainConn, plainConnErr,
           cryptoConn, started, ssl.haveSsl, ssl.sslCtx, ssl.server, io.Abs(), reneg, renegCb, shutHow, shutPhase,
             shutCb, failErr)
    }

    constructor ()
      ensures Valid() && fresh(IoRepr()) && View() == NEW_CHAN && Inv(View())
    {
      var watch0 := new W.MultiFdWatch();
      io := new CryptoIo(NO_FD, watch0, NewSsl([]));
      leaf, request, fsmFinalized, fsmClosed := Init, NoRequest, false, false;
      user, watch := UserSettings(false, false, false, false), FdWatchInfo(false, NoCb, NoError);
      lookup, lookupSes, plainConn, plainConnErr, cryptoConn, started := NO_ARG, false, NO_ARG, NoError, NO_ARG, false;
      ssl := SslInfo(false, None, false);
      reneg, renegCb := Reneg(RenegInit, NoError, false, false), NoCb;
      shutHow, shutPhase, shutCb, failErr := OneWay, ShutInit, NoCb, NoError;
      ctxRefs, fdLog, fired, requested := multiset{}, NoActs, [], {};
      new;
      CreatedHolds(View());
    }

    // -------------------------------------------------------------------------------------
    // Transitions asked for, callbacks scheduled
    // -------------------------------------------------------------------------------------

    /** psl_sme_begin_transition, with the reference that the wrapper takes: at most one request at a time. */
    method Go(req: Request)
      requires Valid()
      requires request.NoRequest? && !req.NoRequest? && (req.ToCryptoConn? ==> IsCrypto(req.arg.kind))
      modifies this`request, this`ctxRefs
      ensures Valid()
      ensures View() == GoTo(old(View()), req)
    {
      assert request == NoRequest;
      request := req;
      ctxRefs := ctxRefs + RequestRefs(req);
    }

    /** psl_chan_fsm_sched_fdwatch_completion_cb: only within FD_WATCH, and into an empty slot. */
    method Schedule(cb: Cb, err: PslError)
      requires Valid()
      requires watch.inFdWatchCb && watch.slot.NoCb?
      modifies this`watch
      ensures Valid()
      ensures View() == Sched(old(View()), cb, err)
    {
      assert watch.inFdWatchCb && watch.slot == NoCb;
      watch := watch.(slot := cb, slotErr := err);
    }

    // -------------------------------------------------------------------------------------
    // The plain states
    // -------------------------------------------------------------------------------------

    method AdoptFd(newFd: int, keep: bool)
      requires Valid() && View().io.registered == {}
      modifies io`fd, this`user, this`fdLog
      ensures Valid()
      ensures View() == old(View()).(desc := Adopt(old(DescView()), newFd, keep))
    {
      io.SetFd(newFd);
      user := user.(fdIsUserProvided := true, doNotClose := keep);
      fdLog := if keep then fdLog else FdThen(fdLog, Adopted(newFd));
    }

    /** chan_fsm_init_state_handler */
    method HandleInit(e: Event) returns (status: Status)
      requires Valid()
      requires request.NoRequest? && View().io.registered == {}
      modifies Repr()
      ensures Valid()
      ensures Result(View(), status, NoReply) == OnInit(old(View()), e)
    {
      hide GoTo, Adopt;
      match e
      case EvConnect(arg) =>
        if !user.serverSet && io.fd < 0 {
          return Error;
        }
        if io.fd < 0 {
          Go(ToLookup(arg));
        } else {
          Go(ToPlainConn(arg));
        }
        return Success;
      case EvSetConnFd(newFd, keep) =>
        if newFd < 0 || user.serverSet || user.bindSet || io.fd >= 0 {
          return PassToParent;
        }
        AdoptFd(newFd, keep);
        return Success;
      case EvSetServer =>
        if io.fd >= 0 || user.serverSet {
          return PassToParent;
        }
        user := user.(serverSet := true);
        return Success;
      case EvSetSockBind =>
        if io.fd >= 0 || user.bindSet {
          return PassToParent;
        }
        user := user.(bindSet := true);
        return Success;
      case _ =>
        return PassToParent;
    }

    /** plain_lookup_state_handler */
    method HandleLookup(e: Event) returns (status: Status)
      requires Valid()
      requires request.NoRequest?
      modifies this`request, this`ctxRefs
      ensures Valid()
      ensures Result(View(), status, NoReply) == OnLookup(old(View()), e)
    {
      hide GoTo;
      match e
      case EvLookupDone(result) =>
        match result {
          case LookupFails(err) =>
            Go(ToPlainFail(err));
            return Error;
          case NoAddress =>
            Go(ToPlainFail(BadServAddr));
            return Error;
          case Address =>
            Go(ToPlainConn(lookup));
            return Success;
        }
      case _ =>
        return PassToParent;
    }

    /** psl_multi_fd_watch_reset */
    method ResetFdWatch()
      requires Valid()
      modifies io.watch
      ensures Valid()
      ensures View() == WatchReset(old(View()))
    {
      hide io.Abs;
      io.ClearWatch();
    }

    /** The result of the connection attempt; the socket's own error comes first. */
    method ConnectResult(revents: Option<GioCond>, env: Env) returns (err: PslError)
      requires Valid()
      requires plainConnErr.NoError? ==> revents.Some?
      ensures Valid()
      ensures err == ConnectError(View(), revents, env)
    {
      err := plainConnErr;
      if err.NoError? {
        assert revents.Some?;
        if !user.fdIsUserProvided {
          err := env.soError;
        }
        if err.NoError? {
          if IoOut !in revents.value || revents.value * FAIL_CONDITIONS != {} {
            err := TcpConnect;
          }
        }
      }
    }

    method EndAttempt(err: PslError)
      requires Valid()
      modifies io.watch, this`plainConnErr
      ensures Valid()
      ensures View() == WatchReset(old(View())).(plainConnErr := err)
    {
      ResetFdWatch();
      plainConnErr := err;
    }

    /** plain_conn_state_handler */
    method HandlePlainConn(e: Event, env: Env) returns (status: Status)
      requires Valid() && request.NoRequest?
      requires e.EvFdWatch? ==> watch.inFdWatchCb && watch.slot.NoCb? && (plainConnErr.NoError? ==> e.revents.Some?)
      modifies Repr()
      ensures Valid()
      ensures Result(View(), status, NoReply) == OnPlainConn(old(View()), e, env)
    {
      hide GoTo, Sched, ConnectError, WatchReset, io.Abs;
      if !e.EvFdWatch? {
        return PassToParent;
      }
      var err := ConnectResult(e.revents, env);
      EndAttempt(err);
      status := LeaveAttempt(err);
    }

    /** The attempt is over: the user is told, unless the handshake is to follow, and the next state asked for. */
    method LeaveAttempt(err: PslError) returns (status: Status)
      requires Valid() && request.NoRequest? && watch.inFdWatchCb && watch.slot.NoCb?
      modifies this`request, this`ctxRefs, this`watch
      ensures Valid()
      ensures var c := old(View());
              var c1 := if !err.NoError? || !IsCrypto(c.plainConn.kind) then Sched(c, c.plainConn.cb, err) else c;
              && status == (if err.NoError? then Success else Error)
              && View() == GoTo(c1, if !err.NoError? then ToPlainFail(err)
                                    else if !IsCrypto(c.plainConn.kind) then ToPlainTcp
                                    else ToCryptoConn(c.plainConn))
    {
      hide GoTo, Sched, io.Abs;
      if !err.NoError? || !IsCrypto(plainConn.kind) {
        Schedule(plainConn.cb, err);
      }
      if !err.NoError? {
        Go(ToPlainFail(err));
        return Error;
      } else if !IsCrypto(plainConn.kind) {
        Go(ToPlainTcp);
        return Success;
      } else {
        Go(ToCryptoConn(plainConn));
        return Success;
      }
    }

    /** psl_chan_fsm_plain_shut_sock_and_goto_shut_on_success */
    method ShutSocket(env: Env) returns (status: Status)
      requires Valid()
      requires request.NoRequest? && io.fd >= 0
      modifies this`request, this`ctxRefs
      ensures Valid()
      ensures Result(View(), status, NoReply) == ShutSock(old(View()), env)
    {
      hide GoTo;
      if env.shutErr.NoError? {
        Go(ToPlainShut);
        return Success;
      }
      return Error;
    }

    /** plain_tcp_state_handler */
    method HandlePlainTcp(e: Event, env: Env) returns (status: Status)
      requires Valid()
      requires request.NoRequest? && io.fd >= 0
      modifies this`request, this`ctxRefs
      ensures Valid()
      ensures Result(View(), status, NoReply) == OnPlainTcp(old(View()), e, env)
    {
      hide GoTo;
      match e
      case EvConnect(arg) =>
        if !IsCrypto(arg.kind) {
          return PassToParent;
        }
        Go(ToCryptoConn(arg));
        return Success;
      case EvRead(_) =>
        return Success;
      case EvWrite(_) =>
        return Success;
      case EvShutSock =>
        status := ShutSocket(env);
      case _ =>
        return PassToParent;
    }

    // -------------------------------------------------------------------------------------
    // CRYPTO_CONN
    // -------------------------------------------------------------------------------------

    /** crypto_create_and_config_ssl, in the first round */
    method CreateSsl(setup: SetupAnswer) returns (err: PslError)
      requires Valid()
      modifies Repr()
      ensures Valid()
      ensures (View(), err) == ConnSetup(old(View()), setup)
    {
      hide ResetWatch, io.Abs;
      BeginSetup();
      match setup
      case SetupFails(e) =>
        err := e;
      case SetupOk(script) =>
        KeepSsl(script);
        err := NoError;
    }

    method BeginSetup()
      requires Valid()
      modifies this`started, this`ssl, io`lastCond, io.watch
      ensures Valid()
      ensures var c := old(View());
              View() == c.(started := true, io := ResetWatch(c.io), server := c.cryptoConn.kind.KindServer?)
    {
      hide ResetWatch, io.Abs;
      started := true;
      io.ResetFdWatch();
      ssl := ssl.(server := cryptoConn.kind.KindServer?);
    }

    /** The new SSL object and a reference to its context are kept. */
    method KeepSsl(script: seq<Answer>)
      requires Valid()
      modifies this`ssl, this`ctxRefs, io`ssl
      ensures Valid()
      ensures var c := old(View());
              View() == c.(haveSsl := true, sslCtx := Some(c.cryptoConn.ctx),
                ctxRefs := c.ctxRefs + multiset{c.cryptoConn.ctx},
                           io := c.io.(ssl := NewSsl(script)))
    {
      hide io.Abs, NewSsl;
      TakeContext();
      io.SetSsl(NewSsl(script));
    }

    method TakeContext()
      requires Valid()
      modifies this`ssl, this`ctxRefs
      ensures Valid()
      ensures var c := old(View());
              View() == c.(haveSsl := true, sslCtx := Some(c.cryptoConn.ctx),
                ctxRefs := c.ctxRefs + multiset{c.cryptoConn.ctx})
    {
      hide io.Abs;
      ssl := ssl.(sslCtx := Some(cryptoConn.ctx), haveSsl := true);
      ctxRefs := ctxRefs + multiset{cryptoConn.ctx};
    }

    method ConnectRound(before: PslError) returns (status: Status)
      requires Valid()
      requires request.NoRequest? && watch.inFdWatchCb && watch.slot.NoCb?
      modifies Repr()
      ensures Valid()
      ensures Result(View(), status, NoReply) == ConnRound(old(View()), before)
    {
      hide GoTo, Sched, DoHandshake, io.Abs;
      var err, done := before, false;
      if err.NoError? {
        done, err := io.ShakeHands();
      }
      if !err.NoError? {
        Schedule(cryptoConn.cb, err);
        Go(ToCryptoFail(err));
        return Error;
      }
      if done {
        Schedule(cryptoConn.cb, NoError);
        Go(ToCryptoSsl);
      }
      return Success;
    }

    /** crypto_conn_state_handler */
    method HandleCryptoConn(e: Event, env: Env) returns (status: Status)
      requires Valid()
      requires request.NoRequest? && (e.EvFdWatch? ==> watch.inFdWatchCb && watch.slot.NoCb?)
      requires !started ==> !ssl.haveSsl
      modifies Repr()
      ensures Valid()
      ensures Result(View(), status, NoReply) == OnCryptoConn(old(View()), e, env)
    {
      hide ConnRound, ConnSetup;
      if !e.EvFdWatch? {
        return PassToParent;
      }
      var err := NoError;
      if !started {
        assert !ssl.haveSsl;
        err := CreateSsl(env.setup);
        SetupFrame(old(View()), env.setup);
      }
      status := ConnectRound(err);
    }

    // -------------------------------------------------------------------------------------
    // CRYPTO_SSL and CRYPTO_RENEG
    // -------------------------------------------------------------------------------------

    /** crypto_handle_READ */
    method HandleReading(cnt: nat) returns (status: Status, reply: Reply)
      requires Valid() && Healthy(View().io)
      modifies IoRepr()
      ensures Valid()
      ensures Result(View(), status, reply) == ReadResult(old(View()), HandleRead(old(View()).io, cnt))
    {
      hide HandleRead, Healthy, io.Abs;
      var data, how := io.OnRead(cnt);
      status, reply := if how.StatusError? then Error else Success, ReadReply(data, how);
    }

    /** crypto_handle_WRITE */
    method HandleWriting(data: seq<byte>) returns (status: Status, reply: Reply)
      requires Valid() && Healthy(View().io)
      modifies IoRepr()
      ensures Valid()
      ensures Result(View(), status, reply) == WriteResult(old(View()), HandleWrite(old(View()).io, data))
    {
      hide HandleWrite, Healthy, io.Abs;
      var numWritten, how := io.OnWrite(data);
      status, reply := if how.StatusError? then Error else Success, WriteReply(numWritten, how);
    }

    /** crypto_process_deferred_ssl_io after an FD_WATCH or at the start of a state */
    method RetryDeferred(revents: GioCond)
      requires Valid() && Healthy(View().io)
      modifies IoRepr()
      ensures Valid()
      ensures View() == old(View()).(io := ProcessDeferred(old(View()).io, Unknown, revents))
    {
      hide ProcessDeferred, Healthy, io.Abs;
      io.ProcessDeferredIo(Unknown, revents);
    }

    /** crypto_reset_multi_fd_watch */
    method ResetCryptoWatch()
      requires Valid()
      modifies io`lastCond, io.watch
      ensures Valid()
      ensures View() == old(View()).(io := ResetWatch(old(View()).io))
    {
      hide ResetWatch, io.Abs;
      io.ResetFdWatch();
    }

    /** crypto_ssl_state_handler */
    method HandleCryptoSsl(e: Event) returns (status: Status, reply: Reply)
      requires Valid()
      requires request.NoRequest? && (e.EvFdWatch? ==> e.revents.Some?) && Healthy(View().io)
      modifies IoRepr(), this`request, this`ctxRefs
      ensures Valid()
      ensures Result(View(), status, reply) == OnCryptoSsl(old(View()), e)
    {
      hide HandleRead, HandleWrite, ProcessDeferred, GoTo, ReadResult, WriteResult, Healthy, io.Abs;
      status, reply := Success, NoReply;
      match e
      case EvFdWatch(revents) =>
        assert revents.Some?;
        RetryDeferred(revents.value);
      case EvRead(cnt) =>
        status, reply := HandleReading(cnt);
      case EvWrite(data) =>
        status, reply := HandleWriting(data);
      case EvRenegotiate(wait, cb) =>
        if wait && !ssl.server {
          status := Error;
        } else {
          Go(ToReneg(wait, cb));
        }
      case EvShutCrypto(how, cb) =>
        Go(ToCryptoShut(how, cb));
      case _ =>
        status := PassToParent;
    }

    /** crypto_do_renegotiate */
    method Renegotiate() returns (done: bool)
      requires Valid()
      modifies IoRepr(), this`reneg
      ensures Valid()
      ensures var (s, r) := DoRenegotiate(old(View()).io, old(reneg));
              View() == old(View()).(io := s, reneg := r) && (done <==> r.phase.RenegDone?)
    {
      hide DoRenegotiate, io.Abs;
      reneg, done := io.RunRenegotiation(reneg);
    }

    /** The FD_WATCH of CRYPTO_RENEG after the flushing. */
    method RenegotiationRound() returns (status: Status)
      requires Valid()
      requires request.NoRequest? && watch.inFdWatchCb && watch.slot.NoCb?
      modifies Repr()
      ensures Valid()
      ensures Result(View(), status, NoReply) == RenegRound(old(View()))
    {
      hide DoRenegotiate, GoTo, Sched, io.Abs;
      var done := Renegotiate();
      if done {
        assert reneg.phase.RenegDone?;
        Schedule(renegCb, reneg.err);
        if !reneg.err.NoError? {
          Go(ToCryptoFail(reneg.err));
        } else {
          Go(ToCryptoSsl);
        }
      }
      return Success;
    }

    /** The READ of CRYPTO_RENEG when something is ready, or nothing was asked for. */
    method ReadReady(cnt: nat) returns (status: Status, reply: Reply)
      requires Valid()
      requires Rests(View(), false) && leaf.CryptoReneg? && cnt <= BytesReady(View().io)
      modifies IoRepr(), this`reneg
      ensures Valid()
      ensures var o := HandleRead(old(View()).io, cnt);
              var (s, r) := DoRenegotiate(o.io, old(reneg));
              Result(View(), status, reply) ==
                ReadResult(old(View()).(reneg := r), o.(io := if r.phase.RenegDone? then s.(timer := true) else s))
    {
      hide DoRenegotiate, HandleRead, Rests, BytesReady, Healthy;
      RestIsHealthy(View(), false);
      ReadKept(View(), cnt);
      status, reply := HandleReading(cnt);
      assert !Pending(io.inState);
      var done := Renegotiate();
      if done {
        io.StartTimer();
      }
    }

    /** The READ of CRYPTO_RENEG: what is ready and no more. */
    method RenegotiationRead(cnt: nat) returns (status: Status, reply: Reply)
      requires Valid()
      requires Rests(View(), false) && leaf.CryptoReneg?
      modifies IoRepr(), this`reneg
      ensures Valid()
      ensures Result(View(), status, reply) == RenegRead(old(View()), cnt)
    {
      hide DoRenegotiate, HandleRead, Rests, BytesReady, ReadResult, io.Abs;
      var numAvailable := io.TotalInputBytesReady();
      if numAvailable == 0 && cnt > 0 {
        return Success, ReadReply([], StatusAgain);
      }
      status, reply := ReadReady(if numAvailable < cnt then numAvailable else cnt);
    }

    /** crypto_renegotiate_state_handler */
    method HandleCryptoReneg(e: Event) returns (status: Status, reply: Reply)
      requires Valid()
      requires Rests(View(), e.EvFdWatch?) && leaf.CryptoReneg?
      modifies Repr()
      ensures Valid()
      ensures Result(View(), status, reply) == OnCryptoReneg(old(View()), e)
    {
      hide ProcessDeferred, RenegRound, RenegRead, GoTo, Holds, Healthy, io.Abs;
      RestIsHealthy(View(), e.EvFdWatch?);
      status, reply := Success, NoReply;
      match e
      case EvFdWatch(revents) =>
        if revents.Some? && reneg.phase.RenegFlushOut? {
          RetryDeferred(revents.value);
        }
        status := RenegotiationRound();
      case EvRead(cnt) =>
        status, reply := RenegotiationRead(cnt);
      case EvWrite(_) =>
        reply := WriteReply(0, StatusAgain);
      case EvShutCrypto(how, cb) =>
        Go(ToCryptoShut(how, cb));
      case _ =>
        status := PassToParent;
    }

    // -------------------------------------------------------------------------------------
    // CRYPTO_SHUT
    // -------------------------------------------------------------------------------------

    /** After success: the callback is scheduled; a legacy request goes on to plaintext. */
    method FinishShutdown() returns (status: Status)
      requires Valid() && Healthy(View().io)
      requires request.NoRequest? && watch.inFdWatchCb && watch.slot.NoCb? && LegacyTwoWay(shutHow, shutCb)
      modifies Repr()
      ensures Valid()
      ensures Result(View(), status, NoReply) == ShutDone(old(View()))
    {
      hide GoTo, Sched, ProcessDeferred, ResetWatch, Healthy, io.Abs;
      ResetIsHealthy(View().io);
      Schedule(shutCb, NoError);
      if shutCb.Cb? && shutCb.kind.SwitchCb? {
        assert shutHow == TwoWay;
        Go(ToPlainTcp);
        return Success;
      }
      ResetCryptoWatch();
      if shutHow.OneWay? {
        RetryDeferred({});
      }
      return Success;
    }

    /** crypto_do_shutdown, with the phase it has come to. */
    method CloseNotify() returns (err: PslError)
      requires Valid() && ShutInFlight(View()) && !View().io.outState.Failed?
      modifies IoRepr(), this`shutPhase
      ensures Valid()
      ensures var c := old(View()); var r := DoShutdown(c.io, c.shutHow, c.shutPhase);
              View() == c.(io := r.io, shutPhase := r.phase) && err == r.err && Healthy(r.io)
      ensures err.NoError? ==> !shutPhase.ShutFailed?
    {
      hide DoShutdown, DescInv, CallsInv, RefsInv, Sound, Healthy, io.Abs;
      ShutTells(View());
      shutPhase, err := io.Shut(shutHow, shutPhase);
    }

    /** The part of FD_WATCH that calls SSL_shutdown. */
    method ShutdownRound() returns (status: Status)
      requires Valid()
      requires ShutInFlight(View())
      modifies Repr()
      ensures Valid()
      ensures Result(View(), status, NoReply) == ShutRound(old(View()))
    {
      hide GoTo, Sched, DoShutdown, ShutDone, DescInv, CallsInv, RefsInv, Sound, Healthy;
      if io.outState.Failed? {
        Schedule(shutCb, io.outErr);
        Go(ToCryptoFail(io.outErr));
        return Error;
      }
      var err := CloseNotify();
      if !err.NoError? {
        Schedule(shutCb, err);
        Go(ToCryptoFail(err));
        return Error;
      }
      assert shutPhase != ShutFailed;
      if shutPhase.ShutSuccess? {
        status := FinishShutdown();
      } else {
        status := Success;
      }
    }

    method FlushRound(revents: GioCond) returns (status: Status)
      requires Valid()
      requires Rests(View(), true) && leaf.CryptoShut? && (shutPhase.ShutInit? || shutPhase.ShutFlushOut?)
      modifies Repr()
      ensures Valid()
      ensures Result(View(), status, NoReply) == ShutFlush(old(View()), revents)
    {
      hide ProcessDeferred, ShutRound, Rests, ShutInFlight, ResetWatch, Healthy, io.Abs;
      FlushedMayShut(View(), revents);
      FlushOnce(revents);
      var waits := io.OutputWaits();
      if waits {
        SetShutPhase(ShutFlushOut);
        return Success;
      }
      status := StartClosing();
    }

    /** With nothing left to write the first SSL_shutdown is made. */
    method StartClosing() returns (status: Status)
      requires Valid() && ShutInFlight(View().(io := ResetWatch(View().io), shutPhase := Shut1))
      modifies Repr()
      ensures Valid()
      ensures Result(View(), status, NoReply)
           == ShutRound(old(View()).(io := ResetWatch(old(View()).io), shutPhase := Shut1))
    {
      hide ShutRound, ShutInFlight, ResetWatch, io.Abs;
      ResetCryptoWatch();
      SetShutPhase(Shut1);
      status := ShutdownRound();
    }

    method SetShutPhase(phase: ShutPhase)
      requires Valid()
      modifies this`shutPhase
      ensures Valid()
      ensures View() == old(View()).(shutPhase := phase)
    {
      hide io.Abs;
      shutPhase := phase;
    }

    /** The first flush starts with a watch of its own. */
    method FlushOnce(revents: GioCond)
      requires Valid()
      requires Rests(View(), true) && leaf.CryptoShut?
      modifies IoRepr()
      ensures Valid()
      ensures var s := old(View()).io;
              View() == old(View()).(
                io := ProcessDeferred(if shutPhase.ShutInit? then ResetWatch(s) else s, Unknown, revents))
    {
      hide ProcessDeferred, Rests, ResetWatch, Healthy, io.Abs;
      RestIsHealthy(View(), true);
      ResetIsHealthy(View().io);
      if shutPhase == ShutInit {
        ResetCryptoWatch();
      }
      RetryDeferred(revents);
    }

    /** The FD_WATCH of CRYPTO_SHUT */
    method HandleShutWatch(revents: Option<GioCond>) returns (status: Status)
      requires Valid()
      requires Rests(View(), true) && leaf.CryptoShut? && WatchFires(View().io, revents)
      modifies Repr()
      ensures Valid()
      ensures Result(View(), status, NoReply) == ShutWatch(old(View()), Indicated(revents))
    {
      hide ProcessDeferred, ShutRound, ShutFlush, Rests, ShutInFlight, ShutRest, Healthy, io.Abs;
      RestIsHealthy(View(), true);
      var cond := if revents.Some? then revents.value else {};
      ShutWatchTells(View(), revents);
      if shutPhase.ShutSuccess? {
        assert shutHow == OneWay;
        RetryDeferred(cond);
        return Success;
      }
      if shutPhase.ShutInit? || shutPhase.ShutFlushOut? {
        status := FlushRound(cond);
      } else {
        status := ShutdownRound();
      }
    }

    /** The READ of CRYPTO_SHUT */
    method HandleShutRead(cnt: nat) returns (status: Status, reply: Reply)
      requires Valid() && Healthy(View().io)
      modifies IoRepr()
      ensures Valid()
      ensures Result(View(), status, reply) == ShutRead(old(View()), cnt)
    {
      hide HandleRead, ReadResult, Healthy, io.Abs;
      if shutHow == TwoWay {
        return Success, ReadReply([], if shutPhase.ShutSuccess? then StatusEof else StatusAgain);
      }
      if shutPhase.ShutSuccess? || shutPhase.ShutFlushOut? {
        status, reply := HandleReading(cnt);
      } else {
        status, reply := Success, ReadReply([], StatusAgain);
      }
    }

    /** crypto_shut_state_handler */
    method HandleCryptoShut(e: Event) returns (status: Status, reply: Reply)
      requires Valid()
      requires Rests(View(), e.EvFdWatch?) && leaf.CryptoShut? && (e.EvFdWatch? ==> WatchFires(View().io, e.revents))
      modifies Repr()
      ensures Valid()
      ensures Result(View(), status, reply) == OnCryptoShut(old(View()), e)
    {
      hide GoTo, ShutWatch, ShutRead, Holds, Healthy, io.Abs;
      RestIsHealthy(View(), e.EvFdWatch?);
      status, reply := Success, NoReply;
      match e
      case EvFdWatch(revents) =>
        status := HandleShutWatch(revents);
      case EvRead(cnt) =>
        status, reply := HandleShutRead(cnt);
      case EvResumePlaintext =>
        var bothWays := io.ClosedBothWays();
        if shutPhase.ShutSuccess? && bothWays {
          Go(ToPlainTcp);
        } else {
          status := PassToParent;
        }
      case EvShutCrypto(how, cb) =>
        if shutHow == how || (shutHow == TwoWay && how == OneWay) {
          status := PassToParent;
        } else {
          Go(ToCryptoShut(how, cb));
        }
      case _ =>
        status := PassToParent;
    }

    // -------------------------------------------------------------------------------------
    // The way up
    // -------------------------------------------------------------------------------------

    /** The handler of the current leaf. */
    method HandleLeaf(e: Event, env: Env) returns (status: Status, reply: Reply)
      requires Valid()
      requires Rests(View(), e.EvFdWatch?) && Proper(View(), e, env, e.EvFdWatch?)
      modifies Repr()
      ensures Valid()
      ensures Result(View(), status, reply) == OnLeaf(old(View()), e, env)
    {
      hide OnInit, OnLookup, OnPlainConn, OnPlainTcp, OnCryptoConn, OnCryptoSsl, OnCryptoReneg, OnCryptoShut, Holds,
        WasFired, Healthy, io.Abs;
      RestTells(View(), e);
      RestIsHealthy(View(), e.EvFdWatch?);
      status, reply := PassToParent, NoReply;
      match leaf
      case Init => status := HandleInit(e);
      case Lookup => status := HandleLookup(e);
      case PlainConn => status := HandlePlainConn(e, env);
      case PlainTcp => status := HandlePlainTcp(e, env);
      case PlainShut =>
        if e.EvRead? || e.EvWrite? {
          assert io.fd >= 0;
          status := Success;
        } else if e.EvShutSock? {
          status := if env.shutErr.NoError? then Success else Error;
        }
      case PlainFail =>
        if e.EvRead? || e.EvWrite? {
          status := ErrorCatchAll;
        }
      case Closed =>
      case Final =>
      case _ => status, reply := HandleCryptoLeaf(e, env);
    }

    /** The handler of a leaf in the crypto mode. */
    method HandleCryptoLeaf(e: Event, env: Env) returns (status: Status, reply: Reply)
      requires Valid() && leaf.InCrypto()
      requires Rests(View(), e.EvFdWatch?) && Proper(View(), e, env, e.EvFdWatch?)
      modifies Repr()
      ensures Valid()
      ensures Result(View(), status, reply) == OnLeaf(old(View()), e, env)
    {
      hide OnCryptoConn, OnCryptoSsl, OnCryptoReneg, OnCryptoShut, Holds, WasFired, Healthy, io.Abs;
      RestTells(View(), e);
      RestIsHealthy(View(), e.EvFdWatch?);
      status, reply := PassToParent, NoReply;
      match leaf
      case CryptoConn => status := HandleCryptoConn(e, env);
      case CryptoSsl => status, reply := HandleCryptoSsl(e);
      case CryptoReneg => status, reply := HandleCryptoReneg(e);
      case CryptoShut => status, reply := HandleCryptoShut(e);
      case _ =>
        if e.EvRead? || e.EvWrite? {
          status := ErrorCatchAll;
        }
    }

    /** crypto_mode_state_handler, chan_fsm_alive_state_handler */
    method HandleOuter(e: Event, env: Env) returns (status: Status)
      requires Valid()
      requires request.NoRequest? && (leaf.InCrypto() ==> io.fd >= 0)
      modifies this`request, this`ctxRefs
      ensures Valid()
      ensures var r := OnMode(old(View()), e, env);
              Result(View(), status, NoReply) == if r.status.PassToParent? then OnAlive(old(View()), e) else r
    {
      hide GoTo, ShutSock, io.Abs;
      if leaf.InCrypto() && e.EvShutSock? {
        ShutSockTakes(View(), env);
        status := ShutSocket(env);
        return;
      }
      match e
      case EvClose =>
        Go(ToClosed);
        status := Success;
      case EvFinalize =>
        Go(ToFinal);
        status := Success;
      case _ =>
        status := ErrorCatchAll;
    }

    /** One event: the handlers from the leaf to the root, then the transition asked for. */
    method Dispatch(e: Event, env: Env) returns (status: Status, reply: Reply)
      requires Valid()
      requires Rests(View(), e.EvFdWatch?) && Proper(View(), e, env, e.EvFdWatch?)
      modifies Repr()
      ensures Valid()
      ensures Result(View(), status, reply) == Dispatched(old(View()), e, env)
    {
      hide OnLeaf, OnMode, OnAlive, Moved, Rests, Proper, Movable, io.Abs;
      RestOuter(View());
      LeafPasses(View(), e, env);
      HandledSound(View(), e, env, e.EvFdWatch?);
      status, reply := HandleLeaf(e, env);
      if status == PassToParent {
        status := HandleOuter(e, env);
      }
      assert Result(View(), status, reply) == Handled(old(View()), e, env);
      Transition(env);
    }

    // -------------------------------------------------------------------------------------
    // Transitions
    // -------------------------------------------------------------------------------------

    /**
     kFsmEventExitScope of the leaf: the lookup session, the references of the state's argument
     and its use of the watch go; nothing else does.
     */
    method ExitLeaf()
      requires Valid()
      requires LeafRefs(View()) <= ctxRefs
      modifies this`lookupSes, this`ctxRefs, io`lastCond, io.watch
      ensures Valid()
      ensures View() == LeafLeft(old(View()))
      ensures old(ctxRefs) == ctxRefs + LeafRefs(old(View())) && !(leaf.Lookup? && lookupSes)
      ensures leaf.PlainConn? || (leaf.InCrypto() && !leaf.CryptoFail?) ==>
                io.watch.descTable == map[] && io.watch.timeoutMillisec < 0
    {
      hide LeafRefs, LeftIo, io.Abs;
      DropArgument();
      EndLookup();
      StopWatching();
    }

    /** LOOKUP destroys its session. */
    method EndLookup()
      requires Valid()
      modifies this`lookupSes
      ensures Valid()
      ensures View() == old(View()).(lookupSes := old(lookupSes) && !leaf.Lookup?)
    {
      hide io.Abs;
      if leaf == Lookup {
        lookupSes := false;
      }
    }

    /** The connecting states give back the reference that came with their argument. */
    method DropArgument()
      requires Valid()
      requires LeafRefs(View()) <= ctxRefs
      modifies this`ctxRefs
      ensures Valid()
      ensures View() == old(View()).(ctxRefs := old(ctxRefs) - LeafRefs(old(View())))
      ensures old(ctxRefs) == ctxRefs + LeafRefs(old(View()))
    {
      hide io.Abs, LeafRefs;
      ghost var refs := ArgumentRefs();
      ctxRefs := ctxRefs - refs;
    }

    /** What the argument of the connecting states holds. */
    ghost method ArgumentRefs() returns (refs: multiset<nat>)
      requires Valid()
      ensures refs == LeafRefs(View())
    {
      hide io.Abs, ArgRefs;
      match leaf
      case Lookup => refs := ArgRefs(lookup);
      case PlainConn => refs := ArgRefs(plainConn);
      case CryptoConn => refs := multiset{cryptoConn.ctx};
      case _ => refs := multiset{};
    }

    /** The states that use the watch leave nothing in it. */
    method StopWatching()
      requires Valid()
      modifies io`lastCond, io.watch
      ensures Valid()
      ensures View() == old(View()).(io := LeftIo(leaf, old(View()).io))
      ensures leaf.PlainConn? || (leaf.InCrypto() && !leaf.CryptoFail?) ==>
                io.watch.descTable == map[] && io.watch.timeoutMillisec < 0
    {
      hide io.Abs, ResetWatch, LeftIo;
      LeftIoIs(leaf, View().io);
      if leaf == PlainConn {
        io.ClearWatch();
      } else if leaf.InCrypto() && leaf != CryptoFail {
        io.ResetFdWatch();
      }
    }

    /** kFsmEventExitScope of CRYPTO_MODE: the SSL object and its context reference go. */
    method ExitMode()
      requires Valid()
      modifies this`ssl, this`ctxRefs
      ensures Valid()
      ensures View() == ModeLeft(old(View()))
    {
      hide io.Abs;
      if leaf.InCrypto() {
        ctxRefs := ctxRefs - SslRefs(View());
        ssl := ssl.(haveSsl := false, sslCtx := None);
      }
    }

    /** kFsmEventEnterScope of CRYPTO_MODE: the shared information starts anew. */
    method EnterMode(mode: Mode)
      requires Valid()
      modifies this`ssl, IoRepr()
      ensures Valid()
      ensures View() == ModeEntered(old(View()), mode)
    {
      hide io.Abs, NewIo;
      if mode == CryptoMode {
        ssl := SslInfo(false, None, false);
        io.Renew();
      }
    }

    /** The enter handler of CLOSED: the descriptor is closed, unless the user keeps it. */
    method CloseDescriptor()
      requires Valid() && View().io.registered == {}
      modifies io`fd, this`fsmClosed, this`fdLog
      ensures Valid()
      ensures View() == old(View()).(desc := CloseFd(old(View()).desc))
    {
      hide io.Abs;
      ReleaseFd();
      fsmClosed := true;
    }

    /** close, unless the user keeps the descriptor. */
    method ReleaseFd()
      requires Valid() && View().io.registered == {}
      modifies io`fd, this`fdLog
      ensures Valid()
      ensures var c := old(View()); View() == c.(desc := CloseFd(c.desc).(closed := c.desc.closed))
    {
      hide io.Abs;
      if io.fd >= 0 && !user.doNotClose {
        fdLog := FdThen(fdLog, ClosedFd(io.fd));
      }
      io.SetFd(NO_FD);
    }

    /** kFsmEventEnterScope of CLOSED and FINAL */
    method EnterEnd(target: Leaf)
      requires Valid()
      requires (target.Closed? && View().io.registered == {}) || (target.Final? && fsmClosed)
      modifies Repr()
      ensures Valid()
      ensures View() == LeafEntered(old(View()), target)
    {
      hide CloseFd;
      if target == Closed {
        CloseDescriptor();
      } else {
        assert fsmClosed;
        io.ClearWatch();
        fsmFinalized := true;
      }
    }

    /** kFsmEventEnterScope of the connecting states */
    method EnterConnecting(target: Leaf)
      requires Valid()
      requires target.Lookup? || target.PlainConn? || target.CryptoConn?
      modifies this`lookupSes, this`plainConnErr, this`started
      ensures Valid()
      ensures View() == LeafEntered(old(View()), target)
    {
      hide LeafEntered, io.Abs;
      ConnectingEntered(View(), target);
      if target == Lookup {
        lookupSes := false;
      } else if target == PlainConn {
        plainConnErr := NoError;
      } else {
        started := false;
      }
    }

    /** kFsmEventEnterScope of the other states */
    method EnterConnected(target: Leaf)
      requires Valid()
      requires !target.Closed? && !target.Final? && !target.Lookup? && !target.PlainConn? && !target.CryptoConn?
      modifies this`reneg, this`shutPhase
      ensures Valid()
      ensures View() == LeafEntered(old(View()), target)
    {
      hide LeafEntered, io.Abs;
      ConnectedEntered(View(), target);
      if target == CryptoReneg {
        reneg := reneg.(phase := RenegInit, err := NoError);
      } else if target == CryptoShut {
        shutPhase := ShutInit;
      }
    }

    /** kFsmEventEnterScope of the target, which is the current leaf from now on. */
    method EnterLeaf(target: Leaf)
      requires Valid()
      requires (target.Final? ==> fsmClosed) && (target.Closed? ==> View().io.registered == {})
      modifies Repr()
      ensures Valid()
      ensures View() == LeafEntered(old(View()), target).(leaf := target)
    {
      hide LeafEntered, io.Abs;
      EnterState(target);
      leaf := target;
    }

    method EnterState(target: Leaf)
      requires Valid()
      requires (target.Final? ==> fsmClosed) && (target.Closed? ==> View().io.registered == {})
      modifies Repr()
      ensures Valid()
      ensures View() == LeafEntered(old(View()), target)
    {
      hide LeafEntered, View, io.Abs;
      if target == Closed || target == Final {
        EnterEnd(target);
      } else if target == Lookup || target == PlainConn || target == CryptoConn {
        EnterConnecting(target);
      } else {
        EnterConnected(target);
      }
    }

    /** plain_make_and_config_sock, psl_inet_connect_sock */
    method MakeAndConnectSock(answer: SockAnswer) returns (err: PslError)
      requires Valid() && View().io.registered == {}
      modifies io`fd, this`fdLog
      ensures Valid()
      ensures var (d, e) := MakeSock(old(View()).desc, answer); err == e && View() == old(View()).(desc := d)
    {
      match answer
      case NoSocket(e) =>
        err := e;
      case BadConfig(s, e) =>
        fdLog := FdThen(FdThen(fdLog, Opened(s)), ClosedFd(s));
        err := e;
      case Socket(s, e) =>
        fdLog := FdThen(fdLog, Opened(s));
        io.SetFd(s);
        err := e;
    }

    /** What is watched while connecting: the descriptor, or a timer to report the failure at once. */
    method WatchAttempt(err: PslError)
      requires Valid()
      modifies io.watch, this`plainConnErr
      ensures Valid()
      ensures View() == old(View()).(plainConnErr := err,
                io := if err.NoError? then old(View()).io.(registered := {IoOut}, timer := false)
                      else old(View()).io.(registered := {}, timer := true))
    {
      hide io.Abs;
      plainConnErr := err;
      io.WatchOnly(err.NoError?, {IoOut});
    }

    /** The begin handler of PLAIN_CONN */
    method BeginPlainConn(arg: ConnArg, env: Env)
      requires Valid() && View().io.registered == {}
      modifies Repr()
      ensures Valid()
      ensures View() == PlainConnBegun(old(View()), arg, env)
    {
      hide MakeSock, io.Abs;
      plainConn := arg;
      var err := FindDescriptor(env);
      WatchAttempt(err);
    }

    /** The descriptor is the user's, or a socket is made and connected. */
    method FindDescriptor(env: Env) returns (err: PslError)
      requires Valid() && View().io.registered == {}
      modifies io`fd, this`fdLog
      ensures Valid()
      ensures var c := old(View());
              var (d, e) := if c.desc.fdIsUserProvided then (c.desc, env.nonBlockErr) else MakeSock(c.desc, env.sock);
              err == e && View() == c.(desc := d)
    {
      hide MakeSock, io.Abs;
      if user.fdIsUserProvided {
        err := env.nonBlockErr;
      } else {
        err := MakeAndConnectSock(env.sock);
      }
    }

    /** kFsmEventBegin of a plain target and of CLOSED and FINAL */
    method BeginPlain(req: Request, env: Env)
      requires Valid()
      requires !req.NoRequest? && !req.Target().InCrypto() && (req.ToPlainFail? ==> !req.cause.NoError?)
      requires req.ToPlainConn? ==> View().io.registered == {}
      modifies Repr()
      ensures Valid()
      ensures View() == Begun(old(View()), req, env)
    {
      hide WatchReset, PlainConnBegun, io.Abs;
      match req
      case ToClosed => ResetFdWatch();
      case ToLookup(arg) => lookup, lookupSes := arg, true;
      case ToPlainConn(arg) => BeginPlainConn(arg, env);
      case ToPlainFail(cause) => BeginPlainFail(cause);
      case _ =>
    }

    method BeginPlainFail(cause: PslError)
      requires Valid()
      requires !cause.NoError?
      modifies this`failErr, io.watch
      ensures Valid()
      ensures View() == WatchReset(old(View())).(failErr := cause)
    {
      assert !cause.NoError?;
      failErr := cause;
      ResetFdWatch();
    }

    method BeginCryptoConn(arg: ConnArg)
      requires Valid()
      modifies this`cryptoConn, io`lastCond, io.watch
      ensures Valid()
      ensures View() == old(View()).(cryptoConn := arg, io := ResetWatch(old(View()).io).(timer := true))
    {
      hide ResetWatch, io.Abs;
      cryptoConn := arg;
      io.ResetFdWatch();
      io.StartTimer();
    }

    method BeginReneg(wait: bool, cb: Cb)
      requires Valid()
      modifies this`reneg, this`renegCb, IoRepr()
      ensures Valid()
      ensures View() == RenegBegun(old(View()), wait, cb)
    {
      hide RenegStart, io.Abs;
      reneg, renegCb := Reneg(reneg.phase, reneg.err, ssl.server, wait), cb;
      io.StartRenegotiation();
    }

    method BeginShut(how: ShutHow, cb: Cb)
      requires Valid()
      modifies this`shutHow, this`shutCb, IoRepr()
      ensures Valid()
      ensures View() == ShutBegun(old(View()), how, cb)
    {
      hide ShutStart, io.Abs;
      shutHow, shutCb := how, cb;
      io.StartShutdown(how);
    }

    method BeginSsl()
      requires Valid() && Healthy(View().io)
      modifies IoRepr()
      ensures Valid()
      ensures View() == old(View()).(io := ProcessDeferred(ResetWatch(old(View()).io), Unknown, {}))
    {
      hide ProcessDeferred, ResetWatch, Healthy, io.Abs;
      ResetIsHealthy(View().io);
      ResetCryptoWatch();
      RetryDeferred({});
    }

    /** kFsmEventBegin of the target, with the argument of the request. */
    method BeginLeaf(req: Request, env: Env)
      requires Valid()
      requires !req.NoRequest? && (req.ToPlainFail? || req.ToCryptoFail? ==> !req.cause.NoError?)
      requires (req.ToPlainConn? ==> View().io.registered == {}) && (req.ToCryptoSsl? ==> Healthy(View().io))
      modifies Repr()
      ensures Valid()
      ensures View() == Begun(old(View()), req, env)
    {
      hide ProcessDeferred, ResetWatch, RenegBegun, ShutBegun, PlainConnBegun, WatchReset, Healthy, io.Abs;
      if !req.Target().InCrypto() {
        BeginPlain(req, env);
        return;
      }
      match req
      case ToCryptoConn(arg) => BeginCryptoConn(arg);
      case ToCryptoSsl => BeginSsl();
      case ToReneg(wait, cb) => BeginReneg(wait, cb);
      case ToCryptoShut(how, cb) => BeginShut(how, cb);
      case ToCryptoFail(cause) =>
        assert !cause.NoError?;
        failErr := cause;
      case _ =>
    }

    /** Exits up to the common ancestor, and the entry of the target's mode. */
    method Leave(target: Leaf)
      requires Valid()
      requires request.NoRequest? && LeafRefs(View()) <= ctxRefs
      modifies this`lookupSes, this`ctxRefs, this`ssl, IoRepr()
      ensures Valid()
      ensures View() == Passage(old(View()), target)
    {
      hide LeafLeft, ModeLeft, ModeEntered, LeafRefs, io.Abs;
      assert View().(request := NoRequest) == View();
      ghost var c := LeafLeft(View());
      ExitLeaf();
      if leaf.Parent() != target.Parent() {
        ExitMode();
        EnterMode(target.Parent());
      }
    }

    /** The transition asked for: exits up to the common ancestor, entries down to the target, its begin. */
    method Transition(env: Env)
      requires Valid()
      requires Movable(View())
      modifies Repr()
      ensures Valid()
      ensures View() == Moved(old(View()), env)
    {
      hide Passage, Arrived, LeafRefs, Movable, Healthy, io.Abs;
      if request == NoRequest {
        return;
      }
      var req := request;
      MovableTells(View());
      PassageForgets(View(), req.Target());
      request := NoRequest;
      Leave(req.Target());
      Arrive(req, env);
    }

    /** Entering the target and beginning it. */
    method Arrive(req: Request, env: Env)
      requires Valid()
      requires !req.NoRequest? && (req.ToPlainFail? || req.ToCryptoFail? ==> !req.cause.NoError?)
      requires (req.ToFinal? ==> fsmClosed) && (req.ToClosed? || req.ToPlainConn? ==> View().io.registered == {})
      requires req.ToCryptoSsl? ==> Healthy(View().io)
      modifies Repr()
      ensures Valid()
      ensures View() == Arrived(old(View()), req, env)
    {
      hide LeafEntered, Begun, Healthy, io.Abs;
      EnteredIo(View(), req.Target());
      EnterLeaf(req.Target());
      BeginLeaf(req, env);
    }

    // -------------------------------------------------------------------------------------
    // The callbacks
    // -------------------------------------------------------------------------------------

    /** psl_chan_fsm_dispatch_completion_cb, up to the user's function. */
    method CallBack(cb: Cb, err: PslError)
      requires Valid()
      modifies this`fired
      ensures Valid()
      ensures View() == Called(old(View()), cb, err)
    {
      if fsmClosed || cb.NoCb? {
        return;
      }
      fired := fired + [Firing(cb.id, err)];
    }

    /** chan_fsm_fd_watch_cb; with a callback to make, up to where the user's function has been called. */
    method FdWatchCallback(revents: Option<GioCond>, env: Env)
      requires Valid()
      requires Inv(View()) && Enabled(View(), WatchReady(revents, env))
      modifies Repr()
      ensures Valid()
      ensures View() == After(old(View()), WatchReady(revents, env)) && Inv(View())
    {
      hide Inv, Rests, Proper, Dispatched, Called, WatchReturned, io.Abs;
      assert !watch.inFdWatchCb;
      AfterHolds(View(), WatchReady(revents, env));
      ghost var marked := View().(calls := CallsView().(inFdWatchCb := true));
      StepIsProper(View(), WatchReady(revents, env), marked, EvFdWatch(revents), env);
      watch := watch.(inFdWatchCb := true);
      var status, reply := Dispatch(EvFdWatch(revents), env);
      if watch.slot.Cb? {
        CallBack(watch.slot, watch.slotErr);
      } else {
        FreeSlot();
      }
    }

    method FreeSlot()
      requires Valid()
      modifies this`watch
      ensures Valid()
      ensures View() == WatchReturned(old(View()))
    {
      hide io.Abs;
      watch := watch.(slot := NoCb, inFdWatchCb := false);
    }

    /**
     The rest of chan_fsm_fd_watch_cb, when the user's callback has returned: the slot is free,
     the watch may call again, and nothing that was made or is owed is forgotten.
     */
    method CallbackReturned()
      requires Valid()
      requires Inv(View()) && Enabled(View(), WatchReturns)
      modifies this`watch
      ensures Valid()
      ensures View() == After(old(View()), WatchReturns) && Inv(View())
      ensures watch.slot.NoCb? && fired == old(fired) && LiveCb(View()) == LiveCb(old(View()))
              && Owed(CallsView(), LiveCb(View()))
      ensures forall revents: Option<GioCond>, env: Env ::
                !leaf.Final? && env.Plausible() && WatchFires(View().io, revents)
                ==> Enabled(View(), WatchReady(revents, env))
    {
      hide Holds, io.Abs, WasFired;
      AfterHolds(View(), WatchReturns);
      FreeSlot();
      RestsOwes(View());
    }

    /** plain_host_lookup_cb */
    method HostLookupCallback(result: LookupResult, env: Env)
      requires Valid()
      requires Inv(View()) && Enabled(View(), LookupEnds(result, env))
      modifies Repr()
      ensures Valid()
      ensures View() == After(old(View()), LookupEnds(result, env)) && Inv(View())
    {
      hide Inv, Rests, Proper, Dispatched, Called, io.Abs;
      AfterHolds(View(), LookupEnds(result, env));
      StepIsProper(View(), LookupEnds(result, env), View(), EvLookupDone(result), env);
      var status, reply := Dispatch(EvLookupDone(result), env);
      if result.LookupFails? {
        CallBack(lookup.cb, result.err);
      }
    }

    /** A call of the channel's interface. */
    method UserEvent(e: Event, env: Env) returns (status: Status, reply: Reply)
      requires Valid()
      requires Inv(View()) && Enabled(View(), UserCall(e, env))
      modifies Repr()
      ensures Valid()
      ensures View() == After(old(View()), UserCall(e, env)) && Inv(View())
      ensures Result(View(), status, reply) == Dispatched(Noted(old(View()), CbOf(e)), e, env)
    {
      hide Inv, Rests, Proper, Dispatched, io.Abs;
      AfterHolds(View(), UserCall(e, env));
      StepIsProper(View(), UserCall(e, env), Noted(View(), CbOf(e)), e, env);
      requested := requested + IdsOf(CbOf(e));
      status, reply := Dispatch(e, env);
    }

    /** psl_chan_fsm_finalize */
    method Finalize(env: Env)
      requires Valid()
      requires Inv(View()) && Enabled(View(), Finalizes(env))
      modifies Repr()
      ensures Valid()
      ensures View() == After(old(View()), Finalizes(env)) && Inv(View()) && fsmFinalized && fsmClosed
    {
      hide Inv, Rests, Proper, Dispatched, io.Abs;
      AfterHolds(View(), Finalizes(env));
      FinalizesProperly(View(), env);
      var status, reply;
      if !fsmClosed {
        status, reply := Dispatch(EvClose, env);
        assert fsmClosed;
      }
      status, reply := Dispatch(EvFinalize, env);
    }

    /** Whatever may happen to the machine. */
    method TakeStep(step: Step)
      requires Valid() && Inv(View()) && Enabled(View(), step)
      modifies Repr()
      ensures Valid()
      ensures View() == After(old(View()), step) && Inv(View())
    {
      hide Inv, After, Enabled, io.Abs;
      match step
      case UserCall(e, env) =>
        var status, reply := UserEvent(e, env);
      case WatchReady(revents, env) => FdWatchCallback(revents, env);
      case WatchReturns => CallbackReturned();
      case LookupEnds(result, env) => HostLookupCallback(result, env);
      case Finalizes(env) => Finalize(env);
    }
  }

  /**
   Every run from a new machine is one of the object with its buffer, its SSL object and its watch: at its end they
   are what the run says, so that what is proved of runs is proved of them.
   */
  method Live(steps: seq<Step>, ghost cs: seq<Chan>) returns (ch: Fsm)
    requires IsRun(cs, steps) && cs[0] == NEW_CHAN
    ensures ch.Valid() && fresh(ch.Repr()) && ch.View() == cs[|steps|] && Inv(ch.View())
    ensures ch.leaf.InCrypto() ==>
              && ch.io.accepted == Taken(ch.io.ssl.log) + ch.io.buf.Contents()
              && ch.io.given + ch.io.Abs().Held() == Produced(ch.io.ssl.log)
              && ch.io.lastCond == ch.io.watch.Registered(ch.io.fd)
  {
    hide Inv, After, Enabled, Taken, Produced, WatchCoherent;
    ch := new Fsm();
    for i := 0 to |steps|
      invariant ch.Valid() && fresh(ch.Repr()) && ch.View() == cs[i] && Inv(ch.View())
    {
      ch.TakeStep(steps[i]);
    }
    if ch.leaf.InCrypto() {
      OctetsConserved(cs, steps, |steps|);
      WatchIsKnown(cs, steps, |steps|);
    }
  }

  lemma WatchIsKnown(cs: seq<Chan>, steps: seq<Step>, i: nat)
    requires IsRun(cs, steps) && i < |cs| && cs[i].leaf.InCrypto()
    ensures cs[i].io.lastCond == cs[i].io.registered
  {
    hide After, Enabled, Inv;
    CryptoWatchCoherent(cs, steps, i);
  }

  /** CLOSE comes first; then FINALIZE is proper. */
  lemma FinalizesProperly(c: Chan, env: Env)
    requires Inv(c) && Enabled(c, Finalizes(env))
    ensures !c.desc.closed ==> Rests(c, false) && Proper(c, EvClose, env, false)
    ensures var d := if c.desc.closed then c else Dispatched(c, EvClose, env).c;
            d.desc.closed && Rests(d, false) && Proper(d, EvFinalize, env, false)
    ensures After(c, Finalizes(env)).finalized && After(c, Finalizes(env)).desc.closed
  {
    hide Dispatched, Holds, WasFired;
    FinalizedHolds(c, env);
    InvClosed(c);
    InvClosed(After(c, Finalizes(env)));
    HoldsFinal(After(c, Finalizes(env)), false);
    if !c.desc.closed {
      DispatchedHolds(c, EvClose, env, false);
      ClosesTo(c, env);
      InvClosed(Dispatched(c, EvClose, env).c);
    }
  }

  /** The request is dropped first. */
  lemma PassageForgets(c: Chan, target: Leaf)
    ensures Passage(c.(request := NoRequest), target) == Passage(c, target)
  {
    hide LeafLeft, ModeLeft, ModeEntered;
    assert c.(request := NoRequest).(request := NoRequest) == c.(request := NoRequest);
  }

  /** What a transition relies on. */
  ghost predicate Movable(c: Chan) {
    && (c.request.ToFinal? ==> c.desc.closed)
    && (c.request.ToPlainFail? || c.request.ToCryptoFail? ==> !c.request.cause.NoError?)
    && LeafRefs(c) <= c.ctxRefs
    && (c.request.ToClosed? || c.request.ToPlainConn? ==> LeftIo(c.leaf, c.io).registered == {})
    && (c.request.ToCryptoSsl? ==> c.leaf.InCrypto() && Healthy(c.io))
  }

  /** Whatever a handler asks for can be carried out. */
  lemma HandledSound(c: Chan, e: Event, env: Env, pending: bool)
    requires Rests(c, pending) && Proper(c, e, env, pending)
    ensures Movable(Handled(c, e, env).c)
  {
    hide Handled, Rests, Proper, DescInv, CallsInv, Sound, LeafIo, LeafRefs, SslRefs, RequestRefs, Healthy;
    var d := Handled(c, e, env).c;
    HandledHolds(c, e, env, pending);
    if !d.request.NoRequest? {
      AllowsIo(d);
      if d.leaf.InCrypto() {
        SoundIsHealthy(d.io);
      }
    }
  }

  /** What the passage to the target leaves for its begin handler. */
  lemma MovableTells(c: Chan)
    requires Movable(c) && !c.request.NoRequest?
    ensures LeafRefs(c) <= c.ctxRefs && LeafRefs(c.(request := NoRequest)) == LeafRefs(c)
    ensures c.request.ToFinal? ==> c.desc.closed
    ensures c.request.ToPlainFail? || c.request.ToCryptoFail? ==> !c.request.cause.NoError?
    ensures var d := Passage(c, c.request.Target());
            && (c.request.ToClosed? || c.request.ToPlainConn? ==> d.io.registered == {})
            && (c.request.ToCryptoSsl? ==> Healthy(d.io)) && d.desc == c.desc
  {
    hide Passage, Healthy;
    PassageDoes(c, c.request.Target());
    ResetIsHealthy(c.io);
  }

  lemma ConnectingEntered(c: Chan, leaf: Leaf)
    ensures leaf.Lookup? ==> LeafEntered(c, leaf) == c.(lookupSes := false)
    ensures leaf.PlainConn? ==> LeafEntered(c, leaf) == c.(plainConnErr := NoError)
    ensures leaf.CryptoConn? ==> LeafEntered(c, leaf) == c.(started := false)
  {
  }

  lemma ConnectedEntered(c: Chan, leaf: Leaf)
    requires !leaf.Closed? && !leaf.Final? && !leaf.Lookup? && !leaf.PlainConn? && !leaf.CryptoConn?
    ensures LeafEntered(c, leaf) == if leaf.CryptoReneg? then c.(reneg := c.reneg.(phase := RenegInit, err := NoError))
                                    else if leaf.CryptoShut? then c.(shutPhase := ShutInit)
                                    else c
  {
  }

  /** Entering a state leaves the I/O as it was, but for the end. */
  lemma EnteredIo(c: Chan, leaf: Leaf)
    ensures !leaf.Final? ==> LeafEntered(c, leaf).io == c.io
  {
  }

  lemma LeftIoIs(leaf: Leaf, s: Io)
    ensures LeftIo(leaf, s) == if leaf.PlainConn? then s.(registered := {}, timer := false)
                               else if leaf.InCrypto() && leaf != CryptoFail then ResetWatch(s)
                               else s
  {
  }

  lemma ResetIsHealthy(s: Io)
    ensures Healthy(s) ==> Healthy(ResetWatch(s))
  {
  }

  lemma RestIsHealthy(c: Chan, pending: bool)
    requires Rests(c, pending)
    ensures c.leaf.InCrypto() ==> Healthy(c.io)
    ensures c.leaf.Init? ==> c.io.registered == {}
  {
    hide DescInv, CallsInv, RefsInv, Sound, Healthy, LeafIo;
    RestIo(c);
    if c.leaf.InCrypto() {
      SoundIsHealthy(c.io);
    }
  }

  lemma ShutSockTakes(c: Chan, env: Env)
    ensures !ShutSock(c, env).status.PassToParent?
  {
  }

  /** What the states at rest promise to their handlers. */
  lemma RestTells(c: Chan, e: Event)
    requires Rests(c, e.EvFdWatch?) && (e.EvFdWatch? ==> WatchFires(c.io, e.revents))
    ensures NeedsFd(c.leaf) ==> c.desc.fd >= 0
    ensures e.EvFdWatch? && c.leaf.PlainConn? && c.plainConnErr.NoError? ==> e.revents.Some?
    ensures e.EvFdWatch? && c.leaf.CryptoSsl? ==> e.revents.Some?
    ensures c.leaf.CryptoConn? && !c.started ==> !c.haveSsl
  {
    hide Sound, DescInv, CallsInv, RefsInv;
  }

  lemma RestOuter(c: Chan)
    requires exists pending :: Rests(c, pending)
    ensures c.request.NoRequest? && (c.leaf.InCrypto() ==> c.desc.fd >= 0)
  {
    hide IoInv, DescInv, CallsInv, RefsInv;
  }

  /** SSL_shutdown leaves no failed phase without an error. */
  lemma ShutTells(c: Chan)
    requires ShutInFlight(c) && !c.io.outState.Failed?
    ensures var r := DoShutdown(c.io, c.shutHow, c.shutPhase);
            (r.err.NoError? ==> !r.phase.ShutFailed?) && Healthy(r.io)
    ensures (c.shutPhase.Shut1? || c.shutPhase.Shut2?) && (c.shutPhase.Shut2? ==> c.shutHow.TwoWay?)
  {
    hide DoShutdown, Sound, Healthy;
    ShutCloses(c.io, c.shutHow, c.shutPhase);
    SoundIsHealthy(DoShutdown(c.io, c.shutHow, c.shutPhase).io);
  }

  /** When nothing waits to be written any more, SSL_shutdown may be called. */
  lemma FlushedMayShut(c: Chan, revents: GioCond)
    requires Rests(c, true) && c.leaf.CryptoShut? && (c.shutPhase.ShutInit? || c.shutPhase.ShutFlushOut?)
    ensures var io := ProcessDeferred(if c.shutPhase.ShutInit? then ResetWatch(c.io) else c.io, Unknown, revents);
            !Pending(io.outState) ==> ShutInFlight(c.(io := ResetWatch(io), shutPhase := Shut1))
  {
    hide DescInv, CallsInv, Sound, ProcessDeferred, ShutRest;
    RestInFlight(c, true);
    ShutFlushes(c.io, c.shutHow, c.shutPhase, revents);
    var io := ProcessDeferred(if c.shutPhase.ShutInit? then ResetWatch(c.io) else c.io, Unknown, revents);
    ShutRestInput(io, c.shutHow, ShutFlushOut);
    if !Pending(io.outState) {
      var d := c.(io := ResetWatch(io), shutPhase := Shut1);
      assert LeafRefs(d) == LeafRefs(c) && SslRefs(d) == SslRefs(c);
    }
  }

  lemma ShutWatchTells(c: Chan, revents: Option<GioCond>)
    requires Rests(c, true) && c.leaf.CryptoShut? && WatchFires(c.io, revents)
    ensures c.shutPhase.ShutSuccess? ==> c.shutHow.OneWay?
    ensures c.shutPhase.Shut1? || c.shutPhase.Shut2? ==> ShutInFlight(c)
    ensures !c.shutPhase.ShutFailed?
  {
    hide DescInv, CallsInv, Sound, NothingWatched, Unwatched;
    RestInFlight(c, true);
    if c.shutPhase.ShutSuccess? {
      TwoWaySuccessIsQuiet(c.io, c.shutHow, revents);
    }
  }

  /** The read of CRYPTO_RENEG leaves the input without a wait. */
  lemma ReadKept(c: Chan, n: nat)
    requires Rests(c, false) && c.leaf.CryptoReneg? && n <= BytesReady(c.io)
    ensures !Pending(HandleRead(c.io, n).io.inState)
  {
    hide HandleRead, Sound, RenegRest;
    RenegReads(c.io, c.reneg, n);
  }

  lemma SetupFrame(c: Chan, setup: SetupAnswer)
    ensures var d := ConnSetup(c, setup).0; d.request == c.request && d.calls == c.calls
  {
  }
}
