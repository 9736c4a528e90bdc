/** The handlers and the transitions of the channel state machine keep its invariant. */
module ChannelProofs {
  import opened Common
  import opened SslOracle
  import opened DeferredIo
  import opened DeferredIoProofs
  import opened CryptoControlProofs
  import opened CryptoEventProofs
  import opened CryptoRest
  import opened ChannelState
  import opened ChannelInvariant

  // ---------------------------------------------------------------------------------------
  // Asking for a transition
  // ---------------------------------------------------------------------------------------

  lemma GoToRefs(c: Chan, req: Request)
    requires !req.NoRequest? && RefsInv(c) && c.request.NoRequest?
    requires req.ToCryptoConn? ==> !c.leaf.InCrypto()
    ensures RefsInv(GoTo(c, req))
  {
  }

  /** Everything but the references, with a transition asked for. */
  ghost predicate Ready(c: Chan, pending: bool) {
    && !c.request.NoRequest?
    && DescInv(c.desc) && LeafDesc(c.leaf, c.plainConnErr, c.desc) && DescAllows(c.request, c.desc)
    && IoAllows(c) && CallsInv(c.calls, LiveCb(c), pending) && (c.finalized <==> c.leaf.Final?)
    && (c.request.ToCryptoConn? ==> !c.leaf.InCrypto())
  }

  lemma GoToHolds(c: Chan, req: Request, pending: bool)
    requires !req.NoRequest? && c.request.NoRequest? && RefsInv(c) && Ready(c.(request := req), pending)
    ensures Holds(GoTo(c, req), pending)
  {
    hide DescInv, LeafDesc, DescAllows, LeafIo, Sound, NothingWatched, NoCloseYet, CallsInv, RefsInv;
    GoToRefs(c, req);
    var d := c.(request := req);
    assert LiveCb(GoTo(c, req)) == LiveCb(d);
    assert IoAllows(GoTo(c, req)) by {
      assert IoAllows(d);
    }
  }

  /** A state at rest that is about to handle an event. */
  ghost predicate Rests(c: Chan, pending: bool) {
    c.request.NoRequest? && Holds(c, pending) && (pending ==> c.calls.slot.NoCb? && c.calls.inFdWatchCb)
  }

  /** What the states at rest guarantee to whatever comes next. */
  lemma RestIo(c: Chan)
    requires LeafIo(c)
    ensures c.leaf.InCrypto() ==> Sound(c.io)
    ensures !c.leaf.InCrypto() && !c.leaf.PlainConn? ==> Unwatched(c.io)
    ensures c.leaf.CryptoFail? ==> NothingWatched(c.io)
    ensures c.leaf.CryptoSsl? || c.leaf.CryptoReneg? ==> NoCloseYet(c.io) && c.haveSsl
    ensures c.leaf.CryptoShut? ==> c.haveSsl
  {
    hide Sound, NothingWatched, NoCloseYet;
  }

  /** The transitions that a handler may ask for from the state at rest. */
  predicate MayGo(c: Chan, req: Request) {
    match req
    case ToClosed => true
    case ToFinal => c.desc.closed
    case ToLookup(_) => c.leaf.Init? && c.desc.fd < 0 && c.desc.serverSet
    case ToPlainConn(_) => (c.leaf.Init? && c.desc.fd >= 0) || c.leaf.Lookup?
    case ToPlainTcp => c.leaf.CryptoShut? && c.io.ssl.sent && c.io.ssl.received
    case ToPlainShut => NeedsFd(c.leaf)
    case ToPlainFail(err) => c.leaf.Lookup? && err.IsFatal()
    case ToCryptoConn(_) => c.leaf.PlainTcp?
    case ToReneg(_, _) => c.leaf.CryptoSsl?
    case ToCryptoShut(how, cb) => (c.leaf.CryptoSsl? || c.leaf.CryptoReneg? || c.leaf.CryptoShut?)
      && LegacyTwoWay(how, cb)
    case _ => false
  }

  lemma MayGoIo(c: Chan, req: Request)
    requires c.request.NoRequest? && LeafIo(c) && MayGo(c, req)
    ensures IoAllows(c.(request := req))
  {
    hide Sound, NothingWatched, NoCloseYet, LeafIo, Unwatched;
    RestIo(c);
  }

  lemma MayGoDesc(c: Chan, req: Request)
    requires LeafDesc(c.leaf, c.plainConnErr, c.desc) && MayGo(c, req)
    ensures DescAllows(req, c.desc)
  {
  }

  lemma MayGoCalls(k: Calls, was: Cb, cb: Cb, pending: bool)
    requires CallsInv(k, was, pending) && Owed(k, cb) && (pending ==> k.slot.NoCb?)
    ensures CallsInv(k, cb, pending)
  {
  }

  /** A handler that only asks for a transition. */
  lemma RestGoes(c: Chan, req: Request, pending: bool)
    requires Rests(c, pending) && MayGo(c, req) && Owed(c.calls, LiveCb(c.(request := req)))
    ensures Holds(GoTo(c, req), pending)
  {
    hide DescInv, LeafDesc, DescAllows, LeafIo, IoAllows, CallsInv, RefsInv, Owed, LiveCb;
    var d := c.(request := req);
    MayGoIo(c, req);
    MayGoDesc(c, req);
    MayGoCalls(c.calls, LiveCb(c), LiveCb(d), pending);
    GoToHolds(c, req, pending);
  }

  /** The callback of the state moves into the slot. */
  lemma SchedCalls(k: Calls, cb: Cb, err: PslError)
    requires CallsInv(k, cb, true) && k.slot.NoCb? && k.inFdWatchCb
    ensures CallsInv(k.(slot := cb, slotErr := err), NoCb, true)
  {
    var k' := k.(slot := cb, slotErr := err);
    assert forall id: nat :: WasFired(k', id) <==> WasFired(k, id);
  }

  /** A handler that stays in its state. */
  lemma RestChanges(c: Chan, d: Chan, pending: bool)
    requires Holds(c, pending) && c.request.NoRequest?
    requires d == c.(io := d.io, reneg := d.reneg, shutPhase := d.shutPhase, calls := d.calls)
    requires LeafIo(d) && CallsInv(d.calls, LeafCb(d), pending)
    ensures Holds(d, pending)
  {
    hide DescInv, LeafDesc, DescAllows, LeafIo, CallsInv, Owed, LeafCb;
    assert RefsInv(d) by {
      assert LeafRefs(d) == LeafRefs(c);
    }
  }

  // ---------------------------------------------------------------------------------------
  // The plain states
  // ---------------------------------------------------------------------------------------

  lemma DescChanges(c: Chan, d: Desc, pending: bool)
    requires Rests(c, pending) && DescInv(d) && LeafDesc(c.leaf, c.plainConnErr, d)
    ensures Holds(c.(desc := d), pending)
  {
    hide DescInv, LeafDesc, LeafIo, CallsInv, Owed;
    var c' := c.(desc := d);
    assert RefsInv(c') by {
      assert LeafRefs(c') == LeafRefs(c);
    }
    assert LeafIo(c') by {
      RestIoIndependent(c, c');
    }
    assert LiveCb(c') == LiveCb(c);
  }

  lemma RestIoIndependent(c: Chan, d: Chan)
    requires LeafIo(c) && d == c.(desc := d.desc, calls := d.calls)
    ensures LeafIo(d)
  {
    hide Sound, NothingWatched, ConnRest, SslRest, RenegRest, ShutRest, Unwatched;
  }

  lemma OnInitHolds(c: Chan, e: Event, pending: bool)
    requires Rests(c, pending) && c.leaf.Init? && Owed(c.calls, CbOf(e))
    ensures Holds(OnInit(c, e).c, pending)
  {
    hide DescInv, LeafIo, IoAllows, CallsInv, RefsInv, Owed, GoTo;
    match e
    case EvConnect(arg) =>
      if c.desc.fd >= 0 {
        RestGoes(c, ToPlainConn(arg), pending);
      } else if c.desc.serverSet {
        RestGoes(c, ToLookup(arg), pending);
      }
    case EvSetConnFd(fd, doNotClose) =>
      if !(fd < 0 || c.desc.serverSet || c.desc.bindSet || c.desc.fd >= 0) {
        AdoptKeeps(c.desc, fd, doNotClose);
        DescChanges(c, Adopt(c.desc, fd, doNotClose), pending);
      }
    case EvSetServer => InitSets(c, c.desc.(serverSet := true), pending);
    case EvSetSockBind => InitSets(c, c.desc.(bindSet := true), pending);
    case _ =>
  }

  lemma InitSets(c: Chan, d: Desc, pending: bool)
    requires Rests(c, pending) && c.leaf.Init? && d == c.desc.(serverSet := d.serverSet, bindSet := d.bindSet)
    ensures c.desc.fd < 0 ==> Holds(c.(desc := d), pending)
  {
    hide LeafIo, IoAllows, CallsInv, RefsInv, Owed, GoTo, Adopt;
    if c.desc.fd < 0 {
      DescChanges(c, d, pending);
    }
  }

  lemma OnLookupHolds(c: Chan, e: Event, pending: bool)
    requires Rests(c, pending) && c.leaf.Lookup?
    requires e.EvLookupDone? && e.result.LookupFails? ==> e.result.err.IsFatal()
    ensures Holds(OnLookup(c, e).c, pending)
  {
    hide DescInv, LeafIo, IoAllows, RefsInv, WasFired, GoTo;
    if e.EvLookupDone? {
      match e.result
      case LookupFails(err) => RestGoes(c, ToPlainFail(err), pending);
      case NoAddress => RestGoes(c, ToPlainFail(BadServAddr), pending);
      case Address => RestGoes(c, ToPlainConn(c.lookup), pending);
    }
  }

  lemma ConnectErrorTells(c: Chan, revents: Option<GioCond>, env: Env)
    requires Rests(c, true) && c.leaf.PlainConn? && env.Plausible()
    ensures var err := ConnectError(c, revents, env);
            && (err.NoError? || err.IsFatal()) && (err.NoError? ==> c.plainConnErr.NoError?)
            && LeafDesc(c.leaf, err, c.desc) && (err.NoError? ==> c.desc.fd >= 0)
  {
    hide DescInv, CallsInv, RefsInv;
  }

  lemma PlainConnGoes(c: Chan, err: PslError, calls: Calls, req: Request)
    requires Rests(c, true) && c.leaf.PlainConn? && LeafDesc(c.leaf, err, c.desc) && DescAllows(req, c.desc)
    requires match req
             case ToPlainFail(cause) => cause.IsFatal()
             case ToPlainTcp => true
             case ToCryptoConn(_) => true
             case _ => false
    requires CallsInv(calls, LiveCb(c.(request := req)), true)
    ensures Holds(GoTo(WatchReset(c).(plainConnErr := err, calls := calls), req), true)
  {
    hide DescInv, LeafDesc, DescAllows, LeafIo, CallsInv;
    var d := WatchReset(c).(plainConnErr := err, calls := calls);
    assert RefsInv(d) by {
      assert LeafRefs(d) == LeafRefs(c);
    }
    assert LiveCb(d.(request := req)) == LiveCb(c.(request := req));
    GoToHolds(d, req, true);
  }

  lemma OnPlainConnHolds(c: Chan, e: Event, env: Env, pending: bool)
    requires Rests(c, pending) && c.leaf.PlainConn? && env.Plausible() && (e.EvFdWatch? ==> pending)
    ensures Holds(OnPlainConn(c, e, env).c, pending)
  {
    hide DescInv, LeafIo, RefsInv, CallsInv, GoTo, ConnectError, WatchReset;
    if e.EvFdWatch? {
      var err, cb := ConnectError(c, e.revents, env), c.plainConn.cb;
      ConnectErrorTells(c, e.revents, env);
      SchedCalls(c.calls, cb, err);
      var k := c.calls.(slot := cb, slotErr := err);
      if !err.NoError? {
        PlainConnGoes(c, err, k, ToPlainFail(err));
        AttemptSched(c, err, k);
      } else if !IsCrypto(c.plainConn.kind) {
        PlainConnGoes(c, err, k, ToPlainTcp);
        AttemptSched(c, err, k);
      } else {
        PlainConnGoes(c, err, c.calls, ToCryptoConn(c.plainConn));
        SameCalls(c, err);
      }
    }
  }

  lemma AttemptSched(c: Chan, err: PslError, k: Calls)
    requires k == c.calls.(slot := c.plainConn.cb, slotErr := err)
    ensures Sched(WatchReset(c).(plainConnErr := err), c.plainConn.cb, err)
            == WatchReset(c).(plainConnErr := err, calls := k)
  {
  }

  lemma SameCalls(c: Chan, err: PslError)
    ensures WatchReset(c).(plainConnErr := err) == WatchReset(c).(plainConnErr := err, calls := c.calls)
  {
  }

  lemma ShutSockHolds(c: Chan, env: Env, pending: bool)
    requires Rests(c, pending) && NeedsFd(c.leaf)
    ensures Holds(ShutSock(c, env).c, pending)
  {
    hide DescInv, LeafIo, IoAllows, CallsInv, RefsInv, GoTo;
    RestGoes(c, ToPlainShut, pending);
  }

  lemma OnPlainTcpHolds(c: Chan, e: Event, env: Env, pending: bool)
    requires Rests(c, pending) && c.leaf.PlainTcp? && Owed(c.calls, CbOf(e))
    ensures Holds(OnPlainTcp(c, e, env).c, pending)
  {
    hide DescInv, LeafIo, IoAllows, CallsInv, RefsInv, Owed, GoTo;
    match e
    case EvConnect(arg) =>
      if IsCrypto(arg.kind) {
        RestGoes(c, ToCryptoConn(arg), pending);
      }
    case EvShutSock => ShutSockHolds(c, env, pending);
    case _ =>
  }

  // ---------------------------------------------------------------------------------------
  // The crypto states
  // ---------------------------------------------------------------------------------------

  /** A crypto state in the middle of an event: everything but its I/O is as at rest. */
  ghost predicate InFlight(c: Chan, live: Cb, pending: bool) {
    && c.request.NoRequest? && DescInv(c.desc) && LeafDesc(c.leaf, c.plainConnErr, c.desc) && RefsInv(c)
    && CallsInv(c.calls, live, pending) && !c.finalized && c.leaf.InCrypto() && Sound(c.io)
  }

  lemma SchedOnly(c: Chan, cb: Cb, err: PslError)
    requires RefsInv(c)
    ensures Sched(c, cb, err) == c.(calls := c.calls.(slot := cb, slotErr := err)) && RefsInv(Sched(c, cb, err))
  {
    hide RequestRefs, ArgRefs;
    assert LeafRefs(Sched(c, cb, err)) == LeafRefs(c) && SslRefs(Sched(c, cb, err)) == SslRefs(c);
  }

  /** The event ends in the failed state; the callback is told why. */
  lemma CryptoFails(c: Chan, cb: Cb, err: PslError)
    requires InFlight(c, cb, true) && c.calls.slot.NoCb? && c.calls.inFdWatchCb && !c.leaf.CryptoFail? && err.IsFatal()
    ensures Holds(GoTo(Sched(c, cb, err), ToCryptoFail(err)), true)
  {
    hide DescInv, CallsInv, Sound, NothingWatched, RefsInv, Sched, GoTo, Holds;
    SchedCalls(c.calls, cb, err);
    SchedOnly(c, cb, err);
    GoToHolds(Sched(c, cb, err), ToCryptoFail(err), true);
  }

  /** The event ends in the established state; the callback is told so. */
  lemma CryptoConnects(c: Chan, cb: Cb)
    requires InFlight(c, cb, true) && c.calls.slot.NoCb? && c.calls.inFdWatchCb
    requires (c.leaf.CryptoConn? || c.leaf.CryptoReneg?) && NoCloseYet(c.io) && c.haveSsl
    ensures Holds(GoTo(Sched(c, cb, NoError), ToCryptoSsl), true)
  {
    hide DescInv, CallsInv, Sound, NothingWatched, NoCloseYet, RefsInv, Sched, GoTo, Holds;
    SchedCalls(c.calls, cb, NoError);
    SchedOnly(c, cb, NoError);
    GoToHolds(Sched(c, cb, NoError), ToCryptoSsl, true);
  }

  /** The event ends in the same state. */
  lemma CryptoStays(c: Chan, live: Cb, pending: bool)
    requires InFlight(c, live, pending) && LeafIo(c) && CallsInv(c.calls, LeafCb(c), pending)
    ensures Holds(c, pending)
  {
    hide DescInv, CallsInv, Sound, LeafIo;
  }

  lemma RestInFlight(c: Chan, pending: bool)
    requires Rests(c, pending) && c.leaf.InCrypto()
    ensures InFlight(c, LeafCb(c), pending)
  {
    hide DescInv, CallsInv, Sound, LeafIo, LeafCb, RefsInv;
    RestIo(c);
  }

  lemma ConnRoundHolds(c: Chan, before: PslError)
    requires InFlight(c, c.cryptoConn.cb, true) && c.leaf.CryptoConn? && c.started
    requires c.calls.slot.NoCb? && c.calls.inFdWatchCb && (before.NoError? || before.IsFatal())
    requires before.NoError? ==> ConnShakable(c.io) && c.haveSsl
    ensures Holds(ConnRound(c, before).c, true)
  {
    hide DescInv, CallsInv, Sound, DoHandshake, GoTo, NoCloseYet, ConnRest;
    if !before.NoError? {
      CryptoFails(c, c.cryptoConn.cb, before);
    } else {
      var h := DoHandshake(c.io);
      ConnShakes(c.io);
      var d := c.(io := h.io);
      assert LeafRefs(d) == LeafRefs(c) && SslRefs(d) == SslRefs(c);
      if !h.err.NoError? {
        CryptoFails(d, c.cryptoConn.cb, h.err);
      } else if h.done {
        CryptoConnects(d, c.cryptoConn.cb);
      } else {
        CryptoStays(d, c.cryptoConn.cb, true);
      }
    }
  }

  lemma ConnSetupHolds(c: Chan, setup: SetupAnswer)
    requires Rests(c, true) && c.leaf.CryptoConn? && !c.started && (setup.SetupFails? ==> setup.err.IsFatal())
    ensures var (d, err) := ConnSetup(c, setup);
            && InFlight(d, c.cryptoConn.cb, true) && d.leaf.CryptoConn? && d.started && d.cryptoConn == c.cryptoConn
            && d.calls == c.calls && (err.NoError? || err.IsFatal())
               && (err.NoError? ==> ConnShakable(d.io) && d.haveSsl)
  {
    hide DescInv, CallsInv, Sound;
    ResetIsOnward(c.io);
    if setup.SetupOk? {
      ConnStarts(c.io, setup.script);
    }
  }

  /** At rest after its first round, CRYPTO_CONN may shake hands again. */
  lemma ConnRestTells(c: Chan)
    requires Rests(c, true) && c.leaf.CryptoConn? && c.started
    ensures InFlight(c, c.cryptoConn.cb, true) && ConnShakable(c.io) && c.haveSsl
    ensures c.calls.slot.NoCb? && c.calls.inFdWatchCb
  {
    hide DescInv, CallsInv, RefsInv, Sound;
    RestInFlight(c, true);
    ConnRestShakable(c.io);
  }

  lemma OnCryptoConnHolds(c: Chan, e: Event, env: Env, pending: bool)
    requires Rests(c, pending) && c.leaf.CryptoConn? && env.Plausible() && (e.EvFdWatch? ==> pending)
    ensures Holds(OnCryptoConn(c, e, env).c, pending)
  {
    hide Holds, InFlight, ConnShakable, ConnRound, ConnSetup;
    if e.EvFdWatch? {
      if c.started {
        ConnRestTells(c);
        ConnRoundHolds(c, NoError);
      } else {
        ConnSetupHolds(c, env.setup);
        var (d, err) := ConnSetup(c, env.setup);
        ConnRoundHolds(d, err);
      }
    }
  }

  /** Only the I/O changed, from one state of rest to another. */
  lemma IoChanges(c: Chan, io: Io, pending: bool)
    requires Rests(c, pending) && LeafIo(c.(io := io))
    ensures Holds(c.(io := io), pending)
  {
    hide LeafIo, CallsInv;
    RestChanges(c, c.(io := io), pending);
  }

  lemma OnCryptoSslHolds(c: Chan, e: Event, pending: bool)
    requires Rests(c, pending) && c.leaf.CryptoSsl? && Owed(c.calls, CbOf(e))
    requires e.EvShutCrypto? ==> LegacyTwoWay(e.how, e.cb)
    ensures Holds(OnCryptoSsl(c, e).c, pending)
  {
    hide DescInv, CallsInv, Sound, RefsInv, GoTo, SslRest, NoCloseYet, HandleRead, HandleWrite, ProcessDeferred,
      IoAllows, WasFired;
    match e
    case EvFdWatch(revents) =>
      SslWatches(c.io, Indicated(revents));
      IoChanges(c, ProcessDeferred(c.io, Unknown, Indicated(revents)), pending);
    case EvRead(cnt) =>
      SslReads(c.io, cnt);
      IoChanges(c, HandleRead(c.io, cnt).io, pending);
    case EvWrite(data) =>
      SslWrites(c.io, data);
      IoChanges(c, HandleWrite(c.io, data).io, pending);
    case EvRenegotiate(wait, cb) => RestGoes(c, ToReneg(wait, cb), pending);
    case EvShutCrypto(how, cb) => RestGoes(c, ToCryptoShut(how, cb), pending);
    case _ =>
  }

  lemma RenegRoundHolds(c: Chan)
    requires InFlight(c, c.renegCb, true) && c.leaf.CryptoReneg? && c.haveSsl
    requires c.calls.slot.NoCb? && c.calls.inFdWatchCb
    requires WatchCoherent(c.io) && !Pending(c.io.inState) && NoCloseYet(c.io) && !c.reneg.err.IsDeferral()
    ensures Holds(RenegRound(c).c, true)
  {
    hide DescInv, CallsInv, Sound, GoTo, NoCloseYet, DoRenegotiate, RenegRest;
    var (io, r) := DoRenegotiate(c.io, c.reneg);
    RenegSteps(c.io, c.reneg);
    RenegRestTells(io, r);
    var d := c.(io := io, reneg := r);
    assert LeafRefs(d) == LeafRefs(c) && SslRefs(d) == SslRefs(c);
    if !r.phase.RenegDone? {
      CryptoStays(d, c.renegCb, true);
    } else if !r.err.NoError? {
      CryptoFails(d, c.renegCb, r.err);
    } else {
      CryptoConnects(d, c.renegCb);
    }
  }

  lemma RenegRestTells(s: Io, r: Reneg)
    requires RenegRest(s, r)
    ensures Sound(s) && WatchCoherent(s) && !Pending(s.inState) && NoCloseYet(s) && !r.err.IsDeferral()
  {
  }

  lemma RenegReadHolds(c: Chan, cnt: nat, pending: bool)
    requires Rests(c, pending) && c.leaf.CryptoReneg?
    ensures Holds(RenegRead(c, cnt).c, pending)
  {
    hide DescInv, CallsInv, Sound, NoCloseYet, DoRenegotiate, RenegRest, HandleRead, Onward, NoTransport;
    var ready := BytesReady(c.io);
    if !(ready == 0 && cnt > 0) {
      var n := if ready < cnt then ready else cnt;
      var o := HandleRead(c.io, n);
      RenegRestTells(c.io, c.reneg);
      RenegReads(c.io, c.reneg, n);
      RenegSteps(o.io, c.reneg);
      var (io, r) := DoRenegotiate(o.io, c.reneg);
      if r.phase.RenegDone? {
        RenegKicks(io, r);
      }
      var io' := if r.phase.RenegDone? then io.(timer := true) else io;
      RestChanges(c, c.(io := io', reneg := r), pending);
    }
  }

  lemma RenegKicks(s: Io, r: Reneg)
    requires RenegRest(s, r) && r.phase.RenegDone?
    ensures RenegRest(s.(timer := true), r)
  {
    WatchIsApart(s, s.(timer := true));
  }

  lemma RenegAtRest(c: Chan)
    requires Rests(c, true) && c.leaf.CryptoReneg?
    ensures RenegRest(c.io, c.reneg) && Sound(c.io) && WatchCoherent(c.io) && !Pending(c.io.inState) && NoCloseYet(c.io)
    ensures !c.reneg.err.IsDeferral()
  {
    hide DescInv, CallsInv, RefsInv, Sound;
  }

  lemma RenegInFlight(c: Chan, s: Io)
    requires Rests(c, true) && c.leaf.CryptoReneg? && Sound(s)
    ensures InFlight(c.(io := s), c.renegCb, true) && c.haveSsl && c.calls.slot.NoCb? && c.calls.inFdWatchCb
  {
    hide DescInv, CallsInv, Sound, RenegRest;
    RestInFlight(c, true);
    var d := c.(io := s);
    assert LeafRefs(d) == LeafRefs(c) && SslRefs(d) == SslRefs(c);
  }

  lemma RenegWatchHolds(c: Chan, revents: Option<GioCond>)
    requires Rests(c, true) && c.leaf.CryptoReneg?
    ensures Holds(OnCryptoReneg(c, EvFdWatch(revents)).c, true)
  {
    hide Holds, InFlight, Sound, RenegRest, NoCloseYet, ProcessDeferred, RenegRound, WatchCoherent;
    RenegAtRest(c);
    if revents.Some? && c.reneg.phase.RenegFlushOut? {
      RenegFlushes(c.io, c.reneg, revents.value);
      var s := ProcessDeferred(c.io, Unknown, revents.value);
      RenegInFlight(c, s);
      RenegRoundHolds(c.(io := s));
    } else {
      RenegInFlight(c, c.io);
      RenegRoundHolds(c);
    }
  }

  lemma OnCryptoRenegHolds(c: Chan, e: Event, pending: bool)
    requires Rests(c, pending) && c.leaf.CryptoReneg? && Owed(c.calls, CbOf(e)) && (e.EvFdWatch? ==> pending)
    requires e.EvShutCrypto? ==> LegacyTwoWay(e.how, e.cb)
    ensures Holds(OnCryptoReneg(c, e).c, pending)
  {
    hide Holds, GoTo, ProcessDeferred, WasFired, RenegRound, RenegRead;
    match e
    case EvFdWatch(revents) => RenegWatchHolds(c, revents);
    case EvRead(cnt) => RenegReadHolds(c, cnt, pending);
    case EvShutCrypto(how, cb) => RestGoes(c, ToCryptoShut(how, cb), pending);
    case _ =>
  }

  lemma FailedOutputTells(s: Io)
    requires Sound(s) && s.outState.Failed?
    ensures s.outErr.IsFatal()
  {
  }

  /** Success: the callback is told; the legacy switch goes on to plaintext, with both alerts passed. */
  lemma ShutDoneHolds(c: Chan)
    requires InFlight(c, c.shutCb, true) && c.leaf.CryptoShut? && c.haveSsl && LegacyTwoWay(c.shutHow, c.shutCb)
    requires c.calls.slot.NoCb? && c.calls.inFdWatchCb && c.shutPhase.ShutSuccess?
    requires PhaseTells(c.io.ssl, c.shutHow, ShutSuccess) && !Pending(c.io.outState)
             && (c.shutHow.TwoWay? ==> !Pending(c.io.inState))
    ensures Holds(ShutDone(c).c, true)
  {
    hide DescInv, CallsInv, Sound, GoTo, ProcessDeferred, ShutRest;
    SchedCalls(c.calls, c.shutCb, NoError);
    var c1 := Sched(c, c.shutCb, NoError);
    if c.shutCb.Cb? && c.shutCb.kind.SwitchCb? {
      GoToHolds(c1, ToPlainTcp, true);
    } else {
      ShutSucceeds(c.io, c.shutHow);
      var io := ResetWatch(c.io);
      var d := c1.(io := if c.shutHow.OneWay? then ProcessDeferred(io, Unknown, {}) else io);
      ShutRestSound(d.io, c.shutHow, ShutSuccess);
      CryptoStays(d, NoCb, true);
    }
  }

  lemma ShutRestSound(s: Io, how: ShutHow, p: ShutPhase)
    requires ShutRest(s, how, p)
    ensures Sound(s)
  {
  }

  /** In the middle of a shutdown event, at one of the two phases that call SSL_shutdown. */
  ghost predicate ShutInFlight(c: Chan) {
    && InFlight(c, c.shutCb, true) && c.leaf.CryptoShut? && c.haveSsl && LegacyTwoWay(c.shutHow, c.shutCb)
    && c.calls.slot.NoCb? && c.calls.inFdWatchCb && (c.shutPhase.Shut1? || c.shutPhase.Shut2?)
    && PhaseTells(c.io.ssl, c.shutHow, c.shutPhase) && !Pending(c.io.outState)
       && (c.shutHow.TwoWay? ==> !Pending(c.io.inState))
    && WatchCoherent(c.io) && !c.io.timer
  }

  lemma ShutRoundHolds(c: Chan)
    requires ShutInFlight(c)
    ensures Holds(ShutRound(c).c, true)
  {
    hide DescInv, CallsInv, Sound, GoTo, DoShutdown, ShutDone, ShutRest, NothingWatched, Onward;
    if c.io.outState.Failed? {
      FailedOutputTells(c.io);
      CryptoFails(c, c.shutCb, c.io.outErr);
    } else {
      var r := DoShutdown(c.io, c.shutHow, c.shutPhase);
      ShutCloses(c.io, c.shutHow, c.shutPhase);
      var d := c.(io := r.io, shutPhase := r.phase);
      assert LeafRefs(d) == LeafRefs(c) && SslRefs(d) == SslRefs(c);
      if !r.err.NoError? {
        CryptoFails(d, c.shutCb, r.err);
      } else if r.phase.ShutSuccess? {
        ShutDoneHolds(d);
      } else {
        CryptoStays(d, c.shutCb, true);
      }
    }
  }

  lemma ShutFlushHolds(c: Chan, revents: GioCond)
    requires Rests(c, true) && c.leaf.CryptoShut? && (c.shutPhase.ShutInit? || c.shutPhase.ShutFlushOut?)
    ensures Holds(ShutFlush(c, revents).c, true)
  {
    hide DescInv, CallsInv, Sound, ProcessDeferred, ShutRest, ShutRound, Onward;
    RestInFlight(c, true);
    ShutFlushes(c.io, c.shutHow, c.shutPhase, revents);
    var io := ProcessDeferred(if c.shutPhase.ShutInit? then ResetWatch(c.io) else c.io, Unknown, revents);
    ShutRestSound(io, c.shutHow, ShutFlushOut);
    if Pending(io.outState) {
      RestChanges(c, c.(io := io, shutPhase := ShutFlushOut), true);
    } else {
      ShutRestInput(io, c.shutHow, ShutFlushOut);
      var d := c.(io := ResetWatch(io), shutPhase := Shut1);
      assert LeafRefs(d) == LeafRefs(c) && SslRefs(d) == SslRefs(c);
      ShutRoundHolds(d);
    }
  }

  lemma ShutRestInput(s: Io, how: ShutHow, p: ShutPhase)
    requires ShutRest(s, how, p)
    ensures how.TwoWay? ==> !Pending(s.inState)
  {
  }

  lemma ShutPhaseRest(s: Io, how: ShutHow, p: ShutPhase)
    requires ShutRest(s, how, p) && (p.Shut1? || p.Shut2?)
    ensures PhaseTells(s.ssl, how, p) && !Pending(s.outState) && (how.TwoWay? ==> !Pending(s.inState))
            && WatchCoherent(s) && !s.timer
  {
    hide Sound;
  }

  lemma ShutWatchHolds(c: Chan, revents: Option<GioCond>)
    requires Rests(c, true) && c.leaf.CryptoShut? && WatchFires(c.io, revents)
    ensures Holds(ShutWatch(c, Indicated(revents)).c, true)
    ensures c.shutPhase.ShutSuccess? ==> c.shutHow.OneWay?
  {
    hide DescInv, CallsInv, Sound, ProcessDeferred, ShutRest, ShutRound, ShutFlush, Onward;
    if c.shutPhase.ShutInit? || c.shutPhase.ShutFlushOut? {
      ShutFlushHolds(c, Indicated(revents));
    } else if c.shutPhase.Shut1? || c.shutPhase.Shut2? {
      RestInFlight(c, true);
      ShutPhaseRest(c.io, c.shutHow, c.shutPhase);
      ShutRoundHolds(c);
    } else if c.shutPhase.ShutSuccess? {
      TwoWaySuccessIsQuiet(c.io, c.shutHow, revents);
      ShutWatches(c.io, Indicated(revents));
      IoChanges(c, ProcessDeferred(c.io, Unknown, Indicated(revents)), true);
    }
  }

  /** After two-way success the watch cannot be ready. */
  lemma TwoWaySuccessIsQuiet(s: Io, how: ShutHow, revents: Option<GioCond>)
    requires ShutRest(s, how, ShutSuccess) && WatchFires(s, revents)
    ensures how.OneWay?
  {
  }

  lemma OnCryptoShutHolds(c: Chan, e: Event, pending: bool)
    requires Rests(c, pending) && c.leaf.CryptoShut? && Owed(c.calls, CbOf(e))
    requires e.EvFdWatch? ==> pending && WatchFires(c.io, e.revents)
    requires e.EvShutCrypto? ==> LegacyTwoWay(e.how, e.cb)
    ensures Holds(OnCryptoShut(c, e).c, pending)
  {
    hide DescInv, CallsInv, Sound, GoTo, ShutRest, HandleRead, ShutWatch, WasFired, IoAllows;
    match e
    case EvFdWatch(revents) => ShutWatchHolds(c, revents);
    case EvRead(cnt) =>
      if c.shutHow.OneWay? && (c.shutPhase.ShutSuccess? || c.shutPhase.ShutFlushOut?) {
        ShutReads(c.io, c.shutPhase, cnt);
        IoChanges(c, HandleRead(c.io, cnt).io, pending);
      }
    case EvResumePlaintext =>
      if c.shutPhase.ShutSuccess? && c.io.ssl.sent && c.io.ssl.received {
        RestGoes(c, ToPlainTcp, pending);
      }
    case EvShutCrypto(how, cb) =>
      if c.shutHow.OneWay? && how.TwoWay? {
        RestGoes(c, ToCryptoShut(how, cb), pending);
      }
    case _ =>
  }
}
