/** The transitions of the channel state machine keep its invariant. */
module ChannelTransitions {
  import opened Common
  import opened SslOracle
  import opened DeferredIo
  import opened DeferredIoProofs
  import opened CryptoControlProofs
  import opened CryptoRest
  import opened ChannelState
  import opened ChannelInvariant

  // ---------------------------------------------------------------------------------------
  // On the way: exits and the entry of a mode
  // ---------------------------------------------------------------------------------------

  /** Nothing but what belongs to the state that is left. */
  predicate OnTheWay(c: Chan, d: Chan) {
    d == c.(lookupSes := d.lookupSes, ctxRefs := d.ctxRefs, io := d.io, haveSsl := d.haveSsl, sslCtx := d.sslCtx,
      server := d.server)
  }

  lemma LeafLeftDoes(c: Chan)
    ensures var d := LeafLeft(c);
            && OnTheWay(c, d) && d.haveSsl == c.haveSsl && d.sslCtx == c.sslCtx && d.server == c.server
            && d.ctxRefs == c.ctxRefs - LeafRefs(c)
            && d.io == LeftIo(c.leaf, c.io)
  {
    hide LeftIo, LeafRefs;
  }

  lemma ModeLeftDoes(c: Chan)
    ensures var d := ModeLeft(c);
            && OnTheWay(c, d) && d.io == c.io
            && (if c.leaf.InCrypto() then
                  !d.haveSsl && d.sslCtx.None? && d.ctxRefs == c.ctxRefs - SslRefs(c)
                else d == c)
  {
  }

  lemma ModeEnteredDoes(c: Chan, mode: Mode)
    ensures var d := ModeEntered(c, mode);
            && OnTheWay(c, d) && d.ctxRefs == c.ctxRefs
            && (if mode.CryptoMode? then
                  d.sslCtx.None? && !d.haveSsl && d.io == NewIo(c.io.registered, c.io.timer)
                else d == c)
  {
    hide NewIo;
  }

  lemma TakeAway(a: multiset<nat>, b: multiset<nat>)
    ensures a + b - a == b
  {
  }

  /** Leaving the leaf gives back what its argument held. */
  lemma LeafLeftRefs(c: Chan)
    requires RefsInv(c)
    ensures var d := LeafLeft(c.(request := NoRequest));
            d.ctxRefs == SslRefs(d) + RequestRefs(c.request) && d.sslCtx == c.sslCtx
  {
    hide RequestRefs, LeftIo;
    var c0 := c.(request := NoRequest);
    assert LeafRefs(c0) == LeafRefs(c);
    LeafLeftDoes(c0);
    TakeAway(LeafRefs(c), SslRefs(c) + RequestRefs(c.request));
    assert c.ctxRefs == LeafRefs(c) + (SslRefs(c) + RequestRefs(c.request));
  }

  lemma ModeLeftRefs(c: Chan, held: multiset<nat>)
    requires c.ctxRefs == SslRefs(c) + held && (c.sslCtx.Some? ==> c.leaf.InCrypto())
    ensures var d := ModeLeft(c); d.ctxRefs == held && d.sslCtx.None?
  {
    TakeAway(SslRefs(c), held);
    assert c.sslCtx.None? ==> multiset{} + held == held;
  }

  /** On the way only the references of the request and, within the crypto mode, of the SSL object remain. */
  lemma PassageRefs(c: Chan, target: Leaf)
    requires RefsInv(c)
    ensures var d := Passage(c, target);
            && d.ctxRefs == SslRefs(d) + RequestRefs(c.request)
            && (d.sslCtx.Some? ==> target.InCrypto() && c.leaf.InCrypto() && d.sslCtx == c.sslCtx)
  {
    hide LeafLeft, ModeLeft, ModeEntered, LeafRefs, RequestRefs, LeftIo, NewIo;
    var c1 := LeafLeft(c.(request := NoRequest));
    LeafLeftDoes(c.(request := NoRequest));
    LeafLeftRefs(c);
    if c.leaf.Parent() != target.Parent() {
      ModeLeftRefs(c1, RequestRefs(c.request));
      ModeEnteredDoes(ModeLeft(c1), target.Parent());
      assert multiset{} + RequestRefs(c.request) == RequestRefs(c.request);
    }
  }

  lemma PassageDoes(c: Chan, target: Leaf)
    ensures var d := Passage(c, target);
            && OnTheWay(c.(request := NoRequest), d)
            && (c.leaf.InCrypto() && target.InCrypto() ==> d.haveSsl == c.haveSsl && d.server == c.server)
            && (!c.leaf.InCrypto() && target.InCrypto() ==> !d.haveSsl)
            && d.io == if target.InCrypto() && !c.leaf.InCrypto() then
                         NewIo(LeftIo(c.leaf, c.io).registered, LeftIo(c.leaf, c.io).timer)
                       else LeftIo(c.leaf, c.io)
  {
    hide LeafLeft, ModeLeft, ModeEntered, LeafRefs, RequestRefs, LeftIo, NewIo;
    var c0 := c.(request := NoRequest);
    LeafLeftDoes(c0);
    ModeLeftDoes(LeafLeft(c0));
    ModeEnteredDoes(ModeLeft(LeafLeft(c0)), target.Parent());
  }

  /** What entering a state leaves alone. */
  lemma EnteredKeeps(c: Chan, leaf: Leaf)
    ensures var d := LeafEntered(c, leaf);
            && d.request == c.request && d.leaf == c.leaf && d.ctxRefs == c.ctxRefs && d.sslCtx == c.sslCtx
            && d.calls == c.calls && d.haveSsl == c.haveSsl && d.server == c.server
            && (d.finalized <==> c.finalized || leaf.Final?) && (leaf.CryptoConn? ==> !d.started)
            && d.lookup == c.lookup && d.plainConn == c.plainConn && d.cryptoConn == c.cryptoConn
            && (leaf.CryptoShut? ==> d.shutPhase.ShutInit?)
  {
    hide CloseFd;
  }

  /** What beginning a state leaves alone. */
  predicate Keeps(c: Chan, d: Chan) {
    && d.calls == c.calls && d.request == c.request && d.leaf == c.leaf && d.finalized == c.finalized
    && d.ctxRefs == c.ctxRefs && d.sslCtx == c.sslCtx && d.haveSsl == c.haveSsl && d.server == c.server
    && d.started == c.started
  }

  lemma AttemptKeeps(c: Chan, arg: ConnArg, env: Env)
    ensures Keeps(c, PlainConnBegun(c, arg, env))
  {
    hide MakeSock;
  }

  lemma ControlKeeps(c: Chan, how: ShutHow, wait: bool, cb: Cb)
    ensures Keeps(c, ShutBegun(c, how, cb)) && Keeps(c, RenegBegun(c, wait, cb)) && Keeps(c, WatchReset(c))
  {
    hide ShutStart, RenegStart;
  }

  lemma BegunKeeps(c: Chan, req: Request, env: Env)
    ensures Keeps(c, Begun(c, req, env))
  {
    hide ProcessDeferred, ResetWatch, PlainConnBegun, ShutBegun, RenegBegun, WatchReset;
    match req
    case ToPlainConn(arg) => AttemptKeeps(c, arg, env);
    case ToReneg(wait, cb) => ControlKeeps(c, OneWay, wait, cb);
    case ToCryptoShut(how, cb) => ControlKeeps(c, how, false, cb);
    case _ => ControlKeeps(c, OneWay, false, NoCb);
  }

  /** The argument that came with the request. */
  lemma BegunArgs(c: Chan, req: Request, env: Env)
    ensures var d := Begun(c, req, env);
            && (req.ToLookup? ==> d.lookup == req.arg) && (req.ToPlainConn? ==> d.plainConn == req.arg)
            && (req.ToCryptoConn? ==> d.cryptoConn == req.arg)
  {
    hide ProcessDeferred, ResetWatch, RenegStart, ShutStart, MakeSock;
  }

  lemma ArrivedCalls(c: Chan, req: Request, env: Env)
    requires !req.NoRequest? && c.request.NoRequest?
    ensures var d := Arrived(c, req, env);
            d.calls == c.calls && d.request.NoRequest? && d.leaf == req.Target()
  {
    hide LeafEntered, Begun;
    var d := LeafEntered(c, req.Target());
    EnteredKeeps(c, req.Target());
    BegunKeeps(d.(leaf := req.Target()), req, env);
  }

  lemma ArrivedStarts(c: Chan, req: Request, env: Env)
    requires !req.NoRequest? && c.request.NoRequest?
    ensures var d := Arrived(c, req, env);
            (d.finalized <==> c.finalized || req.ToFinal?) && (req.ToCryptoConn? ==> !d.started)
  {
    hide LeafEntered, Begun;
    var d := LeafEntered(c, req.Target());
    EnteredKeeps(c, req.Target());
    BegunKeeps(d.(leaf := req.Target()), req, env);
  }

  lemma ArrivedHolding(c: Chan, req: Request, env: Env)
    requires !req.NoRequest? && c.request.NoRequest?
    ensures var d := Arrived(c, req, env);
            d.ctxRefs == c.ctxRefs && d.sslCtx == c.sslCtx && d.haveSsl == c.haveSsl && d.server == c.server
  {
    hide LeafEntered, Begun;
    var d := LeafEntered(c, req.Target());
    EnteredKeeps(c, req.Target());
    BegunKeeps(d.(leaf := req.Target()), req, env);
  }

  lemma ArrivedCb(c: Chan, req: Request, env: Env)
    requires !req.NoRequest? && c.request.NoRequest?
    ensures LeafCb(Arrived(c, req, env)) == LiveCb(c.(request := req))
  {
    hide LeafEntered, ProcessDeferred, ResetWatch, RenegStart, ShutStart, CloseFd, MakeSock;
    EnteredKeeps(c, req.Target());
  }

  lemma ArrivedRefs(c: Chan, req: Request, env: Env)
    requires !req.NoRequest? && c.request.NoRequest?
    ensures LeafRefs(Arrived(c, req, env)) == RequestRefs(req)
  {
    hide LeafEntered, Begun;
    var d := LeafEntered(c, req.Target()).(leaf := req.Target());
    BegunKeeps(d, req, env);
    BegunArgs(d, req, env);
  }

  lemma ArrivedDescIs(c: Chan, req: Request, env: Env)
    requires !req.NoRequest? && c.request.NoRequest?
    ensures var d := Arrived(c, req, env);
            && (!req.ToClosed? && !req.ToPlainConn? ==> d.desc == c.desc)
            && (req.ToClosed? ==> d.desc == CloseFd(c.desc))
            && (req.ToPlainConn? ==>
                  (d.desc, d.plainConnErr)
                  == if c.desc.fdIsUserProvided then (c.desc, env.nonBlockErr) else MakeSock(c.desc, env.sock))
  {
    hide ProcessDeferred, ResetWatch, RenegStart, ShutStart, CloseFd, MakeSock;
  }

  lemma ArrivedDesc(c: Chan, req: Request, env: Env)
    requires !req.NoRequest? && c.request.NoRequest? && DescInv(c.desc) && DescAllows(req, c.desc) && env.Plausible()
    ensures var d := Arrived(c, req, env);
            DescInv(d.desc) && LeafDesc(req.Target(), d.plainConnErr, d.desc)
            && (req.ToPlainConn? ==> d.plainConnErr.NoError? || d.plainConnErr.IsFatal())
  {
    hide Arrived, MakeSock, DescInv, CloseFd;
    ArrivedDescIs(c, req, env);
    if req.ToPlainConn? {
      AttemptDesc(c.desc, env);
    } else if req.ToClosed? {
      CloseKeeps(c.desc);
      ClosedIsClosed(c.desc);
    }
  }

  lemma ClosedIsClosed(d: Desc)
    ensures CloseFd(d).closed
  {
  }

  /** A connection attempt ends with a descriptor, or with an error and, unless it was the user's, without. */
  lemma AttemptDesc(d: Desc, env: Env)
    requires DescInv(d) && (d.fd >= 0 <==> d.fdIsUserProvided) && !d.closed && env.Plausible()
    ensures var (d', err) := if d.fdIsUserProvided then (d, env.nonBlockErr) else MakeSock(d, env.sock);
            && DescInv(d') && LeafDesc(PlainConn, err, d') && (err.NoError? || err.IsFatal())
  {
    hide MakeSock, DescInv;
    if !d.fdIsUserProvided {
      NoFdKnown(d);
      MakeSockKeeps(d, env);
    }
  }

  lemma NoFdKnown(d: Desc)
    requires DescInv(d)
    ensures d.fd < 0 ==> d.fd == NO_FD
  {
  }

  /** The I/O that the target finds. */
  ghost predicate FoundIo(c: Chan, target: Leaf, io: Io) {
    && (c.leaf.InCrypto() && target.InCrypto() ==>
          Sound(io) && NothingWatched(io) && Onward(c.io, io) && (NoCloseYet(c.io) ==> NoCloseYet(io)))
    && (!c.leaf.InCrypto() && target.InCrypto() ==> io == NewIo(io.registered, io.timer))
    && (!target.InCrypto() ==>
          Unwatched(io) && (c.leaf.InCrypto() ==> io.ssl == c.io.ssl && io.accepted == c.io.accepted))
  }

  lemma PassageIo(c: Chan, target: Leaf)
    requires IoAllows(c)
    ensures FoundIo(c, target, Passage(c, target).io)
  {
    hide Passage, Sound, IoAllows;
    PassageDoes(c, target);
    AllowsIo(c);
    if c.leaf.InCrypto() {
      ResetIsOnward(c.io);
      SameButWatchCloses(c.io, ResetWatch(c.io));
    }
  }

  lemma AllowsIo(c: Chan)
    requires IoAllows(c)
    ensures c.leaf.InCrypto() ==> Sound(c.io)
    ensures !c.leaf.InCrypto() && !c.leaf.PlainConn? ==> Unwatched(c.io)
    ensures c.leaf.CryptoFail? ==> NothingWatched(c.io)
  {
    hide Sound, NothingWatched, Unwatched;
  }

  lemma ArrivedIoIs(c: Chan, req: Request, env: Env)
    requires !req.NoRequest? && c.request.NoRequest?
    ensures var d := Arrived(c, req, env);
            match req
            case ToPlainConn(_) =>
              d.io == if d.plainConnErr.NoError? then c.io.(registered := {IoOut}, timer := false)
                      else c.io.(registered := {}, timer := true)
            case ToCryptoConn(_) => d.io == ResetWatch(c.io).(timer := true)
            case ToCryptoSsl => d.io == ProcessDeferred(ResetWatch(c.io), Unknown, {})
            case ToReneg(wait, _) => d.io == RenegStart(c.io) && d.reneg == Reneg(RenegInit, NoError, c.server, wait)
            case ToCryptoShut(how, cb) => d.io == ShutStart(c.io, how) && d.shutHow == how && d.shutCb == cb
              && d.shutPhase.ShutInit?
            case ToCryptoFail(_) => d.io == c.io
            case _ => d.io == c.io || d.io == c.io.(registered := {}, timer := false)
  {
    hide ProcessDeferred, ResetWatch, RenegStart, ShutStart, CloseFd, MakeSock;
  }

  lemma ArrivedIo(c: Chan, d: Chan, env: Env)
    requires IoAllows(c) && !c.request.NoRequest? && d.request.NoRequest? && FoundIo(c, c.request.Target(), d.io)
    requires c.request.Target().InCrypto() ==> d.haveSsl == (c.leaf.InCrypto() && c.haveSsl)
    requires var a := Arrived(d, c.request, env);
             && (c.request.ToPlainConn? ==> a.plainConnErr.NoError? || a.plainConnErr.IsFatal())
             && a.leaf == c.request.Target() && a.haveSsl == d.haveSsl && (a.leaf.CryptoConn? ==> !a.started)
    ensures LeafIo(Arrived(d, c.request, env))
  {
    hide Arrived, Sound, NothingWatched, NoCloseYet, Onward, ProcessDeferred, RenegStart, ShutStart, ConnRest,
      SslRest, RenegRest, ShutRest, NewIo, ResetWatch;
    ArrivedIoIs(d, c.request, env);
    AllowsIo(c);
    match c.request
    case ToCryptoConn(_) => ConnBegins(d.io.registered, d.io.timer);
    case ToCryptoSsl => SslBegins(d.io);
    case ToReneg(wait, _) => RenegBegins(d.io, Reneg(RenegInit, NoError, d.server, wait));
    case ToCryptoShut(how, _) => ShutBegins(d.io, how);
    case _ =>
  }

  lemma ArrivedOnward(c: Chan, d: Chan, env: Env)
    requires IoAllows(c) && !c.request.NoRequest? && d.request.NoRequest? && FoundIo(c, c.request.Target(), d.io)
    requires c.leaf.InCrypto() && c.request.Target().InCrypto()
    ensures Onward(c.io, Arrived(d, c.request, env).io)
  {
    hide Arrived, Sound, NothingWatched, NoCloseYet, Onward, ProcessDeferred, RenegStart, ShutStart, SslRest,
      RenegRest, ShutRest, ResetWatch;
    var a := Arrived(d, c.request, env);
    ArrivedIoIs(d, c.request, env);
    match c.request
    case ToCryptoSsl =>
      SslBegins(d.io);
      OnwardComposes(c.io, d.io, a.io);
    case ToReneg(wait, _) =>
      RenegBegins(d.io, Reneg(RenegInit, NoError, d.server, wait));
      OnwardComposes(c.io, d.io, a.io);
    case ToCryptoShut(how, _) =>
      ShutBegins(d.io, how);
      OnwardComposes(c.io, d.io, a.io);
    case _ =>
  }

  // ---------------------------------------------------------------------------------------
  // The transition as a whole
  // ---------------------------------------------------------------------------------------

  lemma MovedRefs(c: Chan, env: Env)
    requires !c.request.NoRequest? && RefsInv(c)
    ensures RefsInv(Moved(c, env))
  {
    hide Passage, Arrived, LeafRefs;
    var d := Passage(c, c.request.Target());
    PassageRefs(c, c.request.Target());
    PassageDoes(c, c.request.Target());
    ArrivedHolding(d, c.request, env);
    ArrivedRefs(d, c.request, env);
    ArrivedCalls(d, c.request, env);
    ArrivedStarts(d, c.request, env);
    var a := Arrived(d, c.request, env);
    assert a.ctxRefs == LeafRefs(a) + SslRefs(a) + RequestRefs(NoRequest);
  }

  lemma MovedIo(c: Chan, env: Env)
    requires !c.request.NoRequest? && IoAllows(c) && DescInv(c.desc) && DescAllows(c.request, c.desc) && env.Plausible()
    ensures LeafIo(Moved(c, env))
    ensures c.leaf.InCrypto() && c.request.Target().InCrypto() ==> Onward(c.io, Moved(c, env).io)
  {
    hide Passage, Arrived, IoAllows, LeafIo, FoundIo, DescInv, DescAllows, Onward;
    var d := Passage(c, c.request.Target());
    PassageDoes(c, c.request.Target());
    PassageIo(c, c.request.Target());
    ArrivedHolding(d, c.request, env);
    ArrivedCalls(d, c.request, env);
    ArrivedStarts(d, c.request, env);
    ArrivedDesc(d, c.request, env);
    ArrivedIo(c, d, env);
    if c.leaf.InCrypto() && c.request.Target().InCrypto() {
      ArrivedOnward(c, d, env);
    }
  }

  /** The state a transition leads to, its callbacks and what it still owes. */
  lemma MovedCalls(c: Chan, env: Env)
    requires !c.request.NoRequest?
    ensures var d := Moved(c, env);
            && d.leaf == c.request.Target() && d.request.NoRequest? && d.calls == c.calls && LiveCb(d) == LiveCb(c)
            && (d.finalized <==> c.finalized || c.request.ToFinal?)
  {
    hide Passage, Arrived, LeafCb;
    var d := Passage(c, c.request.Target());
    PassageDoes(c, c.request.Target());
    ArrivedCalls(d, c.request, env);
    ArrivedStarts(d, c.request, env);
    ArrivedCb(d, c.request, env);
    SameLive(c, d);
  }

  lemma SameLive(c: Chan, d: Chan)
    requires !c.request.NoRequest?
    ensures LiveCb(d.(request := c.request)) == LiveCb(c)
  {
  }

  lemma MovedDesc(c: Chan, env: Env)
    requires !c.request.NoRequest? && DescInv(c.desc) && DescAllows(c.request, c.desc) && env.Plausible()
    ensures var d := Moved(c, env); DescInv(d.desc) && LeafDesc(d.leaf, d.plainConnErr, d.desc)
  {
    hide Passage, Arrived, DescInv, DescAllows, LeafDesc;
    var d := Passage(c, c.request.Target());
    PassageDoes(c, c.request.Target());
    ArrivedCalls(d, c.request, env);
    ArrivedStarts(d, c.request, env);
    ArrivedDesc(d, c.request, env);
  }

  /** A transition that may be asked for ends at rest. */
  lemma MovedHolds(c: Chan, env: Env, pending: bool)
    requires Holds(c, pending) && env.Plausible() && (c.leaf.Final? ==> c.request.NoRequest?)
    ensures Holds(Moved(c, env), pending) && Moved(c, env).request.NoRequest?
  {
    hide Moved, RefsInv, DescInv, LeafDesc, LeafIo, IoAllows, CallsInv, LiveCb;
    if c.request.NoRequest? {
      NotMoved(c, env);
    } else {
      MovedRefs(c, env);
      MovedIo(c, env);
      MovedCalls(c, env);
      MovedDesc(c, env);
    }
  }

  lemma NotMoved(c: Chan, env: Env)
    requires c.request.NoRequest?
    ensures Moved(c, env) == c
  {
  }
}
