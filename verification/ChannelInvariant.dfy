/** What holds of the channel state machine between any two steps. */
module ChannelInvariant {
  import opened Common
  import opened SslOracle
  import opened DeferredIo
  import opened DeferredIoProofs
  import opened CryptoControlProofs
  import opened CryptoRest
  import opened ChannelState

  // ---------------------------------------------------------------------------------------
  // The invariant, piece by piece
  // ---------------------------------------------------------------------------------------

  /** The descriptor the machine has to close. */
  function Owned(d: Desc): multiset<int> {
    if d.fd >= 0 && !d.doNotClose then multiset{d.fd} else multiset{}
  }

  /** Exactly what the machine owns is not closed yet; an adopted descriptor excludes a server address. */
  predicate DescInv(d: Desc) {
    && Unclosed(d.log) == Owned(d) && ClosesOnce(d.log)
    && (d.fd >= 0 || d.fd == NO_FD) && (d.closed ==> d.fd == NO_FD)
    && (d.doNotClose ==> d.fdIsUserProvided) && (d.fdIsUserProvided ==> !d.serverSet)
  }

  predicate NeedsFd(leaf: Leaf) {
    leaf.PlainTcp? || leaf.PlainShut? || leaf.InCrypto()
  }

  /** Every connected state has a descriptor. */
  predicate LeafDesc(leaf: Leaf, connErr: PslError, d: Desc) {
    && (d.closed <==> leaf.Closed? || leaf.Final?) && (NeedsFd(leaf) ==> d.fd >= 0)
    && (leaf.Init? ==> (d.fd >= 0 <==> d.fdIsUserProvided))
    && (leaf.Lookup? ==> d.fd < 0 && !d.fdIsUserProvided && d.serverSet)
    && (leaf.PlainConn? && (d.fdIsUserProvided || connErr.NoError?) ==> d.fd >= 0)
  }

  /** What a requested transition needs of the descriptor. */
  predicate DescAllows(request: Request, d: Desc) {
    && (d.closed ==> request.NoRequest? || request.ToClosed? || request.ToFinal?)
    && match request
       case NoRequest => true
       case ToFinal => d.closed
       case ToLookup(_) => d.fd < 0 && !d.fdIsUserProvided && d.serverSet
       case ToPlainConn(_) => d.fd >= 0 <==> d.fdIsUserProvided
       case _ => NeedsFd(request.Target()) ==> d.fd >= 0
  }

  /** The SSL context references held are those of the active attempt, of the SSL object, and of a request under way. */
  predicate RefsInv(c: Chan) {
    && c.ctxRefs == LeafRefs(c) + SslRefs(c) + RequestRefs(c.request)
    && (c.sslCtx.Some? ==> c.leaf.InCrypto()) && (c.leaf.CryptoConn? && !c.started ==> c.sslCtx.None?)
    && (c.request.ToCryptoConn? ==> !c.leaf.InCrypto())
  }

  predicate Unwatched(s: Io) {
    s.registered == {} && !s.timer
  }

  /** The I/O of a state at rest. */
  ghost predicate LeafIo(c: Chan) {
    match c.leaf
    case PlainConn =>
      if c.plainConnErr.NoError? then c.io.registered == {IoOut} && !c.io.timer
      else c.plainConnErr.IsFatal() && c.io.registered == {} && c.io.timer
    case CryptoConn => ConnRest(c.io, c.started) && (c.started <==> c.haveSsl)
    case CryptoSsl => SslRest(c.io) && c.haveSsl
    case CryptoReneg => RenegRest(c.io, c.reneg) && c.haveSsl
    case CryptoShut => ShutRest(c.io, c.shutHow, c.shutPhase) && c.haveSsl && LegacyTwoWay(c.shutHow, c.shutCb)
    case CryptoFail => Sound(c.io) && NothingWatched(c.io)
    case _ => Unwatched(c.io)
  }

  predicate LegacyTwoWay(how: ShutHow, cb: Cb) {
    cb.Cb? && cb.kind.SwitchCb? ==> how.TwoWay?
  }

  /** What a requested transition needs of the I/O; leaving the state takes care of the watch. */
  ghost predicate IoAllows(c: Chan) {
    && (c.leaf.InCrypto() ==> Sound(c.io))
    && (!c.leaf.InCrypto() && !c.leaf.PlainConn? ==> Unwatched(c.io))
    && (c.leaf.CryptoFail? ==> NothingWatched(c.io))
    && match c.request
       case ToCryptoSsl => (c.leaf.CryptoConn? || c.leaf.CryptoReneg?) && NoCloseYet(c.io) && c.haveSsl
       case ToReneg(_, _) => c.leaf.CryptoSsl? && NoCloseYet(c.io) && c.haveSsl
       case ToCryptoShut(how, cb) =>
         (c.leaf.CryptoSsl? || c.leaf.CryptoReneg? || c.leaf.CryptoShut?) && c.haveSsl && LegacyTwoWay(how, cb)
       case ToCryptoFail(err) => c.leaf.InCrypto() && !c.leaf.CryptoFail? && err.IsFatal()
       case ToPlainFail(err) => (c.leaf.Lookup? || c.leaf.PlainConn?) && err.IsFatal()
       case ToPlainTcp => c.leaf.PlainConn? || (c.leaf.CryptoShut? && c.io.ssl.sent && c.io.ssl.received)
       case ToLookup(_) => c.leaf.Init?
       case ToPlainConn(_) => c.leaf.Init? || c.leaf.Lookup?
       case ToCryptoConn(_) => c.leaf.PlainConn? || c.leaf.PlainTcp?
       case _ => true
  }

  ghost predicate IoInv(c: Chan) {
    if c.request.NoRequest? then LeafIo(c) else IoAllows(c)
  }

  predicate WasFired(k: Calls, id: nat) {
    exists i :: 0 <= i < |k.fired| && k.fired[i].id == id
  }

  /** The callback that the state, or the request under way, still has to make. */
  function LiveCb(c: Chan): Cb {
    match c.request
    case NoRequest => LeafCb(c)
    case ToLookup(arg) => arg.cb
    case ToPlainConn(arg) => arg.cb
    case ToCryptoConn(arg) => arg.cb
    case ToReneg(_, cb) => cb
    case ToCryptoShut(_, cb) => cb
    case _ => NoCb
  }

  function LeafCb(c: Chan): Cb {
    match c.leaf
    case Lookup => c.lookup.cb
    case PlainConn => c.plainConn.cb
    case CryptoConn => c.cryptoConn.cb
    case CryptoReneg => c.renegCb
    case CryptoShut => if c.shutPhase.ShutSuccess? then NoCb else c.shutCb
    case _ => NoCb
  }

  /** A callback asked for and not made. */
  predicate Owed(k: Calls, cb: Cb) {
    cb.Cb? ==> cb.id in k.requested && !WasFired(k, cb.id)
  }

  /** No callback was made twice. */
  predicate FiredOnce(k: Calls) {
    && (forall i :: 0 <= i < |k.fired| ==> k.fired[i].id in k.requested)
    && (forall i, j :: 0 <= i < j < |k.fired| ==> k.fired[i].id != k.fired[j].id)
  }

  /** `pending`: the callback in the slot is still to be made. */
  predicate CallsInv(k: Calls, live: Cb, pending: bool) {
    && FiredOnce(k) && Owed(k, live)
    && (k.slot.Cb? ==> k.inFdWatchCb)
    && (pending ==> Owed(k, k.slot) && (live.Cb? && k.slot.Cb? ==> live.id != k.slot.id))
  }

  ghost predicate Holds(c: Chan, pending: bool) {
    && DescInv(c.desc) && LeafDesc(c.leaf, c.plainConnErr, c.desc) && DescAllows(c.request, c.desc)
    && RefsInv(c) && IoInv(c) && CallsInv(c.calls, LiveCb(c), pending)
    && (c.finalized <==> c.leaf.Final?)
  }

  /** The invariant between steps. */
  ghost predicate Inv(c: Chan) {
    c.request.NoRequest? && Holds(c, false)
  }

  lemma CreatedHolds(c: Chan)
    requires Created(c)
    ensures Inv(c)
  {
  }

  // ---------------------------------------------------------------------------------------
  // The accounts
  // ---------------------------------------------------------------------------------------

  lemma AdoptKeeps(d: Desc, fd: int, doNotClose: bool)
    requires DescInv(d) && d.fd < 0 && 0 <= fd && !d.serverSet && !d.closed && !d.fdIsUserProvided
    ensures DescInv(Adopt(d, fd, doNotClose))
  {
  }

  lemma CloseKeeps(d: Desc)
    requires DescInv(d)
    ensures DescInv(CloseFd(d)) && Unclosed(CloseFd(d).log) == multiset{}
  {
  }

  lemma MakeSockKeeps(d: Desc, env: Env)
    requires DescInv(d) && d.fd < 0 && !d.fdIsUserProvided && !d.closed && env.Plausible()
    ensures var (d', err) := MakeSock(d, env.sock);
            && DescInv(d') && (err.NoError? ==> d'.fd >= 0) && (err.NoError? || err.IsFatal())
            && !d'.fdIsUserProvided && !d'.closed && d'.serverSet == d.serverSet
  {
    if env.sock.BadConfig? {
      assert Unclosed(d.log) + multiset{env.sock.sock} - multiset{env.sock.sock} == Unclosed(d.log);
    }
  }
}
