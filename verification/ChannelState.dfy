/**
 The channel state machine as functions of values: the states' handlers, the transitions of
 the hierarchical dispatcher, and the callbacks around them.
 */
module ChannelState {
  import opened Common
  import opened SslOracle
  import opened DeferredIo

  // ---------------------------------------------------------------------------------------
  // States, requests and events
  // ---------------------------------------------------------------------------------------

  datatype Leaf =
    | Init | Closed | Final
    | Lookup | PlainConn | PlainTcp | PlainShut | PlainFail
    | CryptoConn | CryptoSsl | CryptoReneg | CryptoShut | CryptoFail
  {
    predicate InCrypto() {
      CryptoConn? || CryptoSsl? || CryptoReneg? || CryptoShut? || CryptoFail?
    }

    function Parent(): Mode {
      if Final? then Top
      else if Init? || Closed? then Alive
      else if InCrypto() then CryptoMode
      else PlainMode
    }
  }

  datatype Mode = Top | Alive | PlainMode | CryptoMode

  datatype ConnKind = KindPlain | KindClient | KindServer

  datatype CbKind = Completion | ConnectCb | SwitchCb

  /** A completion callback; `id` tells one request's callback from every other's. */
  datatype Cb = NoCb | Cb(id: nat, kind: CbKind)

  /** What a CONNECT asks for; `ctx` is the SSL context of the two crypto kinds. */
  datatype ConnArg = ConnArg(kind: ConnKind, ctx: nat, cb: Cb)

  /** A transition asked for by a handler, with the argument of the target's begin handler. */
  datatype Request =
    | NoRequest
    | ToClosed | ToFinal
    | ToLookup(arg: ConnArg) | ToPlainConn(arg: ConnArg) | ToPlainTcp | ToPlainShut | ToPlainFail(cause: PslError)
    | ToCryptoConn(arg: ConnArg) | ToCryptoSsl | ToReneg(wait: bool, cb: Cb)
    | ToCryptoShut(how: ShutHow, cb: Cb) | ToCryptoFail(cause: PslError)
  {
    function Target(): Leaf
      requires !NoRequest?
    {
      match this
      case ToClosed => Closed
      case ToFinal => Final
      case ToLookup(_) => Lookup
      case ToPlainConn(_) => PlainConn
      case ToPlainTcp => PlainTcp
      case ToPlainShut => PlainShut
      case ToPlainFail(_) => PlainFail
      case ToCryptoConn(_) => CryptoConn
      case ToCryptoSsl => CryptoSsl
      case ToReneg(_, _) => CryptoReneg
      case ToCryptoShut(_, _) => CryptoShut
      case ToCryptoFail(_) => CryptoFail
    }
  }

  datatype LookupResult = LookupFails(err: PslError) | NoAddress | Address

  datatype Event =
    | EvConnect(arg: ConnArg) | EvSetConnFd(fd: int, doNotClose: bool) | EvSetServer | EvSetSockBind
    | EvClose | EvFinalize
    | EvRead(cnt: nat) | EvWrite(data: seq<byte>) | EvShutSock
    | EvShutCrypto(how: ShutHow, cb: Cb) | EvResumePlaintext | EvRenegotiate(wait: bool, cb: Cb)
    | EvLookupDone(result: LookupResult) | EvFdWatch(revents: Option<GioCond>)

  datatype Status = Success | Error | ErrorCatchAll | PassToParent

  datatype Reply = NoReply | ReadReply(data: seq<byte>, how: IoStatus) | WriteReply(numWritten: nat, how: IoStatus)

  // ---------------------------------------------------------------------------------------
  // What the system answers
  // ---------------------------------------------------------------------------------------

  /** socket and its configuration, then connect. */
  datatype SockAnswer =
    | NoSocket(err: PslError) | BadConfig(sock: int, err: PslError) | Socket(sock: int, connectErr: PslError)

  /** SSL_new and the configuration of the SSL object, which then behaves as scripted. */
  datatype SetupAnswer = SetupOk(script: seq<Answer>) | SetupFails(err: PslError)

  datatype Env = Env(nonBlockErr: PslError, sock: SockAnswer, soError: PslError, setup: SetupAnswer, shutErr: PslError)
  {
    predicate Plausible() {
      && (nonBlockErr.NoError? || nonBlockErr.IsFatal()) && (soError.NoError? || soError.IsFatal())
      && (shutErr.NoError? || shutErr.IsFatal()) && (setup.SetupFails? ==> setup.err.IsFatal())
      && match sock
         case NoSocket(err) => err.IsFatal()
         case BadConfig(s, err) => 0 <= s && err.IsFatal()
         case Socket(s, err) => 0 <= s && (err.NoError? || err.IsFatal())
    }
  }

  // ---------------------------------------------------------------------------------------
  // Accounts of what the machine holds
  // ---------------------------------------------------------------------------------------

  datatype FdAct = Opened(fd: int) | Adopted(fd: int) | ClosedFd(fd: int)

  /** Descriptors the machine became responsible for, and those it closed; the last act outermost. */
  datatype FdLog = NoActs | FdThen(before: FdLog, last: FdAct)

  function Unclosed(log: FdLog): multiset<int> {
    match log
    case NoActs => multiset{}
    case FdThen(before, ClosedFd(fd)) => Unclosed(before) - multiset{fd}
    case FdThen(before, act) => Unclosed(before) + multiset{act.fd}
  }

  /** Only descriptors that are open and owned are ever closed. */
  predicate ClosesOnce(log: FdLog) {
    match log
    case NoActs => true
    case FdThen(before, act) => ClosesOnce(before) && (act.ClosedFd? ==> act.fd in Unclosed(before))
  }

  /** A completion callback that ran. */
  datatype Firing = Firing(id: nat, err: PslError)

  const NO_FD := -1

  /** The descriptor with its settings, and the account of what was opened and closed. */
  datatype Desc = Desc(
    fd: int, fdIsUserProvided: bool, doNotClose: bool, serverSet: bool, bindSet: bool, closed: bool, log: FdLog)

  /** The slot for the callback to make after FD_WATCH, the callbacks made and those ever asked for. */
  datatype Calls = Calls(inFdWatchCb: bool, slot: Cb, slotErr: PslError, fired: seq<Firing>, requested: set<nat>)

  /** Every field of the machine, and the accounts; `ctxRefs` are the SSL context references it holds. */
  datatype Chan = Chan(
    leaf: Leaf, request: Request, finalized: bool, desc: Desc, calls: Calls, ctxRefs: multiset<nat>,
    lookup: ConnArg, lookupSes: bool,
    plainConn: ConnArg, plainConnErr: PslError,
    cryptoConn: ConnArg, started: bool,
    haveSsl: bool, sslCtx: Option<nat>, server: bool, io: Io,
    reneg: Reneg, renegCb: Cb,
    shutHow: ShutHow, shutPhase: ShutPhase, shutCb: Cb,
    failErr: PslError)

  datatype Result = Result(c: Chan, status: Status, reply: Reply)

  function Done(c: Chan, status: Status): Result {
    Result(c, status, NoReply)
  }

  /** The kind needs an SSL context. */
  predicate IsCrypto(kind: ConnKind) {
    !kind.KindPlain?
  }

  function ArgRefs(arg: ConnArg): multiset<nat> {
    if IsCrypto(arg.kind) then multiset{arg.ctx} else multiset{}
  }

  /** psl_multi_fd_watch_reset */
  function WatchReset(c: Chan): Chan {
    c.(io := c.io.(registered := {}, timer := false))
  }

  // ---------------------------------------------------------------------------------------
  // Asking for a transition, scheduling a callback
  // ---------------------------------------------------------------------------------------

  /** The references that a request carries to its target. */
  function RequestRefs(request: Request): multiset<nat> {
    match request
    case ToLookup(arg) => ArgRefs(arg)
    case ToPlainConn(arg) => ArgRefs(arg)
    case ToCryptoConn(arg) => multiset{arg.ctx}
    case _ => multiset{}
  }

  /** psl_chan_fsm_goto_*: the wrappers that pass on a connect argument take a reference. */
  function GoTo(c: Chan, request: Request): Chan
    requires !request.NoRequest?
  {
    c.(request := request, ctxRefs := c.ctxRefs + RequestRefs(request))
  }

  /** psl_chan_fsm_sched_fdwatch_completion_cb */
  function Sched(c: Chan, cb: Cb, err: PslError): Chan {
    c.(calls := c.calls.(slot := cb, slotErr := err))
  }

  // ---------------------------------------------------------------------------------------
  // The handlers of the leaf states
  // ---------------------------------------------------------------------------------------

  /** SET_CONN_FD; the machine has to close the descriptor unless the user keeps it. */
  function Adopt(d: Desc, fd: int, doNotClose: bool): Desc {
    d.(fd := fd, fdIsUserProvided := true, doNotClose := doNotClose,
       log := if doNotClose then d.log else FdThen(d.log, Adopted(fd)))
  }

  /** chan_fsm_init_state_handler */
  function OnInit(c: Chan, e: Event): Result {
    match e
    case EvConnect(arg) =>
      if !c.desc.serverSet && c.desc.fd < 0 then Done(c, Error)
      else if c.desc.fd < 0 then Done(GoTo(c, ToLookup(arg)), Success)
      else Done(GoTo(c, ToPlainConn(arg)), Success)
    case EvSetConnFd(fd, doNotClose) =>
      if fd < 0 || c.desc.serverSet || c.desc.bindSet || c.desc.fd >= 0 then Done(c, PassToParent)
      else Done(c.(desc := Adopt(c.desc, fd, doNotClose)), Success)
    case EvSetServer =>
      if c.desc.fd >= 0 || c.desc.serverSet then Done(c, PassToParent)
      else Done(c.(desc := c.desc.(serverSet := true)), Success)
    case EvSetSockBind =>
      if c.desc.fd >= 0 || c.desc.bindSet then Done(c, PassToParent)
      else Done(c.(desc := c.desc.(bindSet := true)), Success)
    case _ => Done(c, PassToParent)
  }

  /** plain_lookup_state_handler */
  function OnLookup(c: Chan, e: Event): Result {
    match e
    case EvLookupDone(LookupFails(err)) => Done(GoTo(c, ToPlainFail(err)), Error)
    case EvLookupDone(NoAddress) => Done(GoTo(c, ToPlainFail(BadServAddr)), Error)
    case EvLookupDone(Address) => Done(GoTo(c, ToPlainConn(c.lookup)), Success)
    case _ => Done(c, PassToParent)
  }

  /** How the connection attempt ended: the socket's own error, or what the poll indicated. */
  function ConnectError(c: Chan, revents: Option<GioCond>, env: Env): PslError {
    if !c.plainConnErr.NoError? then c.plainConnErr
    else if !c.desc.fdIsUserProvided && !env.soError.NoError? then env.soError
    else if revents.Some? && (IoOut !in revents.value || revents.value * FAIL_CONDITIONS != {}) then TcpConnect
    else NoError
  }

  /** plain_conn_state_handler */
  function OnPlainConn(c: Chan, e: Event, env: Env): Result {
    match e
    case EvFdWatch(revents) =>
      var err := ConnectError(c, revents, env);
      var c1 := WatchReset(c).(plainConnErr := err);
      var c2 := if !err.NoError? || !IsCrypto(c.plainConn.kind) then Sched(c1, c.plainConn.cb, err) else c1;
      if !err.NoError? then Done(GoTo(c2, ToPlainFail(err)), Error)
      else if !IsCrypto(c.plainConn.kind) then Done(GoTo(c2, ToPlainTcp), Success)
      else Done(GoTo(c2, ToCryptoConn(c.plainConn)), Success)
    case _ => Done(c, PassToParent)
  }

  /** psl_chan_fsm_plain_shut_sock_and_goto_shut_on_success */
  function ShutSock(c: Chan, env: Env): Result {
    if env.shutErr.NoError? then Done(GoTo(c, ToPlainShut), Success) else Done(c, Error)
  }

  /** plain_tcp_state_handler; reading and writing the descriptor changes nothing here. */
  function OnPlainTcp(c: Chan, e: Event, env: Env): Result {
    match e
    case EvConnect(arg) =>
      if IsCrypto(arg.kind) then Done(GoTo(c, ToCryptoConn(arg)), Success) else Done(c, PassToParent)
    case EvRead(_) => Done(c, Success)
    case EvWrite(_) => Done(c, Success)
    case EvShutSock => ShutSock(c, env)
    case _ => Done(c, PassToParent)
  }

  /** plain_shut_state_handler */
  function OnPlainShut(c: Chan, e: Event, env: Env): Result {
    match e
    case EvRead(_) => Done(c, Success)
    case EvWrite(_) => Done(c, Success)
    case EvShutSock => Done(c, if env.shutErr.NoError? then Success else Error)
    case _ => Done(c, PassToParent)
  }

  /** plain_fail_state_handler and crypto_fail_state_handler */
  function OnFail(c: Chan, e: Event): Result {
    if e.EvRead? || e.EvWrite? then Done(c, ErrorCatchAll) else Done(c, PassToParent)
  }

  /** The first round of CRYPTO_CONN: crypto_create_and_config_ssl. */
  function ConnSetup(c: Chan, setup: SetupAnswer): (Chan, PslError) {
    var c1 := c.(started := true, io := ResetWatch(c.io), server := c.cryptoConn.kind.KindServer?);
    match setup
    case SetupFails(err) => (c1, err)
    case SetupOk(script) =>
      (c1.(haveSsl := true, sslCtx := Some(c.cryptoConn.ctx), ctxRefs := c.ctxRefs + multiset{c.cryptoConn.ctx},
           io := c1.io.(ssl := NewSsl(script))), NoError)
  }

  /** A round of the handshake in CRYPTO_CONN, when nothing went wrong before. */
  function ConnRound(c: Chan, before: PslError): Result {
    var h := DoHandshake(c.io);
    var c1 := if before.NoError? then c.(io := h.io) else c;
    var err := if before.NoError? then h.err else before;
    if !err.NoError? then Done(GoTo(Sched(c1, c.cryptoConn.cb, err), ToCryptoFail(err)), Error)
    else if h.done then Done(GoTo(Sched(c1, c.cryptoConn.cb, NoError), ToCryptoSsl), Success)
    else Done(c1, Success)
  }

  /** crypto_conn_state_handler */
  function OnCryptoConn(c: Chan, e: Event, env: Env): Result {
    match e
    case EvFdWatch(_) =>
      if c.started then ConnRound(c, NoError)
      else
        var (c1, err) := ConnSetup(c, env.setup);
        ConnRound(c1, err)
    case _ => Done(c, PassToParent)
  }

  function Indicated(revents: Option<GioCond>): GioCond {
    if revents.Some? then revents.value else {}
  }

  function ReadResult(c: Chan, o: ReadOutcome): Result {
    Result(c.(io := o.io), if o.status.StatusError? then Error else Success, ReadReply(o.data, o.status))
  }

  function WriteResult(c: Chan, o: WriteOutcome): Result {
    Result(c.(io := o.io), if o.status.StatusError? then Error else Success, WriteReply(o.numWritten, o.status))
  }

  /** crypto_ssl_state_handler */
  function OnCryptoSsl(c: Chan, e: Event): Result {
    match e
    case EvFdWatch(revents) => Done(c.(io := ProcessDeferred(c.io, Unknown, Indicated(revents))), Success)
    case EvRead(cnt) => ReadResult(c, HandleRead(c.io, cnt))
    case EvWrite(data) => WriteResult(c, HandleWrite(c.io, data))
    case EvRenegotiate(wait, cb) =>
      if wait && !c.server then Done(c, Error) else Done(GoTo(c, ToReneg(wait, cb)), Success)
    case EvShutCrypto(how, cb) => Done(GoTo(c, ToCryptoShut(how, cb)), Success)
    case _ => Done(c, PassToParent)
  }

  /** A round of the renegotiation started by the watch. */
  function RenegRound(c: Chan): Result {
    var (io, r) := DoRenegotiate(c.io, c.reneg);
    var c1 := c.(io := io, reneg := r);
    if !r.phase.RenegDone? then Done(c1, Success)
    else if !r.err.NoError? then Done(GoTo(Sched(c1, c.renegCb, r.err), ToCryptoFail(r.err)), Success)
    else Done(GoTo(Sched(c1, c.renegCb, NoError), ToCryptoSsl), Success)
  }

  /** A read while renegotiating takes what is ready and no more, then lets the renegotiation go on. */
  function RenegRead(c: Chan, cnt: nat): Result {
    var ready := BytesReady(c.io);
    if ready == 0 && cnt > 0 then Result(c, Success, ReadReply([], StatusAgain))
    else
      var o := HandleRead(c.io, if ready < cnt then ready else cnt);
      var (io, r) := DoRenegotiate(o.io, c.reneg);
      ReadResult(c.(reneg := r), o.(io := if r.phase.RenegDone? then io.(timer := true) else io))
  }

  /** crypto_renegotiate_state_handler */
  function OnCryptoReneg(c: Chan, e: Event): Result {
    match e
    case EvFdWatch(revents) =>
      if revents.Some? && c.reneg.phase.RenegFlushOut? then
        RenegRound(c.(io := ProcessDeferred(c.io, Unknown, revents.value)))
      else RenegRound(c)
    case EvRead(cnt) => RenegRead(c, cnt)
    case EvWrite(_) => Result(c, Success, WriteReply(0, StatusAgain))
    case EvShutCrypto(how, cb) => Done(GoTo(c, ToCryptoShut(how, cb)), Success)
    case _ => Done(c, PassToParent)
  }

  /** After success, one way: the reader may go on. */
  function ShutDone(c: Chan): Result {
    var c1 := Sched(c, c.shutCb, NoError);
    if c.shutCb.Cb? && c.shutCb.kind.SwitchCb? then Done(GoTo(c1, ToPlainTcp), Success)
    else
      var io := ResetWatch(c.io);
      Done(c1.(io := if c.shutHow.OneWay? then ProcessDeferred(io, Unknown, {}) else io), Success)
  }

  /** A round of SSL_shutdown, unless the output has failed before it. */
  function ShutRound(c: Chan): Result {
    if c.io.outState.Failed? then
      Done(GoTo(Sched(c, c.shutCb, c.io.outErr), ToCryptoFail(c.io.outErr)), Error)
    else
      var r := DoShutdown(c.io, c.shutHow, c.shutPhase);
      var c1 := c.(io := r.io, shutPhase := r.phase);
      if !r.err.NoError? then Done(GoTo(Sched(c1, c.shutCb, r.err), ToCryptoFail(r.err)), Error)
      else if r.phase.ShutSuccess? then ShutDone(c1)
      else Done(c1, Success)
  }

  /** A round of flushing; when nothing waits any more, SSL_shutdown starts. */
  function ShutFlush(c: Chan, revents: GioCond): Result {
    var io := ProcessDeferred(if c.shutPhase.ShutInit? then ResetWatch(c.io) else c.io, Unknown, revents);
    if Pending(io.outState) then Done(c.(io := io, shutPhase := ShutFlushOut), Success)
    else ShutRound(c.(io := ResetWatch(io), shutPhase := Shut1))
  }

  function ShutWatch(c: Chan, revents: GioCond): Result {
    match c.shutPhase
    case ShutInit => ShutFlush(c, revents)
    case ShutFlushOut => ShutFlush(c, revents)
    case Shut1 => ShutRound(c)
    case Shut2 => ShutRound(c)
    case ShutSuccess => Done(c.(io := ProcessDeferred(c.io, Unknown, revents)), Success)
    case ShutFailed => Done(c, Success)
  }

  /** Reading is possible one way only, while flushing or after success. */
  function ShutRead(c: Chan, cnt: nat): Result {
    if c.shutHow.TwoWay? then
      Result(c, Success, ReadReply([], if c.shutPhase.ShutSuccess? then StatusEof else StatusAgain))
    else if c.shutPhase.ShutSuccess? || c.shutPhase.ShutFlushOut? then ReadResult(c, HandleRead(c.io, cnt))
    else Result(c, Success, ReadReply([], StatusAgain))
  }

  /** crypto_shut_state_handler */
  function OnCryptoShut(c: Chan, e: Event): Result {
    match e
    case EvFdWatch(revents) => ShutWatch(c, Indicated(revents))
    case EvRead(cnt) => ShutRead(c, cnt)
    case EvResumePlaintext =>
      if c.shutPhase.ShutSuccess? && c.io.ssl.sent && c.io.ssl.received then Done(GoTo(c, ToPlainTcp), Success)
      else Done(c, PassToParent)
    case EvShutCrypto(how, cb) =>
      if c.shutHow.OneWay? && how.TwoWay? then Done(GoTo(c, ToCryptoShut(how, cb)), Success) else Done(c, PassToParent)
    case _ => Done(c, PassToParent)
  }

  // ---------------------------------------------------------------------------------------
  // The handlers of the enclosing states, and the way up
  // ---------------------------------------------------------------------------------------

  function OnLeaf(c: Chan, e: Event, env: Env): Result {
    match c.leaf
    case Init => OnInit(c, e)
    case Lookup => OnLookup(c, e)
    case PlainConn => OnPlainConn(c, e, env)
    case PlainTcp => OnPlainTcp(c, e, env)
    case PlainShut => OnPlainShut(c, e, env)
    case PlainFail => OnFail(c, e)
    case CryptoConn => OnCryptoConn(c, e, env)
    case CryptoSsl => OnCryptoSsl(c, e)
    case CryptoReneg => OnCryptoReneg(c, e)
    case CryptoShut => OnCryptoShut(c, e)
    case CryptoFail => OnFail(c, e)
    case Closed => Done(c, PassToParent)
    case Final => Done(c, PassToParent)
  }

  /** crypto_mode_state_handler and plain_mode_state_handler, for a leaf that passed the event on. */
  function OnMode(c: Chan, e: Event, env: Env): Result {
    if c.leaf.InCrypto() && e.EvShutSock? then ShutSock(c, env) else Done(c, PassToParent)
  }

  /** chan_fsm_alive_state_handler */
  function OnAlive(c: Chan, e: Event): Result {
    match e
    case EvClose => Done(GoTo(c, ToClosed), Success)
    case EvFinalize => Done(GoTo(c, ToFinal), Success)
    case _ => Done(c, ErrorCatchAll)
  }

  /** An event goes from the leaf to the root until one handler takes it. */
  function Handled(c: Chan, e: Event, env: Env): Result {
    var r := OnLeaf(c, e, env);
    if !r.status.PassToParent? then r
    else
      var r1 := OnMode(c, e, env);
      if !r1.status.PassToParent? then r1 else OnAlive(c, e)
  }

  // ---------------------------------------------------------------------------------------
  // Transitions: exits to the common ancestor, entries, the target's begin
  // ---------------------------------------------------------------------------------------

  /** The SSL context references that a state's exit handler gives back: those of its connect argument. */
  function LeafRefs(c: Chan): multiset<nat> {
    match c.leaf
    case Lookup => ArgRefs(c.lookup)
    case PlainConn => ArgRefs(c.plainConn)
    case CryptoConn => multiset{c.cryptoConn.ctx}
    case _ => multiset{}
  }

  /** The states that use the watch clean it up. */
  function LeftIo(leaf: Leaf, io: Io): Io {
    if leaf.PlainConn? then io.(registered := {}, timer := false)
    else if leaf.InCrypto() && !leaf.CryptoFail? then ResetWatch(io)
    else io
  }

  /** The exit handlers of the leaf states. */
  function LeafLeft(c: Chan): Chan {
    c.(lookupSes := c.lookupSes && !c.leaf.Lookup?, ctxRefs := c.ctxRefs - LeafRefs(c), io := LeftIo(c.leaf, c.io))
  }

  function SslRefs(c: Chan): multiset<nat> {
    if c.sslCtx.Some? then multiset{c.sslCtx.value} else multiset{}
  }

  function ModeLeft(c: Chan): Chan {
    if c.leaf.InCrypto() then c.(haveSsl := false, sslCtx := None, ctxRefs := c.ctxRefs - SslRefs(c)) else c
  }

  /** crypto_mode_state_handler's enter: the shared information is zeroed. */
  function ModeEntered(c: Chan, mode: Mode): Chan {
    if mode.CryptoMode? then
      c.(haveSsl := false, sslCtx := None, server := false,
         io := NewIo(c.io.registered, c.io.timer))
    else c
  }

  /** chan_fsm_closed_state_handler's enter: the descriptor is closed unless the user keeps it. */
  function CloseFd(d: Desc): Desc {
    d.(fd := NO_FD, closed := true, log := if d.fd >= 0 && !d.doNotClose then FdThen(d.log, ClosedFd(d.fd)) else d.log)
  }

  /** The enter handlers of the leaf states. */
  function LeafEntered(c: Chan, leaf: Leaf): Chan {
    c.(desc := if leaf.Closed? then CloseFd(c.desc) else c.desc,
       finalized := c.finalized || leaf.Final?,
       lookupSes := c.lookupSes && !leaf.Lookup?,
       plainConnErr := if leaf.PlainConn? then NoError else c.plainConnErr,
       started := c.started && !leaf.CryptoConn?,
       reneg := if leaf.CryptoReneg? then c.reneg.(phase := RenegInit, err := NoError) else c.reneg,
       shutPhase := if leaf.CryptoShut? then ShutInit else c.shutPhase,
       io := if leaf.Final? then c.io.(registered := {}, timer := false) else c.io)
  }

  /** plain_make_and_config_sock and psl_inet_connect_sock; a socket that cannot be configured is closed again. */
  function MakeSock(d: Desc, sock: SockAnswer): (Desc, PslError) {
    match sock
    case NoSocket(err) => (d, err)
    case BadConfig(s, err) => (d.(log := FdThen(FdThen(d.log, Opened(s)), ClosedFd(s))), err)
    case Socket(s, err) => (d.(fd := s, log := FdThen(d.log, Opened(s))), err)
  }

  /** The begin handler of PLAIN_CONN: the descriptor is there already, or a socket is made and connected. */
  function PlainConnBegun(c: Chan, arg: ConnArg, env: Env): Chan {
    var (d, err) := if c.desc.fdIsUserProvided then (c.desc, env.nonBlockErr) else MakeSock(c.desc, env.sock);
    var io := if err.NoError? then c.io.(registered := {IoOut}, timer := false)
      else c.io.(registered := {}, timer := true);
    c.(plainConn := arg, desc := d, plainConnErr := err, io := io)
  }

  function ShutBegun(c: Chan, how: ShutHow, cb: Cb): Chan {
    c.(shutHow := how, shutCb := cb, io := ShutStart(c.io, how))
  }

  function RenegBegun(c: Chan, wait: bool, cb: Cb): Chan {
    c.(reneg := Reneg(c.reneg.phase, c.reneg.err, c.server, wait), renegCb := cb, io := RenegStart(c.io))
  }

  /** The begin handler of the target. */
  function Begun(c: Chan, request: Request, env: Env): Chan {
    match request
    case NoRequest => c
    case ToClosed => WatchReset(c)
    case ToFinal => c
    case ToLookup(arg) => c.(lookup := arg, lookupSes := true)
    case ToPlainConn(arg) => PlainConnBegun(c, arg, env)
    case ToPlainTcp => c
    case ToPlainShut => c
    case ToPlainFail(err) => WatchReset(c).(failErr := err)
    case ToCryptoConn(arg) => c.(cryptoConn := arg, io := ResetWatch(c.io).(timer := true))
    case ToCryptoSsl => c.(io := ProcessDeferred(ResetWatch(c.io), Unknown, {}))
    case ToReneg(wait, cb) => RenegBegun(c, wait, cb)
    case ToCryptoShut(how, cb) => ShutBegun(c, how, cb)
    case ToCryptoFail(err) => c.(failErr := err)
  }

  /**
   The way to a target: the leaf and, unless it is also the target's, its mode are left; the
   target's mode is entered if new.
   */
  function Passage(c: Chan, target: Leaf): Chan {
    var c1 := LeafLeft(c.(request := NoRequest));
    if c.leaf.Parent() == target.Parent() then c1 else ModeEntered(ModeLeft(c1), target.Parent())
  }

  /** The target is entered, also when it is the state that was left, and begins. */
  function Arrived(c: Chan, request: Request, env: Env): Chan
    requires !request.NoRequest?
  {
    Begun(LeafEntered(c, request.Target()).(leaf := request.Target()), request, env)
  }

  /** The transition asked for, if any. */
  function Moved(c: Chan, env: Env): Chan {
    if c.request.NoRequest? then c else Arrived(Passage(c, c.request.Target()), c.request, env)
  }

  // ---------------------------------------------------------------------------------------
  // The callbacks into and out of the machine
  // ---------------------------------------------------------------------------------------

  /** One event, run to completion. */
  function Dispatched(c: Chan, e: Event, env: Env): Result {
    var r := Handled(c, e, env);
    r.(c := Moved(r.c, env))
  }

  /** psl_chan_fsm_dispatch_completion_cb: nothing is called once the machine is closed. */
  function Called(c: Chan, cb: Cb, err: PslError): Chan {
    if c.desc.closed || cb.NoCb? then c
    else c.(calls := c.calls.(fired := c.calls.fired + [Firing(cb.id, err)]))
  }

  /** The watch is calling back. */
  function Marked(c: Chan): Chan {
    c.(calls := c.calls.(inFdWatchCb := true))
  }

  /** chan_fsm_fd_watch_cb up to the user's callback; with none to call, up to its end. */
  function WatchCalled(c: Chan, revents: Option<GioCond>, env: Env): Chan
  {
    var d := Dispatched(Marked(c), EvFdWatch(revents), env).c;
    if d.calls.slot.Cb? then Called(d, d.calls.slot, d.calls.slotErr) else WatchReturned(d)
  }

  /** The rest of chan_fsm_fd_watch_cb, after the user's callback returned. */
  function WatchReturned(c: Chan): Chan {
    c.(calls := c.calls.(slot := NoCb, inFdWatchCb := false))
  }

  /** plain_host_lookup_cb: a failure is reported after the machine has dealt with it. */
  function LookupCalled(c: Chan, result: LookupResult, env: Env): Chan
  {
    var d := Dispatched(c, EvLookupDone(result), env).c;
    if result.LookupFails? then Called(d, d.lookup.cb, result.err) else d
  }

  /** psl_chan_fsm_finalize */
  function Finalized(c: Chan, env: Env): Chan
  {
    var d := if c.desc.closed then c else Dispatched(c, EvClose, env).c;
    Dispatched(d, EvFinalize, env).c
  }

  /** The callback an event brings with it. */
  function CbOf(e: Event): Cb {
    match e
    case EvConnect(arg) => arg.cb
    case EvShutCrypto(_, cb) => cb
    case EvRenegotiate(_, cb) => cb
    case _ => NoCb
  }

  function IdsOf(cb: Cb): set<nat> {
    if cb.Cb? then {cb.id} else {}
  }

  /** The callback's identity is used up by the call that brings it. */
  function Noted(c: Chan, cb: Cb): Chan {
    c.(calls := c.calls.(requested := c.calls.requested + IdsOf(cb)))
  }

  /** A machine just created. */
  predicate Created(c: Chan) {
    && c.leaf.Init? && c.request.NoRequest? && !c.finalized
    && c.desc == Desc(NO_FD, false, false, false, false, false, NoActs)
    && c.calls.slot.NoCb? && !c.calls.inFdWatchCb && c.calls.fired == [] && c.calls.requested == {}
    && c.ctxRefs == multiset{} && c.sslCtx.None? && !c.haveSsl && !c.lookupSes && c.io == NewIo({}, false)
  }

  /** The fields a new machine starts with. */
  const NO_ARG := ConnArg(KindPlain, 0, NoCb)

  const NEW_CHAN := Chan(
    Init, NoRequest, false, Desc(NO_FD, false, false, false, false, false, NoActs), Calls(false, NoCb, NoError, [], {}),
    multiset{}, NO_ARG, false, NO_ARG, NoError, NO_ARG, false, false, None, false, NewIo({}, false),
    Reneg(RenegInit, NoError, false, false), NoCb, OneWay, ShutInit, NoCb, NoError)

  /** What can happen to a machine: calls by the user, callbacks into it, and their end. */
  datatype Step =
    | UserCall(e: Event, env: Env)
    | WatchReady(revents: Option<GioCond>, env: Env)
    | WatchReturns
    | LookupEnds(result: LookupResult, env: Env)
    | Finalizes(env: Env)

  /** The events a user's call can dispatch, with a callback not used before. */
  predicate Callable(c: Chan, e: Event) {
    && !e.EvFdWatch? && !e.EvLookupDone? && !e.EvFinalize?
    && IdsOf(CbOf(e)) !! c.calls.requested
    && (e.EvShutCrypto? && e.cb.Cb? && e.cb.kind.SwitchCb? ==> e.how.TwoWay?)
  }

  /** The watch is ready only when its timer runs or a registered descriptor has something. */
  predicate WatchFires(s: Io, revents: Option<GioCond>) {
    match revents
    case None => s.timer
    case Some(cond) => cond != {} && s.registered != {} && cond <= s.registered + FAIL_CONDITIONS
  }

  predicate Enabled(c: Chan, step: Step) {
    match step
    case UserCall(e, env) => !c.leaf.Final? && Callable(c, e) && env.Plausible()
    case WatchReady(revents, env) => !c.leaf.Final? && !c.calls.inFdWatchCb && WatchFires(c.io, revents)
      && env.Plausible()
    case WatchReturns => c.calls.inFdWatchCb
    case LookupEnds(result, env) =>
      c.leaf.Lookup? && c.lookupSes && (result.LookupFails? ==> result.err.IsFatal()) && env.Plausible()
    case Finalizes(env) => !c.leaf.Final? && env.Plausible()
  }

  /** The machine after a step. */
  function After(c: Chan, step: Step): Chan {
    match step
    case UserCall(e, env) => Dispatched(Noted(c, CbOf(e)), e, env).c
    case WatchReady(revents, env) => WatchCalled(c, revents, env)
    case WatchReturns => WatchReturned(c)
    case LookupEnds(result, env) => LookupCalled(c, result, env)
    case Finalizes(env) => Finalized(c, env)
  }
}
