/**
 The OpenSSL SSL object as seen through its API.  Its behaviour is a script of answers, one
 for each call; a statement about all scripts is a statement about every behaviour that the
 contract of the library allows.  An answer the contract does not allow is read as a hard
 failure.  Every call is kept in a log.
 */
module SslOracle {
  import opened Common

  datatype Outcome = Done | WantRead | WantWrite | CleanEof | Reset | Hard(code: nat)

  /**
   What the library answers to one call.
   - `data`: the octets a read delivers; `count`: how many octets a write takes
   - `more`: application octets the call decoded beside what it delivered
   - `sent`, `received`: the close alerts that have passed by the end of the call
   */
  datatype Answer = Answer(
    outcome: Outcome, data: seq<byte>, count: nat, more: nat, sent: bool, received: bool)

  datatype Call =
    | WriteCall(data: seq<byte>, taken: nat, err: PslError)
    | ReadCall(max: nat, fromPending: bool, data: seq<byte>, err: PslError)
    | ShutdownCall(ret: int, err: PslError)
    | RenegotiateCall(ok: bool)
    | HandshakeCall(err: PslError)
    | PeekCall(err: PslError)
    | RenegotiatePendingCall(yes: bool)

  /** The calls made so far, the last one outermost. */
  datatype Log = NoCalls | Then(before: Log, last: Call)

  datatype Ssl = Ssl(script: seq<Answer>, pending: nat, sent: bool, received: bool, log: Log)
  {
    /** A script that has run out keeps asking for input. */
    function Next(): Answer {
      if script == [] then Answer(WantRead, [], 0, 0, false, false) else script[0]
    }

    /** The object after the call `c` was answered by `Next()`. */
    function After(c: Call, pendingNow: nat): Ssl {
      Ssl(
        if script == [] then [] else script[1..],
        pendingNow,
        sent || (c.ShutdownCall? && Next().sent),
        received || Next().received,
        Then(log, c))
    }
  }

  /** psl_err_get_and_process_SSL_channel_error: never NoError for a call that failed. */
  function ErrorOf(o: Outcome): (e: PslError)
    ensures !e.NoError? && (e.SslWantRead? <==> o.WantRead?) && (e.SslWantWrite? <==> o.WantWrite?)
  {
    match o
    case Done => OtherError(0)
    case WantRead => SslWantRead
    case WantWrite => SslWantWrite
    case CleanEof => SslCleanEof
    case Reset => TcpConnReset
    case Hard(code) => OtherError(code)
  }

  /** SSL_write of `data`: takes one octet or more, or none. */
  function Write(s: Ssl, data: seq<byte>): (r: (Ssl, nat, PslError))
    requires data != []
    ensures r.1 <= |data| && (r.1 == 0 <==> !r.2.NoError?)
    ensures r.0.log == Then(s.log, WriteCall(data, r.1, r.2))
  {
    var a := s.Next();
    var took := a.outcome.Done? && 1 <= a.count <= |data|;
    var n := if took then a.count else 0;
    var err := if took then NoError else ErrorOf(a.outcome);
    (s.After(WriteCall(data, n, err), s.pending + a.more), n, err)
  }

  /**
   SSL_read of at most `max` octets.  While octets are pending it does no I/O: it delivers
   some of them or fails for good.
   */
  function Read(s: Ssl, max: nat): (r: (Ssl, seq<byte>, PslError))
    requires 0 < max
    ensures |r.1| <= max && (r.1 == [] <==> !r.2.NoError?)
    ensures s.pending > 0 ==> !r.2.IsDeferral()
    ensures s.pending > 0 ==> |r.1| <= s.pending && r.0.pending == s.pending - |r.1|
    ensures r.0.log == Then(s.log, ReadCall(max, s.pending > 0, r.1, r.2))
  {
    var a := s.Next();
    var limit := if s.pending > 0 then Min(max, s.pending) else max;
    var got := a.outcome.Done? && 1 <= |a.data| <= limit;
    var data := if got then a.data else [];
    var err :=
      if got then NoError
      else if s.pending > 0 && ErrorOf(a.outcome).IsDeferral() then OtherError(0)
      else ErrorOf(a.outcome);
    var left := if s.pending > 0 then s.pending - |data| else a.more;
    (s.After(ReadCall(max, s.pending > 0, data, err), left), data, err)
  }

  /**
   SSL_shutdown, with what SSL_want and SSL_get_error say about it.  1: both close alerts have
   passed.  0: ours has, unless SSL_want says that the call stalled on the transport; then the
   error is what asking about a return of -1 gives.
   */
  function Shutdown(s: Ssl): (r: (Ssl, int, bool, PslError))
    ensures -1 <= r.1 <= 1
    ensures r.2 ==> r.1 == 0
    ensures !r.3.NoError? <==> r.1 == -1 || r.2
    ensures r.1 == 1 ==> r.0.sent && r.0.received
    ensures r.1 == 0 && !r.2 ==> r.0.sent && |r.0.script| < |s.script|
    ensures r.0.log == Then(s.log, ShutdownCall(r.1, r.3))
    ensures (s.sent ==> r.0.sent) && (s.received ==> r.0.received)
  {
    var a := s.Next();
    var ours, both := s.sent || a.sent, (s.sent || a.sent) && (s.received || a.received);
    var stalled := !a.outcome.Done? && a.count > 0;
    var ret :=
      if a.outcome.Done? && both && a.count > 0 then 1
      else if (a.outcome.Done? && ours) || stalled then 0
      else -1;
    var err := if ret == -1 || stalled then ErrorOf(a.outcome) else NoError;
    (s.After(ShutdownCall(ret, err), a.more), ret, stalled, err)
  }

  function Renegotiate(s: Ssl): (r: (Ssl, PslError))
    ensures r.0.log == Then(s.log, RenegotiateCall(r.1.NoError?))
    ensures !r.1.IsDeferral()
  {
    var a := s.Next();
    var err := if a.outcome.Done? then NoError else OtherError(0);
    (s.After(RenegotiateCall(err.NoError?), s.pending), err)
  }

  function Handshake(s: Ssl): (r: (Ssl, PslError))
    ensures r.0.log == Then(s.log, HandshakeCall(r.1))
  {
    var a := s.Next();
    var err := if a.outcome.Done? then NoError else ErrorOf(a.outcome);
    (s.After(HandshakeCall(err), s.pending + a.more), err)
  }

  /** SSL_peek: drives incoming records and takes no octet away. */
  function Peek(s: Ssl): (r: (Ssl, PslError))
    ensures r.0.log == Then(s.log, PeekCall(r.1))
  {
    var a := s.Next();
    var err := if a.outcome.Done? then NoError else ErrorOf(a.outcome);
    (s.After(PeekCall(err), s.pending + a.more), err)
  }

  /** SSL_renegotiate_pending */
  function RenegotiatePending(s: Ssl): (r: (Ssl, bool))
    ensures r.0.log == Then(s.log, RenegotiatePendingCall(r.1))
  {
    var yes := !s.Next().outcome.Done?;
    (s.After(RenegotiatePendingCall(yes), s.pending), yes)
  }

  // ---------------------------------------------------------------------------------------
  // What a log says
  // ---------------------------------------------------------------------------------------

  /** The octets SSL_write has taken, in order. */
  function Taken(log: Log): seq<byte> {
    match log
    case NoCalls => []
    case Then(before, WriteCall(data, n, _)) => Taken(before) + (if n <= |data| then data[..n] else [])
    case Then(before, _) => Taken(before)
  }

  /** The octets SSL_read has delivered, in order. */
  function Produced(log: Log): seq<byte> {
    match log
    case NoCalls => []
    case Then(before, ReadCall(_, _, data, _)) => Produced(before) + data
    case Then(before, _) => Produced(before)
  }

  /** The octets the library expects to be presented again: the last write answered WANT. */
  function Unfinished(log: Log): Option<seq<byte>> {
    match log
    case NoCalls => None
    case Then(_, WriteCall(data, _, err)) => if err.IsDeferral() then Some(data) else None
    case Then(before, _) => Unfinished(before)
  }

  /** How the last SSL_read ended. */
  function LastRead(log: Log): Option<PslError> {
    match log
    case NoCalls => None
    case Then(_, ReadCall(_, _, _, err)) => Some(err)
    case Then(before, _) => LastRead(before)
  }

  /** How the last SSL_write ended. */
  function LastWrite(log: Log): Option<PslError> {
    match log
    case NoCalls => None
    case Then(_, WriteCall(_, _, err)) => Some(err)
    case Then(before, _) => LastWrite(before)
  }

  /** SSL_read was called after the last SSL_write. */
  predicate ReadSinceWrite(log: Log) {
    match log
    case NoCalls => false
    case Then(_, ReadCall(_, _, _, _)) => true
    case Then(_, WriteCall(_, _, _)) => false
    case Then(before, _) => ReadSinceWrite(before)
  }

  /** The first call of `later` beyond those of `earlier`. */
  function FirstSince(earlier: Log, later: Log): Option<Call> {
    if later == earlier || later.NoCalls? then None
    else if later.before == earlier then Some(later.last)
    else FirstSince(earlier, later.before)
  }

  /** `later` has all the calls of `earlier`. */
  predicate Extends(earlier: Log, later: Log) {
    earlier == later || (later.Then? && Extends(earlier, later.before))
  }

  /** Every write that follows a WANT presents exactly the octets of the write that was not finished. */
  predicate RetriesExact(log: Log) {
    match log
    case NoCalls => true
    case Then(before, call) =>
      && RetriesExact(before)
      && (call.WriteCall? && Unfinished(before).Some? ==> call.data == Unfinished(before).value)
  }

  /** SSL_shutdown is never called while a write waits to be retried. */
  predicate ShutdownsClean(log: Log) {
    match log
    case NoCalls => true
    case Then(before, call) => ShutdownsClean(before) && (call.ShutdownCall? ==> Unfinished(before).None?)
  }

  /** The calls before the first SSL_shutdown, once there was one. */
  function BeforeClose(log: Log): Option<Log> {
    match log
    case NoCalls => None
    case Then(before, call) =>
      if BeforeClose(before).Some? then BeforeClose(before)
      else if call.ShutdownCall? then Some(before)
      else None
  }

  /** `later` extends `earlier` by SSL_read calls that each took pending octets only. */
  predicate OnlyPendingReads(earlier: Log, later: Log) {
    earlier == later || (later.Then? && later.last.ReadCall? && later.last.fromPending
      && OnlyPendingReads(earlier, later.before))
  }

  /** The log discipline that every component below keeps. */
  predicate Disciplined(log: Log) {
    RetriesExact(log) && ShutdownsClean(log)
  }
}
