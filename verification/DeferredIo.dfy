/**
 Deferred SSL I/O as a function of values: what the nested loops of the crypto component
 compute, written without loops wherever the loops run a bounded number of times.
 */
module DeferredIo {
  import opened Common
  import opened SslOracle

  /** Capacity of the output buffer. */
  const MAX_IO_BUF_SIZE: nat := 16 * 1024

  datatype IoState = Idle | WaitRead | WaitWrite | Failed

  datatype Hint = Unknown | AfterRead | AfterWrite

  /**
   The shared I/O state of the crypto states.
   - `accepted`: octets taken over from the user; `given`: octets handed to the user
   - `lastCond`: the condition the component believes is registered for its descriptor
   - `registered`: the condition that is registered; `timer`: the watch has a finite poll timeout
   */
  datatype Io = Io(
    inState: IoState, inErr: PslError, heldByte: byte, held: bool,
    outState: IoState, outErr: PslError, outBuf: seq<byte>,
    ssl: Ssl,
    lastCond: GioCond, registered: GioCond, timer: bool,
    accepted: seq<byte>, given: seq<byte>)
  {
    function Held(): seq<byte> {
      if held then [heldByte] else []
    }
  }

  /** crypto_deferred_io_pending */
  predicate Pending(st: IoState) {
    st.WaitRead? || st.WaitWrite?
  }

  /** crypto_giocondition_from_chanssl_iostate */
  function CondOf(st: IoState): GioCond {
    match st
    case WaitRead => {IoIn}
    case WaitWrite => {IoOut}
    case _ => {}
  }

  function StateOfDeferral(e: PslError): IoState {
    if e.SslWantRead? then WaitRead else WaitWrite
  }

  // ---------------------------------------------------------------------------------------
  // The two low-level transfers
  // ---------------------------------------------------------------------------------------

  datatype SendResult = SendResult(ssl: Ssl, numWritten: nat, deferredCnt: nat, err: PslError)

  /** SSL_write in pieces of at most `max` octets until one is refused. */
  function Send(ssl: Ssl, src: seq<byte>, max: nat): (r: SendResult)
    requires 0 < max
    ensures r.numWritten + r.deferredCnt <= |src| && r.deferredCnt <= max
    ensures r.err.NoError? ==> r.numWritten == |src|
    ensures r.deferredCnt > 0 <==> r.err.IsDeferral()
    decreases |src|
  {
    if src == [] then SendResult(ssl, 0, 0, NoError)
    else
      var req := src[..Min(|src|, max)];
      var (ssl', n, e) := Write(ssl, req);
      if e.NoError? then
        var rest := Send(ssl', src[n..], max);
        rest.(numWritten := n + rest.numWritten)
      else
        SendResult(ssl', 0, if e.IsDeferral() then |req| else 0, e)
  }

  /** crypto_write_low: the output state after a send that ended with `r`. */
  function Sent(s: Io, r: SendResult): Io {
    var t := s.(ssl := r.ssl);
    if r.err.NoError? then t
    else if r.err.IsDeferral() then t.(outState := StateOfDeferral(r.err))
    else t.(outState := Failed, outErr := r.err)
  }

  datatype ReceiveResult = ReceiveResult(ssl: Ssl, through: byte, data: seq<byte>, err: PslError, ioAttempted: bool)

  /**
   SSL_read until `cnt` octets are there or one call fails: pending octets are read straight
   out; when there are none, one octet is read through the holding buffer `through`, which may
   do I/O.
   */
  function Receive(ssl: Ssl, through: byte, cnt: nat): (r: ReceiveResult)
    ensures |r.data| <= cnt && (r.err.NoError? <==> |r.data| == cnt)
    ensures r.err.IsDeferral() ==> r.ioAttempted
    decreases cnt
  {
    if cnt == 0 then ReceiveResult(ssl, through, [], NoError, false)
    else
      var direct := ssl.pending > 0;
      var (ssl', data, e) := Read(ssl, if direct then Min(cnt, ssl.pending) else 1);
      if e.NoError? then
        var rest := Receive(ssl', if direct then through else data[0], cnt - |data|);
        rest.(data := data + rest.data, ioAttempted := !direct || rest.ioAttempted)
      else
        ReceiveResult(ssl', through, [], e, !direct)
  }

  /**
   crypto_read_low: the input state after a receive that ended with `r`.  A deferral before
   anything was read may leave it waiting.
   */
  function Received(s: Io, r: ReceiveResult, allowed: bool): Io {
    var t := s.(ssl := r.ssl, heldByte := r.through);
    if r.err.NoError? then t
    else if !r.err.IsDeferral() then t.(inState := Failed, inErr := r.err)
    else if allowed && r.data == [] then t.(inState := StateOfDeferral(r.err))
    else t
  }

  // ---------------------------------------------------------------------------------------
  // The watch wrappers
  // ---------------------------------------------------------------------------------------

  /** crypto_update_multi_fd_watch_giocondition: skips the call when nothing seems to change. */
  function UpdateWatch(s: Io, cond: GioCond): Io {
    if cond == s.lastCond then s else s.(lastCond := cond, registered := cond)
  }

  /** crypto_reset_multi_fd_watch */
  function ResetWatch(s: Io): Io {
    s.(lastCond := {}, registered := {}, timer := false)
  }

  /** crypto_schedule_deferred_ssl_io */
  function Schedule(s: Io): Io {
    UpdateWatch(s, CondOf(s.inState) + CondOf(s.outState))
  }

  // ---------------------------------------------------------------------------------------
  // crypto_process_deferred_ssl_io without its loops
  // ---------------------------------------------------------------------------------------

  /** A waiting output has something to write. */
  predicate HasOutput(s: Io) {
    Pending(s.outState) ==> s.outBuf != []
  }

  /** The buffer drops what a send of it took; sent completely, the output is idle. */
  function Flushed(s: Io, r: SendResult): Io
    requires r.numWritten <= |s.outBuf|
  {
    var t := Sent(s, r).(outBuf := s.outBuf[r.numWritten..]);
    if r.err.NoError? then t.(outState := Idle) else t
  }

  /** One attempt to write out the buffer. */
  function Flush(s: Io): Io {
    if s.outBuf == [] then s else Flushed(s, Send(s.ssl, s.outBuf, |s.outBuf|))
  }

  /** A read octet goes into the holding buffer and the input is idle. */
  function Kept(s: Io, r: ReceiveResult, allowed: bool): (t: Io)
    requires r.err.NoError? ==> r.data != []
    ensures t.outState == s.outState && t.outBuf == s.outBuf
  {
    var t := Received(s, r, allowed);
    if r.err.NoError? then t.(heldByte := r.data[0], held := true, inState := Idle) else t
  }

  /** One attempt to read an octet into the holding buffer. */
  function HoldByte(s: Io, allowed: bool): (t: Io)
    ensures t.outState == s.outState && t.outBuf == s.outBuf
  {
    Kept(s, Receive(s.ssl, s.heldByte, 1), allowed)
  }

  predicate Writable(revents: GioCond) {
    revents == {} || IoOut in revents || IoHup in revents || IoNval in revents
  }

  predicate Readable(revents: GioCond) {
    revents == {} || IoIn in revents || IoHup in revents || IoNval in revents
  }

  /** Is the write step to call SSL_write? */
  predicate WriteDue(s: Io, hint: Hint, revents: GioCond) {
    && Pending(s.outState) && hint != AfterWrite
    && (if hint.AfterRead? then s.inState.Failed? else Writable(revents))
  }

  /** After reading, a waiting output is taken to wait for a writable socket without trying. */
  predicate Optimistic(s: Io, hint: Hint) {
    Pending(s.outState) && hint.AfterRead? && !s.inState.Failed?
  }

  /** The read step, made when the input waits and may have become ready. */
  function ReadStep(s: Io, mayRead: bool): Io {
    if s.ssl.pending > 0 then HoldByte(s, false)
    else if s.outState.WaitRead? then s.(inState := WaitRead)
    else if !mayRead then s
    else
      var t := HoldByte(s, true);
      if t.inState.Failed? && Pending(t.outState) then Flush(t) else t
  }

  /** What the nested loops do. */
  function Settle(s: Io, hint: Hint, revents: GioCond): Io {
    if Optimistic(s, hint) then s.(outState := WaitWrite)
    else
      var wrote := WriteDue(s, hint, revents);
      var t := if wrote then Flush(s) else s;
      if Pending(t.inState) && (wrote || !hint.AfterRead?) then
        ReadStep(t, wrote || hint.AfterWrite? || Readable(revents))
      else t
  }

  predicate Broken(revents: GioCond) {
    IoHup in revents || IoNval in revents
  }

  /** A dead descriptor turns waiting input and healthy output into sticky errors. */
  function Abort(s: Io): Io {
    var t := if Pending(s.inState) then s.(inState := Failed, inErr := TcpConnReset) else s;
    if t.outState.Failed? then t else t.(outState := Failed, outErr := TcpConnReset)
  }

  /** What follows the loops: a broken descriptor, then the watch. */
  function Finish(t: Io, revents: GioCond): Io {
    Schedule(if Broken(revents) then Abort(t) else t)
  }

  /** crypto_process_deferred_ssl_io */
  function ProcessDeferred(s: Io, hint: Hint, revents: GioCond): Io {
    Finish(Settle(s, hint, revents), revents)
  }

  // ---------------------------------------------------------------------------------------
  // READ and WRITE events
  // ---------------------------------------------------------------------------------------

  /** GIOStatus, and whether the event handler itself reports an error. */
  datatype IoStatus = StatusNormal | StatusAgain | StatusEof | StatusError

  const INT_MAX: nat := 0x7FFF_FFFF

  datatype ReadOutcome = ReadOutcome(io: Io, data: seq<byte>, status: IoStatus)

  /** The state after a transfer of `r` to the user, the held octet first. */
  function Handed(s: Io, r: ReceiveResult): Io {
    var t := Received(s.(held := false), r, !s.held);
    t.(given := t.given + (s.Held() + r.data))
  }

  function ReadStatus(data: seq<byte>, e: PslError): IoStatus {
    if e.NoError? || data != [] then StatusNormal
    else if e.IsDeferral() then StatusAgain
    else if e.SslCleanEof? then StatusEof
    else StatusError
  }

  function ReadDone(s: Io, r: ReceiveResult): ReadOutcome {
    var t := Handed(s, r);
    var data := s.Held() + r.data;
    ReadOutcome(if r.ioAttempted then ProcessDeferred(t, AfterRead, {}) else t, data, ReadStatus(data, r.err))
  }

  /** A read of `n` octets beside the held one. */
  function ReadFrom(s: Io, n: nat): ReadOutcome {
    ReadDone(s, Receive(s.ssl, s.heldByte, n))
  }

  /** crypto_preprocess_READ and crypto_handle_READ */
  function HandleRead(s: Io, cnt: nat): ReadOutcome {
    if cnt == 0 then ReadOutcome(s, [], StatusNormal)
    else if s.inState.Failed? then ReadOutcome(s, [], if s.inErr.SslCleanEof? then StatusEof else StatusError)
    else if Pending(s.inState) then ReadOutcome(s, [], StatusAgain)
    else ReadFrom(s, Min(cnt, INT_MAX) - |s.Held()|)
  }

  datatype WriteOutcome = WriteOutcome(io: Io, numWritten: nat, status: IoStatus)

  /** The state after a send of `src` that ended with `r`: a refused piece goes into the buffer. */
  function TakenOver(s: Io, src: seq<byte>, r: SendResult): Io
    requires r.numWritten + r.deferredCnt <= |src|
  {
    var total := r.numWritten + r.deferredCnt;
    var t := Sent(s, r);
    t.(outBuf := if r.err.IsDeferral() then src[r.numWritten..total] else t.outBuf,
       accepted := t.accepted + src[..total])
  }

  function WriteDone(s: Io, src: seq<byte>, r: SendResult): (o: WriteOutcome)
    requires r.numWritten + r.deferredCnt <= |src| && (r.err.IsDeferral() <==> r.deferredCnt > 0)
  {
    WriteOutcome(
      ProcessDeferred(TakenOver(s, src, r), AfterWrite, {}),
      r.numWritten + r.deferredCnt,
      if r.err.IsFatal() && r.numWritten == 0 then StatusError else StatusNormal)
  }

  /** crypto_handle_WRITE */
  function HandleWrite(s: Io, buf: seq<byte>): WriteOutcome {
    if s.outState.Failed? then WriteOutcome(s, 0, StatusError)
    else if buf == [] then WriteOutcome(s, 0, StatusNormal)
    else if Pending(s.outState) then WriteOutcome(s, 0, StatusAgain)
    else
      var src := buf[..Min(|buf|, INT_MAX)];
      WriteDone(s, src, Send(s.ssl, src, MAX_IO_BUF_SIZE))
  }

  // ---------------------------------------------------------------------------------------
  // Shutdown
  // ---------------------------------------------------------------------------------------

  datatype ShutHow = OneWay | TwoWay

  datatype ShutPhase = ShutInit | ShutFlushOut | Shut1 | Shut2 | ShutSuccess | ShutFailed

  datatype ShutResult = ShutResult(io: Io, phase: ShutPhase, err: PslError)

  /** The loop of crypto_do_shutdown: a two-way shutdown goes on after our alert has passed. */
  function ShutLoop(s: Io, how: ShutHow, phase: ShutPhase): (r: ShutResult)
    decreases |s.ssl.script|
  {
    var (ssl, ret, stalled, e) := Shutdown(s.ssl);
    var t := s.(ssl := ssl);
    if ret == 1 then ShutResult(t, ShutSuccess, NoError)
    else if ret == 0 && !stalled then
      if how.OneWay? then ShutResult(t, ShutSuccess, NoError) else ShutLoop(t, how, Shut2)
    else ShutResult(t, if e.IsDeferral() then phase else ShutFailed, e)
  }

  /** crypto_do_shutdown: the reported error is that of a failure only. */
  function DoShutdown(s: Io, how: ShutHow, phase: ShutPhase): ShutResult {
    var r := ShutLoop(s, how, phase);
    if r.err.IsDeferral() then
      ShutResult(UpdateWatch(r.io, if r.err.SslWantRead? then {IoIn} else {IoOut}), r.phase, NoError)
    else r.(io := ResetWatch(r.io))
  }

  // ---------------------------------------------------------------------------------------
  // Handshakes and renegotiation
  // ---------------------------------------------------------------------------------------

  datatype HandshakeResult = HandshakeResult(io: Io, done: bool, err: PslError)

  /** A call that is done, or waits for the descriptor, or failed. */
  function AwaitOrDone(s: Io, e: PslError): HandshakeResult {
    if e.SslWantRead? then HandshakeResult(UpdateWatch(s, {IoIn}), false, NoError)
    else if e.SslWantWrite? then HandshakeResult(UpdateWatch(s, {IoOut}), false, NoError)
    else HandshakeResult(s, true, e)
  }

  /** crypto_do_SSL_handshake */
  function DoHandshake(s: Io): HandshakeResult {
    var (ssl, e) := Handshake(s.ssl);
    AwaitOrDone(s.(ssl := ssl), e)
  }

  /** crypto_do_reneg_wait_handshake */
  function WaitHandshake(s: Io): HandshakeResult {
    var (ssl1, pending1) := RenegotiatePending(s.ssl);
    if !pending1 then HandshakeResult(s.(ssl := ssl1), true, NoError)
    else
      var (ssl2, e) := Peek(ssl1);
      var (ssl3, pending3) := RenegotiatePending(ssl2);
      var t := s.(ssl := ssl3);
      if !pending3 then HandshakeResult(t, true, NoError)
      else if e.NoError? then HandshakeResult(UpdateWatch(t, {IoIn}), false, NoError)
      else AwaitOrDone(t, e)
  }

  datatype RenegPhase = RenegInit | RenegFlushOut | RenegRequestHello | RenegHandshake | RenegDone

  datatype Reneg = Reneg(phase: RenegPhase, err: PslError, server: bool, waitForClient: bool)

  /** crypto_total_input_bytes_ready */
  function BytesReady(s: Io): nat {
    s.ssl.pending + |s.Held()|
  }

  function RenegFlush(s: Io, r: Reneg): (Io, Reneg) {
    if r.phase.RenegFlushOut? && !Pending(s.outState) then
      var next := if !r.err.NoError? then RenegDone else if r.server then RenegRequestHello else RenegHandshake;
      var (ssl, e) := Renegotiate(s.ssl);
      (s.(ssl := ssl), r.(phase := next, err := e))
    else (s, r)
  }

  function RenegHello(s: Io, r: Reneg): (Io, Reneg) {
    if r.phase.RenegRequestHello? then
      var h := DoHandshake(s);
      if !h.done then (h.io, r)
      else if !h.err.NoError? || !r.waitForClient then (h.io, r.(phase := RenegDone, err := h.err))
      else (UpdateWatch(h.io, {IoIn}), r.(phase := RenegHandshake))
    else (s, r)
  }

  function RenegShake(s: Io, r: Reneg): (Io, Reneg) {
    if r.phase.RenegHandshake? then
      if BytesReady(s) > 0 then (ResetWatch(s), r)
      else
        var h := if r.server && r.waitForClient then WaitHandshake(s) else DoHandshake(s);
        (h.io, if h.done then r.(phase := RenegDone, err := h.err) else r)
    else (s, r)
  }

  /** crypto_do_renegotiate: done when the phase is. */
  function DoRenegotiate(s: Io, r: Reneg): (Io, Reneg) {
    var (s0, r0) := if r.phase.RenegInit? then (ResetWatch(s), r.(phase := RenegFlushOut)) else (s, r);
    var (s1, r1) := RenegFlush(s0, r0);
    var (s2, r2) := RenegHello(s1, r1);
    RenegShake(s2, r2)
  }

  // ---------------------------------------------------------------------------------------
  // How the crypto states begin
  // ---------------------------------------------------------------------------------------

  function NewSsl(script: seq<Answer>): Ssl {
    Ssl(script, 0, false, false, NoCalls)
  }

  /** The new I/O state of a crypto mode just entered. */
  function NewIo(registered: GioCond, timer: bool): Io {
    Io(Idle, NoError, 0, false, Idle, NoError, [], NewSsl([]), {}, registered, timer, [], [])
  }

  /** Renegotiation takes over with the input no longer waiting. */
  function RenegStart(s: Io): Io {
    ResetWatch(s).(timer := true, inState := if Pending(s.inState) then Idle else s.inState)
  }

  /** The shutdown takes over; both ways, a read that was under way is given up. */
  function ShutStart(s: Io, how: ShutHow): Io {
    var t := ResetWatch(s).(timer := true);
    if how.TwoWay? && Pending(s.inState) then t.(inState := Idle, held := false) else t
  }
}
