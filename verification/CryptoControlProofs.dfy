/** What the shutdown and the renegotiation of the crypto states guarantee. */
module CryptoControlProofs {
  import opened Common
  import opened SslOracle
  import opened DeferredIo
  import opened DeferredIoProofs
  import opened CryptoEventProofs

  /** Everything but the SSL object and the watch is as it was. */
  predicate OnlySslAndWatch(s: Io, t: Io) {
    t == s.(ssl := t.ssl, lastCond := t.lastCond, registered := t.registered, timer := t.timer)
  }

  // ---------------------------------------------------------------------------------------
  // Shutdown
  // ---------------------------------------------------------------------------------------

  /** The phases in the order in which they may follow each other. */
  function Rank(p: ShutPhase): nat {
    match p
    case ShutInit => 0
    case ShutFlushOut => 1
    case Shut1 => 2
    case Shut2 => 3
    case ShutSuccess => 4
    case ShutFailed => 5
  }

  /** What a phase says about the close alerts. */
  predicate PhaseTells(ssl: Ssl, how: ShutHow, p: ShutPhase) {
    && (p.Shut2? ==> how.TwoWay? && ssl.sent)
    && (p.ShutSuccess? ==> ssl.sent && (how.TwoWay? ==> ssl.received))
  }

  /** SSL_shutdown may be called. */
  ghost predicate Closing(s: Io, how: ShutHow, p: ShutPhase) {
    Sound(s) && s.outState.Idle? && (p.Shut1? || p.Shut2?) && PhaseTells(s.ssl, how, p)
  }

  lemma ShutdownCallIsSound(s: Io)
    requires Sound(s) && s.outState.Idle?
    ensures var ssl := Shutdown(s.ssl).0; Sound(s.(ssl := ssl)) && BeforeClose(ssl.log).Some?
  {
  }

  ghost predicate ShutKeeps(s: Io, r: ShutResult, how: ShutHow, p: ShutPhase) {
    && Sound(r.io) && OnlySslAndWatch(s, r.io) && BeforeClose(r.io.ssl.log).Some?
    && Rank(p) <= Rank(r.phase) && PhaseTells(r.io.ssl, how, r.phase)
    && (r.phase.ShutFailed? <==> r.err.IsFatal()) && (r.phase.ShutSuccess? ==> r.err.NoError?)
    && (r.phase.Shut1? || r.phase.Shut2? ==> !r.err.IsFatal())
    && (r.phase.ShutSuccess? || r.phase.ShutFailed? || r.phase.Shut1? || r.phase.Shut2?)
  }

  lemma {:induction false} ShutLoopIsSound(s: Io, how: ShutHow, p: ShutPhase)
    requires Closing(s, how, p)
    ensures ShutKeeps(s, ShutLoop(s, how, p), how, p)
    ensures var r := ShutLoop(s, how, p);
            && (r.err.NoError? <==> r.phase.ShutSuccess?)
            && r.io.lastCond == s.lastCond && r.io.registered == s.registered && r.io.timer == s.timer
    decreases |s.ssl.script|
  {
    var (ssl, ret, stalled, e) := Shutdown(s.ssl);
    ShutdownCallIsSound(s);
    if ret == 0 && !stalled && how.TwoWay? {
      ShutLoopIsSound(s.(ssl := ssl), how, Shut2);
    }
  }

  /**
   The shutdown: the phase never moves back, success means that our alert was sent (and, both
   ways, that the peer's was received), failure carries the reason, and the watch waits for
   exactly one condition or for nothing.
   */
  lemma DoShutdownIsSound(s: Io, how: ShutHow, p: ShutPhase)
    requires Closing(s, how, p) && WatchCoherent(s)
    ensures var r := DoShutdown(s, how, p);
            && ShutKeeps(s, r, how, p) && !r.err.IsDeferral() && WatchCoherent(r.io)
            && (if r.phase.ShutSuccess? || r.phase.ShutFailed? then r.io.registered == {} && !r.io.timer
                else r.io.registered in {{IoIn}, {IoOut}} && r.io.timer == s.timer)
  {
    ShutLoopIsSound(s, how, p);
    var r := ShutLoop(s, how, p);
    if r.err.IsDeferral() {
      WatchIsApart(r.io, DoShutdown(s, how, p).io);
    } else {
      WatchIsApart(r.io, ResetWatch(r.io));
    }
  }

  // ---------------------------------------------------------------------------------------
  // Renegotiation
  // ---------------------------------------------------------------------------------------

  /** How often SSL_renegotiate was called. */
  function RenegotiateCalls(log: Log): nat {
    match log
    case NoCalls => 0
    case Then(before, call) => RenegotiateCalls(before) + (if call.RenegotiateCall? then 1 else 0)
  }

  /** SSL_renegotiate is never called while a write waits to be retried. */
  predicate RenegotiatesClean(log: Log) {
    match log
    case NoCalls => true
    case Then(before, call) => RenegotiatesClean(before) && (call.RenegotiateCall? ==> Unfinished(before).None?)
  }

  /** What is known of the last read and the last write is the same. */
  predicate SameAnswers(a: Log, b: Log) {
    LastRead(b) == LastRead(a) && LastWrite(b) == LastWrite(a) && (ReadSinceWrite(b) <==> ReadSinceWrite(a))
  }

  /** The calls that `b` made beside those of `a` moved no octet of the user. */
  ghost predicate SameTraffic(a: Ssl, b: Ssl) {
    && Taken(b.log) == Taken(a.log) && Produced(b.log) == Produced(a.log) && Unfinished(b.log) == Unfinished(a.log)
    && BeforeClose(b.log) == BeforeClose(a.log) && b.sent == a.sent && (Disciplined(a.log) ==> Disciplined(b.log))
    && SameAnswers(a.log, b.log)
  }

  /** Only the SSL object and the watch changed; no octet moved and SSL_renegotiate was called `calls` times. */
  ghost predicate ControlStep(s: Io, t: Io, calls: nat) {
    && OnlySslAndWatch(s, t) && SameTraffic(s.ssl, t.ssl)
    && RenegotiateCalls(t.ssl.log) == RenegotiateCalls(s.ssl.log) + calls
    && (WatchCoherent(s) ==> WatchCoherent(t)) && (!s.timer ==> !t.timer)
    && (calls == 0 ==> (RenegotiatesClean(t.ssl.log) <==> RenegotiatesClean(s.ssl.log)))
  }

  lemma ControlIsSound(s: Io, t: Io, calls: nat)
    requires Sound(s) && ControlStep(s, t, calls)
    ensures Sound(t)
  {
  }

  lemma ControlComposes(a: Io, b: Io, c: Io, m: nat, n: nat)
    requires ControlStep(a, b, m) && ControlStep(b, c, n)
    ensures ControlStep(a, c, m + n)
  {
  }

  /** A call that only drives the protocol. */
  lemma QuietCallIsControl(s: Io, ssl: Ssl)
    requires ssl.log.Then? && ssl.log.before == s.ssl.log && ssl.sent == s.ssl.sent
    requires ssl.log.last.HandshakeCall? || ssl.log.last.PeekCall? || ssl.log.last.RenegotiatePendingCall?
    ensures ControlStep(s, s.(ssl := ssl), 0)
  {
  }

  lemma AwaitIsControl(s: Io, e: PslError)
    ensures ControlStep(s, AwaitOrDone(s, e).io, 0) && !AwaitOrDone(s, e).err.IsDeferral()
  {
  }

  lemma DoHandshakeIsControl(s: Io)
    ensures ControlStep(s, DoHandshake(s).io, 0) && !DoHandshake(s).err.IsDeferral()
  {
    var (ssl, e) := Handshake(s.ssl);
    QuietCallIsControl(s, ssl);
    AwaitIsControl(s.(ssl := ssl), e);
    ControlComposes(s, s.(ssl := ssl), AwaitOrDone(s.(ssl := ssl), e).io, 0, 0);
  }

  lemma WaitHandshakeIsControl(s: Io)
    ensures ControlStep(s, WaitHandshake(s).io, 0) && !WaitHandshake(s).err.IsDeferral()
  {
    var (ssl1, pending1) := RenegotiatePending(s.ssl);
    QuietCallIsControl(s, ssl1);
    if pending1 {
      var (ssl2, e) := Peek(ssl1);
      var (ssl3, pending3) := RenegotiatePending(ssl2);
      var s1, s2, s3 := s.(ssl := ssl1), s.(ssl := ssl2), s.(ssl := ssl3);
      QuietCallIsControl(s1, ssl2);
      QuietCallIsControl(s2, ssl3);
      ControlComposes(s, s1, s2, 0, 0);
      ControlComposes(s, s2, s3, 0, 0);
      AwaitIsControl(s3, if e.NoError? then SslWantRead else e);
      ControlComposes(s, s3, WaitHandshake(s).io, 0, 0);
    }
  }

  /** The flush phase is due and may end. */
  predicate MayStart(s: Io, r: Reneg) {
    (r.phase.RenegInit? || r.phase.RenegFlushOut?) && !Pending(s.outState)
  }

  function RenegRank(p: RenegPhase): nat {
    match p
    case RenegInit => 0
    case RenegFlushOut => 1
    case RenegRequestHello => 2
    case RenegHandshake => 3
    case RenegDone => 4
  }

  /** The phases go forward, the handshake starts once, and only with no output waiting. */
  ghost predicate RenegKeeps(s: Io, r: Reneg, t: Io, r': Reneg) {
    && ControlStep(s, t, if MayStart(s, r) then 1 else 0)
    && RenegRank(r.phase) <= RenegRank(r'.phase) && 1 <= RenegRank(r'.phase)
    && r'.server == r.server && r'.waitForClient == r.waitForClient
    && (!r.err.IsDeferral() ==> !r'.err.IsDeferral())
  }

  /** What each of the three steps keeps. */
  ghost predicate PhaseStep(s: Io, r: Reneg, t: Io, r': Reneg, calls: nat) {
    && ControlStep(s, t, calls)
    && RenegRank(r.phase) <= RenegRank(r'.phase) && !r'.err.IsDeferral()
    && r'.server == r.server && r'.waitForClient == r.waitForClient
  }

  lemma HelloIsControl(s: Io, r: Reneg)
    requires !r.err.IsDeferral()
    ensures PhaseStep(s, r, RenegHello(s, r).0, RenegHello(s, r).1, 0)
  {
    if r.phase.RenegRequestHello? {
      DoHandshakeIsControl(s);
      ControlComposes(s, DoHandshake(s).io, UpdateWatch(DoHandshake(s).io, {IoIn}), 0, 0);
    }
  }

  lemma ShakeIsControl(s: Io, r: Reneg)
    requires !r.err.IsDeferral()
    ensures PhaseStep(s, r, RenegShake(s, r).0, RenegShake(s, r).1, 0)
  {
    if r.phase.RenegHandshake? && BytesReady(s) == 0 {
      if r.server && r.waitForClient {
        WaitHandshakeIsControl(s);
      } else {
        DoHandshakeIsControl(s);
      }
    }
  }

  lemma FlushIsControl(s: Io, r: Reneg)
    requires !r.err.IsDeferral() && !r.phase.RenegInit?
    ensures PhaseStep(s, r, RenegFlush(s, r).0, RenegFlush(s, r).1, if MayStart(s, r) then 1 else 0)
  {
  }

  /** A renegotiation moves no octet of the user and starts only with no output waiting. */
  lemma DoRenegotiateIsSound(s: Io, r: Reneg)
    requires Sound(s) && !r.err.IsDeferral()
    ensures var (t, r') := DoRenegotiate(s, r); Sound(t) && RenegKeeps(s, r, t, r')
  {
    var (s0, r0) := if r.phase.RenegInit? then (ResetWatch(s), r.(phase := RenegFlushOut)) else (s, r);
    var (s1, r1) := RenegFlush(s0, r0);
    var (s2, r2) := RenegHello(s1, r1);
    var (s3, r3) := RenegShake(s2, r2);
    FlushIsControl(s0, r0);
    HelloIsControl(s1, r1);
    ShakeIsControl(s2, r2);
    var n := if MayStart(s, r) then 1 else 0;
    ControlComposes(s, s0, s1, 0, n);
    ControlComposes(s, s1, s2, n, 0);
    ControlComposes(s, s2, s3, n, 0);
    ControlIsSound(s, s3, n);
  }

  /** The output has failed while the library still expects a write again. */
  predicate Stuck(s: Io) {
    s.outState.Failed? && Unfinished(s.ssl.log).Some?
  }

  /**
   "Output is not waiting" is weaker than "no write waits to be retried": the output may have
   failed while the library still expects its write again.  SSL_renegotiate is then called over
   that write, and only then.
   */
  lemma RenegotiateOverUnfinishedWrite(s: Io, r: Reneg)
    requires Sound(s) && !r.err.IsDeferral()
    ensures var t := DoRenegotiate(s, r).0;
            && (RenegotiatesClean(t.ssl.log) <==> RenegotiatesClean(s.ssl.log) && !(MayStart(s, r) && Stuck(s)))
            && (Stuck(t) <==> Stuck(s))
            && RenegotiateCalls(t.ssl.log) == RenegotiateCalls(s.ssl.log) + (if MayStart(s, r) then 1 else 0)
  {
    hide DoRenegotiate, Sound;
    DoRenegotiateIsSound(s, r);
    RenegotiateCallsWhen(s, r);
  }

  lemma RenegotiateCallsWhen(s: Io, r: Reneg)
    requires Sound(s) && !r.err.IsDeferral()
    ensures RenegotiatesClean(DoRenegotiate(s, r).0.ssl.log)
       <==> RenegotiatesClean(s.ssl.log) && !(MayStart(s, r) && Stuck(s))
  {
    var (s0, r0) := if r.phase.RenegInit? then (ResetWatch(s), r.(phase := RenegFlushOut)) else (s, r);
    var (s1, r1) := RenegFlush(s0, r0);
    var (s2, r2) := RenegHello(s1, r1);
    HelloIsControl(s1, r1);
    ShakeIsControl(s2, r2);
  }

  // ---------------------------------------------------------------------------------------
  // Which steps leave an output stuck
  // ---------------------------------------------------------------------------------------

  /** Between the two logs SSL_renegotiate was not called. */
  predicate SameReneg(a: Log, b: Log) {
    RenegotiateCalls(b) == RenegotiateCalls(a) && (RenegotiatesClean(b) <==> RenegotiatesClean(a))
  }

  /** No SSL_renegotiate from `s` to `t`, where the output is stuck if it was, or got stuck on the way. */
  predicate NoReneg(s: Io, t: Io, gotStuck: bool) {
    SameReneg(s.ssl.log, t.ssl.log) && (Stuck(t) <==> Stuck(s) || gotStuck)
  }

  lemma NoRenegComposes(a: Io, b: Io, c: Io, x: bool, y: bool)
    requires NoReneg(a, b, x) && NoReneg(b, c, y)
    ensures NoReneg(a, c, x || y)
  {
    hide Stuck, SameReneg;
    assert SameReneg(a.ssl.log, c.ssl.log) by {
      SameRenegComposes(a.ssl.log, b.ssl.log, c.ssl.log);
    }
  }

  lemma SameRenegComposes(a: Log, b: Log, c: Log)
    requires SameReneg(a, b) && SameReneg(b, c)
    ensures SameReneg(a, c)
  {
  }

  lemma {:induction false} SendNoReneg(ssl: Ssl, src: seq<byte>, max: nat)
    requires 0 < max
    ensures SameReneg(ssl.log, Send(ssl, src, max).ssl.log)
    decreases |src|
  {
    hide Write;
    if src != [] {
      var (ssl', n, e) := Write(ssl, src[..Min(|src|, max)]);
      if e.NoError? {
        SendNoReneg(ssl', src[n..], max);
      }
    }
  }

  lemma {:induction false} ReceiveNoReneg(ssl: Ssl, through: byte, cnt: nat)
    ensures SameReneg(ssl.log, Receive(ssl, through, cnt).ssl.log)
    decreases cnt
  {
    hide Read;
    if cnt != 0 {
      var direct := ssl.pending > 0;
      var (ssl', data, e) := Read(ssl, if direct then Min(cnt, ssl.pending) else 1);
      if e.NoError? {
        ReceiveNoReneg(ssl', if direct then through else data[0], cnt - |data|);
      }
    }
  }

  /** A flush that fails leaves nothing for the library to expect. */
  lemma FlushNoReneg(s: Io)
    requires Sound(s) && Pending(s.outState)
    ensures NoReneg(s, Flush(s), false)
  {
    hide Send;
    SendNoReneg(s.ssl, s.outBuf, |s.outBuf|);
    SendLeavesUnfinished(s.ssl, s.outBuf, |s.outBuf|);
  }

  lemma HoldByteNoReneg(s: Io, allowed: bool)
    requires Sound(s)
    ensures NoReneg(s, HoldByte(s, allowed), false)
  {
    hide Receive;
    ReceiveNoReneg(s.ssl, s.heldByte, 1);
    ReceiveIsDisciplined(s.ssl, s.heldByte, 1);
  }

  lemma ReadStepNoReneg(s: Io, mayRead: bool)
    requires Sound(s) && Pending(s.inState)
    ensures NoReneg(s, ReadStep(s, mayRead), false)
  {
    hide Sound, HoldByte, Flush;
    HoldByteNoReneg(s, false);
    HoldByteNoReneg(s, true);
    var t := HoldByte(s, true);
    if s.ssl.pending == 0 && t.inState.Failed? && Pending(t.outState) {
      HoldByteIsSound(s, true);
      FlushNoReneg(t);
      NoRenegComposes(s, t, Flush(t), false, false);
    }
  }

  lemma SettleNoReneg(s: Io, hint: Hint, revents: GioCond)
    requires Sound(s)
    ensures NoReneg(s, Settle(s, hint, revents), false)
  {
    hide Sound, Flush, ReadStep;
    if !Optimistic(s, hint) {
      var wrote := WriteDue(s, hint, revents);
      var t := if wrote then Flush(s) else s;
      if wrote {
        FlushIsSound(s);
        FlushNoReneg(s);
      }
      if Pending(t.inState) && (wrote || !hint.AfterRead?) {
        var mayRead := wrote || hint.AfterWrite? || Readable(revents);
        ReadStepNoReneg(t, mayRead);
        NoRenegComposes(s, t, ReadStep(t, mayRead), false, false);
      }
    }
  }

  /** Only a broken descriptor, found with the output still waiting, leaves it stuck. */
  lemma FinishNoReneg(t: Io, revents: GioCond)
    requires Sound(t)
    ensures NoReneg(t, Finish(t, revents), Broken(revents) && Pending(t.outState))
  {
  }

  /** The deferred processing leaves an output stuck that still waits after the retry on a broken descriptor. */
  lemma DeferredNoReneg(s: Io, hint: Hint, revents: GioCond)
    requires Sound(s)
    ensures NoReneg(s, ProcessDeferred(s, hint, revents), Broken(revents) && Pending(Settle(s, hint, revents).outState))
  {
    hide Sound, Settle, Finish, Stuck;
    var t := Settle(s, hint, revents);
    SettleNoReneg(s, hint, revents);
    SettleIsSound(s, hint, revents);
    FinishNoReneg(t, revents);
    NoRenegComposes(s, t, Finish(t, revents), false, Broken(revents) && Pending(t.outState));
  }

  lemma ReadDoneNoReneg(s: Io, r: ReceiveResult)
    requires Sound(s) && s.inState.Idle? && Delivers(s.ssl, r) && SameReneg(s.ssl.log, r.ssl.log)
    ensures NoReneg(s, ReadDone(s, r).io, false)
  {
    hide Sound, ProcessDeferred, SameReneg;
    HandedIsSound(s, r);
    var t := Handed(s, r);
    assert NoReneg(s, t, false);
    if r.ioAttempted {
      DeferredNoReneg(t, AfterRead, {});
      NoRenegComposes(s, t, ProcessDeferred(t, AfterRead, {}), false, false);
    }
  }

  lemma NoRenegSelf(s: Io)
    ensures NoReneg(s, s, false)
  {
  }

  lemma ReadNoReneg(s: Io, cnt: nat)
    requires Sound(s)
    ensures NoReneg(s, HandleRead(s, cnt).io, false)
  {
    hide Sound, ReadDone, Receive, NoReneg;
    NoRenegSelf(s);
    if cnt > 0 && s.inState.Idle? {
      var n := Min(cnt, INT_MAX) - |s.Held()|;
      SoundIsDisciplined(s);
      ReceiveDoes(s.ssl, s.heldByte, n);
      ReceiveNoReneg(s.ssl, s.heldByte, n);
      ReadDoneNoReneg(s, Receive(s.ssl, s.heldByte, n));
    }
  }

  lemma SoundIsDisciplined(s: Io)
    requires Sound(s)
    ensures Disciplined(s.ssl.log) && (s.outState.Idle? ==> Unfinished(s.ssl.log).None?)
  {
  }

  lemma TakenOverNoReneg(s: Io, src: seq<byte>, r: SendResult)
    requires Sound(s) && s.outState.Idle? && Sends(s.ssl, src, r) && SameReneg(s.ssl.log, r.ssl.log)
    ensures NoReneg(s, TakenOver(s, src, r), false)
  {
  }

  lemma WriteNoReneg(s: Io, buf: seq<byte>)
    requires Sound(s) && BeforeClose(s.ssl.log).None?
    ensures NoReneg(s, HandleWrite(s, buf).io, false)
  {
    hide Sound, ProcessDeferred, Send, TakenOver, NoReneg;
    NoRenegSelf(s);
    if buf != [] && s.outState.Idle? {
      var src := buf[..Min(|buf|, INT_MAX)];
      var r := Send(s.ssl, src, MAX_IO_BUF_SIZE);
      SoundIsDisciplined(s);
      SendDoes(s.ssl, src);
      SendNoReneg(s.ssl, src, MAX_IO_BUF_SIZE);
      TakenOverNoReneg(s, src, r);
      TakenOverIsSound(s, src, r);
      var t := TakenOver(s, src, r);
      DeferredNoReneg(t, AfterWrite, {});
      NoRenegComposes(s, t, ProcessDeferred(t, AfterWrite, {}), false, false);
    }
  }

  lemma {:induction false} ShutLoopNoReneg(s: Io, how: ShutHow, p: ShutPhase)
    ensures NoReneg(s, ShutLoop(s, how, p).io, false)
    decreases |s.ssl.script|
  {
    hide Shutdown;
    var (ssl, ret, stalled, e) := Shutdown(s.ssl);
    if ret == 0 && !stalled && how.TwoWay? {
      ShutLoopNoReneg(s.(ssl := ssl), how, Shut2);
    }
  }

  lemma DoShutdownNoReneg(s: Io, how: ShutHow, p: ShutPhase)
    ensures NoReneg(s, DoShutdown(s, how, p).io, false)
  {
    hide ShutLoop;
    ShutLoopNoReneg(s, how, p);
  }

  /** A call that only drives the protocol, and whatever only touches the watch or the input. */
  lemma ControlNoReneg(s: Io, t: Io)
    requires ControlStep(s, t, 0)
    ensures NoReneg(s, t, false)
  {
  }

  lemma OutputSameNoReneg(s: Io, t: Io)
    requires t.ssl == s.ssl && t.outState == s.outState
    ensures NoReneg(s, t, false)
  {
  }
}
