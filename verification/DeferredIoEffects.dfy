/**
 What the deferred I/O does to the outside, told from the calls it makes, the answers it gets and
 the flags of the watch alone: a waiting direction is retried when its socket is ready, and
 waits for what the library asked for.
 */
module DeferredIoEffects {
  import opened Common
  import opened SslOracle
  import opened DeferredIo
  import opened DeferredIoProofs
  import opened CryptoEventProofs
  import opened CryptoControlProofs

  // ---------------------------------------------------------------------------------------
  // Logs grow
  // ---------------------------------------------------------------------------------------

  function Size(log: Log): nat {
    if log.NoCalls? then 0 else Size(log.before) + 1
  }

  lemma {:induction false} ExtendsSize(a: Log, b: Log)
    requires Extends(a, b)
    ensures Size(a) <= Size(b) && (Size(a) == Size(b) ==> a == b)
    decreases b
  {
    if a != b {
      ExtendsSize(a, b.before);
    }
  }

  lemma {:induction false} ExtendsOn(a: Log, b: Log, c: Log)
    requires Extends(a, b) && Extends(b, c)
    ensures Extends(a, c)
    ensures a != b ==> FirstSince(a, c) == FirstSince(a, b)
    decreases c
  {
    if b != c {
      ExtendsOn(a, b, c.before);
      ExtendsSize(a, b);
      ExtendsSize(b, c.before);
    }
  }

  lemma {:induction false} SendExtends(ssl: Ssl, src: seq<byte>, max: nat)
    requires 0 < max
    ensures Extends(ssl.log, Send(ssl, src, max).ssl.log)
    decreases |src|
  {
    hide Write;
    if src != [] {
      var (ssl', n, e) := Write(ssl, src[..Min(|src|, max)]);
      assert Extends(ssl.log, ssl'.log);
      if e.NoError? {
        SendExtends(ssl', src[n..], max);
        ExtendsOn(ssl.log, ssl'.log, Send(ssl', src[n..], max).ssl.log);
      }
    }
  }

  /** The first piece is presented first. */
  lemma SendBegins(ssl: Ssl, src: seq<byte>, max: nat)
    requires 0 < max && src != []
    ensures var first := FirstSince(ssl.log, Send(ssl, src, max).ssl.log);
            && first.Some? && first.value.WriteCall? && first.value.data == src[..Min(|src|, max)]
            && (first.value.taken == |src| ==> Send(ssl, src, max).err.NoError?)
    ensures Send(ssl, src, max).ssl.log != ssl.log
  {
    hide Write;
    var (ssl', n, e) := Write(ssl, src[..Min(|src|, max)]);
    assert Extends(ssl.log, ssl'.log) && ssl'.log != ssl.log;
    if e.NoError? {
      SendExtends(ssl', src[n..], max);
      var after := Send(ssl', src[n..], max).ssl.log;
      ExtendsOn(ssl.log, ssl'.log, after);
      ExtendsSize(ssl'.log, after);
    }
  }

  /** How a send ended is how its last SSL_write did. */
  lemma {:induction false} SendEnds(ssl: Ssl, src: seq<byte>, max: nat)
    requires 0 < max && src != []
    ensures var r := Send(ssl, src, max);
            && LastWrite(r.ssl.log) == Some(r.err) && !ReadSinceWrite(r.ssl.log)
            && LastRead(r.ssl.log) == LastRead(ssl.log) && ReadCalls(r.ssl.log) == ReadCalls(ssl.log)
            && r.ssl.pending >= ssl.pending
    decreases |src|
  {
    var (ssl', n, e) := Write(ssl, src[..Min(|src|, max)]);
    if e.NoError? && src[n..] != [] {
      SendEnds(ssl', src[n..], max);
    }
  }

  lemma {:induction false} ReceiveExtends(ssl: Ssl, through: byte, cnt: nat)
    ensures Extends(ssl.log, Receive(ssl, through, cnt).ssl.log)
    decreases cnt
  {
    hide Read;
    if cnt != 0 {
      var direct := ssl.pending > 0;
      var (ssl', data, e) := Read(ssl, if direct then Min(cnt, ssl.pending) else 1);
      assert Extends(ssl.log, ssl'.log);
      if e.NoError? {
        var through' := if direct then through else data[0];
        ReceiveExtends(ssl', through', cnt - |data|);
        ExtendsOn(ssl.log, ssl'.log, Receive(ssl', through', cnt - |data|).ssl.log);
      }
    }
  }

  /** Between the two logs SSL_read went to the transport. */
  predicate TransportRead(earlier: Log, later: Log) {
    && later != earlier && later.Then?
    && ((later.last.ReadCall? && !later.last.fromPending) || TransportRead(earlier, later.before))
  }

  lemma {:induction false} TransportOn(a: Log, b: Log, c: Log)
    requires Extends(a, b) && Extends(b, c)
    ensures TransportRead(a, c) <==> TransportRead(a, b) || TransportRead(b, c)
    decreases c
  {
    if b != c {
      ExtendsOn(a, b, c.before);
      ExtendsSize(a, b);
      ExtendsSize(b, c.before);
      TransportOn(a, b, c.before);
    }
  }

  /** The first call of a receive is an SSL_read, and I/O was attempted exactly when one went to the transport. */
  lemma {:induction false} ReceiveBegins(ssl: Ssl, through: byte, cnt: nat)
    requires cnt > 0
    ensures var r := Receive(ssl, through, cnt); var first := FirstSince(ssl.log, r.ssl.log);
            && first.Some? && first.value.ReadCall? && r.ssl.log != ssl.log
            && (r.ioAttempted <==> TransportRead(ssl.log, r.ssl.log))
    decreases cnt
  {
    hide Read;
    var direct := ssl.pending > 0;
    var (ssl', data, e) := Read(ssl, if direct then Min(cnt, ssl.pending) else 1);
    assert ssl'.log.before == ssl.log && ssl'.log.last.fromPending == direct;
    assert Extends(ssl.log, ssl'.log) && ssl'.log != ssl.log;
    assert TransportRead(ssl.log, ssl'.log) <==> !direct;
    if e.NoError? && cnt > |data| {
      var through' := if direct then through else data[0];
      var r := Receive(ssl', through', cnt - |data|);
      ReceiveBegins(ssl', through', cnt - |data|);
      ReceiveExtends(ssl', through', cnt - |data|);
      ExtendsOn(ssl.log, ssl'.log, r.ssl.log);
      ExtendsSize(ssl'.log, r.ssl.log);
      TransportOn(ssl.log, ssl'.log, r.ssl.log);
    }
  }

  /** How a receive ended is how its last SSL_read did. */
  lemma {:induction false} ReceiveEnds(ssl: Ssl, through: byte, cnt: nat)
    requires cnt > 0
    ensures var r := Receive(ssl, through, cnt);
            && LastRead(r.ssl.log) == Some(r.err) && ReadSinceWrite(r.ssl.log)
            && LastWrite(r.ssl.log) == LastWrite(ssl.log)
            && ReadCalls(r.ssl.log) > ReadCalls(ssl.log)
    decreases cnt
  {
    hide Read;
    var direct := ssl.pending > 0;
    var (ssl', data, e) := Read(ssl, if direct then Min(cnt, ssl.pending) else 1);
    if e.NoError? && cnt > |data| {
      ReceiveEnds(ssl', if direct then through else data[0], cnt - |data|);
    }
  }

  // ---------------------------------------------------------------------------------------
  // The single attempts
  // ---------------------------------------------------------------------------------------

  /** Output in a state that agrees with how the last SSL_write ended. */
  predicate OutputAsTold(s: Io) {
    && (s.outState.WaitRead? <==> LastWrite(s.ssl.log) == Some(SslWantRead))
    && (s.outState.WaitWrite? <==> LastWrite(s.ssl.log) == Some(SslWantWrite))
    && (s.outState.Idle? <==> LastWrite(s.ssl.log) == Some(NoError))
    && (s.outState.Failed? ==> LastWrite(s.ssl.log) == Some(s.outErr))
  }

  /** Input in a state that agrees with how the last SSL_read ended: idle and holding its octet after success. */
  predicate InputAsTold(s: Io) {
    && (s.inState.WaitRead? <==> LastRead(s.ssl.log) == Some(SslWantRead))
    && (s.inState.WaitWrite? <==> LastRead(s.ssl.log) == Some(SslWantWrite))
    && (s.inState.Idle? <==> LastRead(s.ssl.log) == Some(NoError))
    && (s.inState.Failed? ==> LastRead(s.ssl.log) == Some(s.inErr))
  }

  /** One attempt to write: the whole buffer is presented first, and the output is as SSL_write says. */
  lemma FlushDoes(s: Io)
    requires Sound(s) && Pending(s.outState)
    ensures var t := Flush(s);
            && OutputAsTold(t) && !ReadSinceWrite(t.ssl.log) && (t.outState.Idle? <==> t.outBuf == [])
            && LastRead(t.ssl.log) == LastRead(s.ssl.log) && ReadCalls(t.ssl.log) == ReadCalls(s.ssl.log)
            && t.ssl.pending >= s.ssl.pending && t.inState == s.inState && t.inErr == s.inErr
    ensures var t := Flush(s); var first := FirstSince(s.ssl.log, t.ssl.log);
            && Extends(s.ssl.log, t.ssl.log) && t.ssl.log != s.ssl.log
            && first.Some? && first.value.WriteCall? && first.value.data == s.outBuf
            && (first.value.taken == |s.outBuf| ==> t.outState.Idle?)
  {
    hide Send;
    var n := |s.outBuf|;
    assert s.outBuf[..n] == s.outBuf;
    SendExtends(s.ssl, s.outBuf, n);
    SendBegins(s.ssl, s.outBuf, n);
    SendEnds(s.ssl, s.outBuf, n);
    SendFailsFatally(s.ssl, s.outBuf, n);
    FlushIsSound(s);
  }

  /** A send that failed for good has something left. */
  lemma {:induction false} SendFailsFatally(ssl: Ssl, src: seq<byte>, max: nat)
    requires 0 < max
    ensures var r := Send(ssl, src, max); !r.err.NoError? ==> r.numWritten < |src|
    decreases |src|
  {
    hide Write;
    if src != [] {
      var (ssl', n, e) := Write(ssl, src[..Min(|src|, max)]);
      if e.NoError? {
        SendFailsFatally(ssl', src[n..], max);
      }
    }
  }

  /** One attempt to read an octet. */
  lemma HoldByteDoes(s: Io, allowed: bool)
    requires Sound(s) && Pending(s.inState) && (s.ssl.pending == 0 ==> allowed)
    ensures var t := HoldByte(s, allowed);
            && InputAsTold(t) && (t.held <==> t.inState.Idle?) && ReadSinceWrite(t.ssl.log)
            && LastWrite(t.ssl.log) == LastWrite(s.ssl.log) && ReadCalls(t.ssl.log) == ReadCalls(s.ssl.log) + 1
            && Extends(s.ssl.log, t.ssl.log) && t.outState == s.outState && t.outErr == s.outErr
            && (s.ssl.pending > 0 ==> !Pending(t.inState))
    ensures var first := FirstSince(s.ssl.log, HoldByte(s, allowed).ssl.log);
            first.Some? && first.value.ReadCall? && HoldByte(s, allowed).ssl.log != s.ssl.log
  {
    hide Receive, HoldByte, Sound;
    ReceiveBegins(s.ssl, s.heldByte, 1);
    ReceiveEnds(s.ssl, s.heldByte, 1);
    ReceiveExtends(s.ssl, s.heldByte, 1);
    HoldByteReadsOne(s, allowed);
    HoldByteIsSound(s, allowed);
    OneReceived(s.ssl, s.heldByte);
    HoldByteIs(s, allowed);
    KeptAsTold(s, Receive(s.ssl, s.heldByte, 1), allowed);
  }

  lemma HoldByteIs(s: Io, allowed: bool)
    ensures HoldByte(s, allowed) == DeferredIo.Kept(s, Receive(s.ssl, s.heldByte, 1), allowed)
    ensures HoldByte(s, allowed).ssl == Receive(s.ssl, s.heldByte, 1).ssl
    ensures HoldByte(s, allowed).outState == s.outState && HoldByte(s, allowed).outErr == s.outErr
  {
    hide Receive;
  }

  lemma KeptAsTold(s: Io, r: ReceiveResult, allowed: bool)
    requires Sound(s) && Pending(s.inState) && (r.err.IsDeferral() ==> allowed)
    requires |r.data| <= 1 && (r.err.NoError? <==> |r.data| == 1) && LastRead(r.ssl.log) == Some(r.err)
    ensures var t := DeferredIo.Kept(s, r, allowed);
            InputAsTold(t) && (t.held <==> t.inState.Idle?) && (Pending(t.inState) <==> r.err.IsDeferral())
  {
  }

  lemma OneReceived(ssl: Ssl, through: byte)
    ensures ssl.pending > 0 ==> !Receive(ssl, through, 1).err.IsDeferral()
  {
    if ssl.pending > 0 {
      ReceiveWithinPending(ssl, through, 1);
    }
  }

  /** The read step makes its call when octets are pending, or when it may and the output does not wait to read. */
  predicate ReadDue(s: Io, mayRead: bool) {
    s.ssl.pending > 0 || (mayRead && !s.outState.WaitRead?)
  }

  lemma ReadStepDoes(s: Io, mayRead: bool)
    requires Sound(s) && Pending(s.inState)
    ensures var t := ReadStep(s, mayRead);
            if ReadDue(s, mayRead) then
              && InputAsTold(t) && ReadCalls(t.ssl.log) == ReadCalls(s.ssl.log) + 1
              && (OutputAsTold(t) || (ReadSinceWrite(t.ssl.log) && LastWrite(t.ssl.log) == LastWrite(s.ssl.log)
                                      && t.outState == s.outState && t.outErr == s.outErr))
            else t == if s.outState.WaitRead? then s.(inState := WaitRead) else s
    ensures Extends(s.ssl.log, ReadStep(s, mayRead).ssl.log)
    ensures var first := FirstSince(s.ssl.log, ReadStep(s, mayRead).ssl.log); first.Some? ==> first.value.ReadCall?
  {
    hide Sound, HoldByte, Flush, OutputAsTold;
    if s.ssl.pending > 0 {
      HoldByteDoes(s, false);
    } else if !s.outState.WaitRead? && mayRead {
      HoldByteDoes(s, true);
      HoldByteIsSound(s, true);
      var t := HoldByte(s, true);
      if t.inState.Failed? && Pending(t.outState) {
        FlushDoes(t);
        ExtendsOn(s.ssl.log, t.ssl.log, Flush(t).ssl.log);
      }
    }
  }

  // ---------------------------------------------------------------------------------------
  // What a direction waits for
  // ---------------------------------------------------------------------------------------

  /** The output waits for what the last SSL_write asked for; a read since may have made it a writable socket. */
  predicate OutputTold(s: Io) {
    && (s.outState.WaitRead? ==> LastWrite(s.ssl.log) == Some(SslWantRead))
    && (s.outState.WaitWrite? ==>
          || LastWrite(s.ssl.log) == Some(SslWantWrite)
          || (LastWrite(s.ssl.log) == Some(SslWantRead) && ReadSinceWrite(s.ssl.log)))
  }

  /** The input waits for what the last SSL_read asked for, or along with an output that waits to read. */
  predicate InputTold(s: Io) {
    && (s.inState.WaitWrite? ==> LastRead(s.ssl.log) == Some(SslWantWrite))
    && (s.inState.WaitRead? ==> LastRead(s.ssl.log) == Some(SslWantRead) || s.outState.WaitRead?)
  }

  predicate Told(s: Io) {
    OutputTold(s) && InputTold(s)
  }

  /** SSL_read was called last, and a waiting input waits for what it asked for. */
  predicate JustRead(s: Io) {
    ReadSinceWrite(s.ssl.log) && (Pending(s.inState) ==> InputAsTold(s))
  }

  lemma ReadStepTold(s: Io, mayRead: bool)
    requires Sound(s) && Pending(s.inState) && OutputTold(s) && (InputTold(s) || mayRead)
    ensures Told(ReadStep(s, mayRead))
  {
    hide Sound, ReadStep;
    ReadStepDoes(s, mayRead);
  }

  lemma SettleTold(s: Io, hint: Hint, revents: GioCond)
    requires Sound(s) && Told(s) && (hint.AfterRead? ==> JustRead(s))
    ensures Told(Settle(s, hint, revents))
  {
    hide Sound, Flush, ReadStep;
    if !Optimistic(s, hint) {
      var wrote := WriteDue(s, hint, revents);
      var t := if wrote then Flush(s) else s;
      if wrote {
        FlushIsSound(s);
        FlushDoes(s);
      }
      if Pending(t.inState) && (wrote || !hint.AfterRead?) {
        ReadStepTold(t, wrote || hint.AfterWrite? || Readable(revents));
      }
    }
  }

  lemma FinishTold(t: Io, revents: GioCond)
    requires Told(t)
    ensures Told(Finish(t, revents))
  {
  }

  /** The deferred processing leaves each direction waiting for what the library asked for. */
  lemma DeferredTold(s: Io, hint: Hint, revents: GioCond)
    requires Sound(s) && Told(s) && (hint.AfterRead? ==> JustRead(s))
    ensures Told(ProcessDeferred(s, hint, revents))
  {
    hide Sound, Settle, Finish, Told;
    SettleTold(s, hint, revents);
    FinishTold(Settle(s, hint, revents), revents);
  }

  /** READ and WRITE do too. */
  lemma HandedTold(s: Io, r: ReceiveResult)
    requires Sound(s) && s.inState.Idle? && Told(s) && LastWrite(r.ssl.log) == LastWrite(s.ssl.log)
    requires if r.ssl.log == s.ssl.log then r.err.NoError?
             else LastRead(r.ssl.log) == Some(r.err) && ReadSinceWrite(r.ssl.log)
    ensures Told(Handed(s, r))
    ensures r.ssl.log != s.ssl.log && (Pending(Handed(s, r).inState) ==> r.err.IsDeferral()) ==> JustRead(Handed(s, r))
    ensures Handed(s, r).outState == s.outState && Handed(s, r).ssl == r.ssl
  {
  }

  lemma ReceiveNothing(ssl: Ssl, through: byte)
    ensures Receive(ssl, through, 0) == ReceiveResult(ssl, through, [], NoError, false)
  {
  }

  lemma ReadFromTold(s: Io, n: nat)
    requires Sound(s) && s.inState.Idle? && Told(s)
    ensures Told(ReadFrom(s, n).io)
  {
    hide Sound, Receive, ProcessDeferred, Handed, Told, JustRead;
    var r := Receive(s.ssl, s.heldByte, n);
    SoundIsDisciplined(s);
    ReceiveDoes(s.ssl, s.heldByte, n);
    ReceiveNothing(s.ssl, s.heldByte);
    if n > 0 {
      ReceiveEnds(s.ssl, s.heldByte, n);
      assert r.ssl.log != s.ssl.log;
    }
    HandedTold(s, r);
    HandedWaits(s, r);
    if r.ioAttempted {
      HandedIsSound(s, r);
      DeferredTold(Handed(s, r), AfterRead, {});
    }
  }

  lemma HandedWaits(s: Io, r: ReceiveResult)
    requires s.inState.Idle?
    ensures Pending(Handed(s, r).inState) ==> r.err.IsDeferral()
  {
  }

  lemma ReadTold(s: Io, cnt: nat)
    requires Sound(s) && Told(s)
    ensures Told(HandleRead(s, cnt).io)
  {
    hide Sound, ReadFrom, Told;
    if cnt > 0 && s.inState.Idle? {
      ReadFromTold(s, Min(cnt, INT_MAX) - |s.Held()|);
    }
  }

  lemma TakenOverTold(s: Io, src: seq<byte>, r: SendResult)
    requires s.outState.Idle? && Told(s) && r.numWritten + r.deferredCnt <= |src|
    requires LastWrite(r.ssl.log) == Some(r.err) && LastRead(r.ssl.log) == LastRead(s.ssl.log)
    ensures Told(TakenOver(s, src, r))
    ensures var t := TakenOver(s, src, r); OutputAsTold(t) && t.ssl == r.ssl && t.inState == s.inState
  {
  }

  lemma WriteTold(s: Io, buf: seq<byte>)
    requires Sound(s) && Told(s) && BeforeClose(s.ssl.log).None?
    ensures Told(HandleWrite(s, buf).io)
  {
    hide Sound, ProcessDeferred, Send, TakenOver, Told;
    if buf != [] && s.outState.Idle? {
      var src := buf[..Min(|buf|, INT_MAX)];
      var r := Send(s.ssl, src, MAX_IO_BUF_SIZE);
      SoundIsDisciplined(s);
      SendDoes(s.ssl, src);
      SendEnds(s.ssl, src, MAX_IO_BUF_SIZE);
      TakenOverTold(s, src, r);
      TakenOverIsSound(s, src, r);
      DeferredTold(TakenOver(s, src, r), AfterWrite, {});
    }
  }

  // ---------------------------------------------------------------------------------------
  // An FD_WATCH retries what waits
  // ---------------------------------------------------------------------------------------

  /** The flags that let a waiting write be retried. */
  predicate MayWrite(revents: GioCond) {
    revents == {} || IoOut in revents || IoHup in revents || IoNval in revents
  }

  /** The flags that let a waiting read be retried. */
  predicate MayRead(revents: GioCond) {
    revents == {} || IoIn in revents || IoHup in revents || IoNval in revents
  }

  lemma SettleExtends(s: Io, hint: Hint, revents: GioCond)
    requires Sound(s)
    ensures Extends(s.ssl.log, Settle(s, hint, revents).ssl.log)
  {
    hide Sound, Flush, ReadStep;
    if !Optimistic(s, hint) {
      var wrote := WriteDue(s, hint, revents);
      var t := if wrote then Flush(s) else s;
      if wrote {
        FlushIsSound(s);
        FlushDoes(s);
      }
      if Pending(t.inState) && (wrote || !hint.AfterRead?) {
        var mayRead := wrote || hint.AfterWrite? || Readable(revents);
        ReadStepDoes(t, mayRead);
        ExtendsOn(s.ssl.log, t.ssl.log, ReadStep(t, mayRead).ssl.log);
      }
    }
  }

  lemma DeferredExtends(s: Io, hint: Hint, revents: GioCond)
    requires Sound(s)
    ensures Extends(s.ssl.log, ProcessDeferred(s, hint, revents).ssl.log)
  {
    hide Sound, Settle, Finish;
    SettleExtends(s, hint, revents);
    FinishKeeps(Settle(s, hint, revents), revents);
  }

  lemma FinishKeeps(t: Io, revents: GioCond)
    ensures var u := Finish(t, revents);
            && u.ssl == t.ssl && u.outBuf == t.outBuf && u.held == t.held
            && (IoHup !in revents && IoNval !in revents ==>
                  u.inState == t.inState && u.inErr == t.inErr && u.outState == t.outState && u.outErr == t.outErr)
            && (t.inState.Failed? || t.inState.Idle? ==> u.inState == t.inState && u.inErr == t.inErr)
            && (t.outState.Failed? ==> u.outState == t.outState && u.outErr == t.outErr)
  {
  }

  lemma SettleRetries(s: Io, revents: GioCond)
    requires Sound(s) && Pending(s.outState)
    ensures var t := Settle(s, Unknown, revents); var first := FirstSince(s.ssl.log, t.ssl.log);
            && (MayWrite(revents) <==> first.Some? && first.value.WriteCall?)
            && (MayWrite(revents) ==>
                  && first.value.data == s.outBuf
                  && (first.value.taken == |s.outBuf| ==> t.outState.Idle? && t.outBuf == []))
  {
    hide Sound, Flush, ReadStep, Told;
    if MayWrite(revents) {
      assert WriteDue(s, Unknown, revents);
      var t := Flush(s);
      FlushIsSound(s);
      FlushDoes(s);
      if Pending(t.inState) {
        ReadStepDoes(t, true);
        ReadStepIsSound(t, true);
        ReadStepKeepsIdle(t, true);
        ExtendsOn(s.ssl.log, t.ssl.log, ReadStep(t, true).ssl.log);
      }
    } else {
      assert !WriteDue(s, Unknown, revents);
      if Pending(s.inState) {
        ReadStepDoes(s, Readable(revents));
      }
    }
  }

  lemma ReadStepKeepsIdle(s: Io, mayRead: bool)
    ensures s.outState.Idle? ==> ReadStep(s, mayRead).outState.Idle? && ReadStep(s, mayRead).outBuf == s.outBuf
  {
    hide HoldByte;
    HoldByteIs(s, true);
    HoldByteIs(s, false);
  }

  /**
   A waiting output is presented to SSL_write, all of it and before anything else, exactly when
   the socket is reported writable or broken, or nothing is reported; taken completely, it is
   gone and the output idle.
   */
  lemma RetriesOutput(s: Io, revents: GioCond)
    requires Sound(s) && Pending(s.outState)
    ensures var t := ProcessDeferred(s, Unknown, revents); var first := FirstSince(s.ssl.log, t.ssl.log);
            && ((first.Some? && first.value.WriteCall?) <==>
                  (revents == {} || IoOut in revents || IoHup in revents || IoNval in revents))
            && (first.Some? && first.value.WriteCall? ==>
                  && first.value.data == s.outBuf
                  && (first.value.taken == |s.outBuf| ==>
                        t.outBuf == [] && (IoHup !in revents && IoNval !in revents ==> t.outState.Idle?)))
  {
    hide Sound, Settle, Finish;
    SettleRetries(s, revents);
    FinishKeeps(Settle(s, Unknown, revents), revents);
  }

  lemma SettleReads(s: Io, revents: GioCond)
    requires Sound(s) && Pending(s.inState)
    ensures var t := Settle(s, Unknown, revents);
            var retried := Pending(s.outState) && MayWrite(revents);
            var tries := ReadCalls(t.ssl.log) - ReadCalls(s.ssl.log);
            && (tries == 0 || tries == 1) && (s.ssl.pending > 0 ==> tries == 1)
            && (s.ssl.pending == 0 && !retried ==> (tries == 1 <==> MayRead(revents) && !s.outState.WaitRead?))
            && (retried && tries == 0 ==> LastWrite(t.ssl.log) == Some(SslWantRead))
            && (tries == 1 ==> InputAsTold(t))
  {
    hide Sound, Flush, ReadStep;
    if Pending(s.outState) && MayWrite(revents) {
      assert WriteDue(s, Unknown, revents);
      FlushIsSound(s);
      FlushDoes(s);
      ReadStepDoes(Flush(s), true);
    } else {
      assert !WriteDue(s, Unknown, revents);
      ReadStepDoes(s, Readable(revents));
    }
  }

  /**
   A waiting input is retried once when octets are pending, or when the socket is reported
   readable or broken or nothing is reported; only an output that waits to read holds it back.
   An octet read is held and the input idle; otherwise it waits for what SSL_read asked for, or
   has failed with its error.
   */
  lemma RetriesInput(s: Io, revents: GioCond)
    requires Sound(s) && Pending(s.inState)
    ensures var t := ProcessDeferred(s, Unknown, revents);
            var retried := Pending(s.outState)
                           && (revents == {} || IoOut in revents || IoHup in revents || IoNval in revents);
            var tries := ReadCalls(t.ssl.log) - ReadCalls(s.ssl.log);
            && (tries == 0 || tries == 1) && (s.ssl.pending > 0 ==> tries == 1)
            && (s.ssl.pending == 0 && !retried ==>
                  (tries == 1 <==> (revents == {} || IoIn in revents || IoHup in revents || IoNval in revents)
                                   && !s.outState.WaitRead?))
            && (retried && tries == 0 ==> LastWrite(t.ssl.log) == Some(SslWantRead))
            && (tries == 1 ==>
                  && (LastRead(t.ssl.log) == Some(NoError) ==> t.inState.Idle? && t.held)
                  && (t.inState.Idle? ==> LastRead(t.ssl.log) == Some(NoError))
                  && (IoHup !in revents && IoNval !in revents ==> InputAsTold(t)))
  {
    hide Sound, Settle, Finish;
    var u := Settle(s, Unknown, revents);
    SettleReads(s, revents);
    SettleHolds(s, revents);
    FinishKeeps(u, revents);
    FinishIdle(u, revents);
  }

  lemma FinishIdle(t: Io, revents: GioCond)
    ensures Finish(t, revents).inState.Idle? ==> t.inState.Idle?
  {
  }

  /** Input that comes out idle holds an octet. */
  lemma SettleHolds(s: Io, revents: GioCond)
    requires Sound(s) && Pending(s.inState)
    ensures var t := Settle(s, Unknown, revents); t.inState.Idle? ==> t.held
  {
    hide Sound, Flush, HoldByte;
    var wrote := WriteDue(s, Unknown, revents);
    var t := if wrote then Flush(s) else s;
    if wrote {
      FlushIsSound(s);
      FlushDoes(s);
    }
    if t.ssl.pending > 0 {
      HoldByteDoes(t, false);
    } else {
      HoldByteDoes(t, true);
      HoldByteIsSound(t, true);
      if HoldByte(t, true).inState.Failed? && Pending(HoldByte(t, true).outState) {
        FlushDoes(HoldByte(t, true));
      }
    }
  }

  // ---------------------------------------------------------------------------------------
  // What the watch is asked for
  // ---------------------------------------------------------------------------------------

  /** An exact watch, flag by flag. */
  lemma ExactFlags(s: Io)
    requires WatchExact(s)
    ensures IoIn in s.registered <==> s.inState.WaitRead? || s.outState.WaitRead?
    ensures IoOut in s.registered <==> s.inState.WaitWrite? || s.outState.WaitWrite?
    ensures s.registered <= {IoIn, IoOut}
  {
  }

  /** After a READ the input is as SSL_read said, or idle because octets were there before it had to wait. */
  lemma ReadFromWaits(s: Io, n: nat)
    requires Sound(s) && s.inState.Idle? && n > 0
    ensures var o := ReadFrom(s, n); var r := Receive(s.ssl, s.heldByte, n);
            && LastRead(o.io.ssl.log) == Some(r.err)
            && (o.data == [] && r.err.IsDeferral() ==> InputAsTold(o.io))
            && (TransportRead(s.ssl.log, r.ssl.log) <==> r.ioAttempted)
  {
    hide Sound, Receive, ProcessDeferred, Settle;
    var r := Receive(s.ssl, s.heldByte, n);
    SoundIsDisciplined(s);
    ReceiveDoes(s.ssl, s.heldByte, n);
    ReceiveEnds(s.ssl, s.heldByte, n);
    ReceiveBegins(s.ssl, s.heldByte, n);
    HandedIsSound(s, r);
    var t := Handed(s, r);
    HandedFrame(s, r);
    if r.ioAttempted {
      AfterReadKeepsCause(t);
      AfterReadReads(t);
    }
  }

  /** The processing after a READ makes no SSL_read of its own. */
  lemma AfterReadReads(s: Io)
    requires Sound(s)
    ensures var t := ProcessDeferred(s, AfterRead, {}); LastRead(t.ssl.log) == LastRead(s.ssl.log)
  {
    hide Sound, Flush, Receive;
    if s.inState.Failed? && Pending(s.outState) {
      FlushDoes(s);
      FlushIsSound(s);
    }
  }

  /**
   A READ that answers AGAIN leaves the watch waiting for what its last SSL_read asked for, with
   a waiting output waiting for a writable socket along with it.
   */
  lemma ReadAgainWatches(s: Io, cnt: nat)
    requires Sound(s) && WatchExact(s) && NoCrossedWaits(s) && s.inState.Idle?
    ensures var o := HandleRead(s, cnt); var want := LastRead(o.io.ssl.log);
            o.status.StatusAgain? ==>
              && (want == Some(SslWantRead) || want == Some(SslWantWrite)) && o.data == []
              && (IoIn in o.io.registered <==> want == Some(SslWantRead))
              && (IoOut in o.io.registered <==> want == Some(SslWantWrite) || Pending(s.outState))
  {
    hide Sound, ReadFrom;
    var o := HandleRead(s, cnt);
    ReadIsSound(s, cnt);
    ReadStatusTells(s, cnt);
    if o.status.StatusAgain? {
      var n := Min(cnt, INT_MAX) - |s.Held()|;
      AgainReadsNothing(s, n);
      ReadFromWaits(s, n);
      AgainSwitches(s, n);
      ExactFlags(o.io);
    }
  }

  lemma AgainReadsNothing(s: Io, n: nat)
    requires ReadFrom(s, n).status.StatusAgain?
    ensures n > 0 && ReadFrom(s, n).data == [] && Receive(s.ssl, s.heldByte, n).err.IsDeferral()
  {
    hide Receive, ProcessDeferred;
    ReceiveNothing(s.ssl, s.heldByte);
  }

  /** The optimistic switch. */
  lemma AgainSwitches(s: Io, n: nat)
    requires Sound(s) && s.inState.Idle? && ReadFrom(s, n).status.StatusAgain?
    ensures Pending(s.outState) ==> ReadFrom(s, n).io.outState.WaitWrite?
    ensures !Pending(s.outState) ==> !Pending(ReadFrom(s, n).io.outState)
  {
    hide Sound, Receive, Flush;
    var r := Receive(s.ssl, s.heldByte, n);
    AgainReadsNothing(s, n);
    SoundIsDisciplined(s);
    ReceiveDoes(s.ssl, s.heldByte, n);
    HandedIsSound(s, r);
    WaitingAfterRead(Handed(s, r));
  }

  /**
   A READ that went to the transport gives a waiting output another chance: it is taken to wait
   for a writable socket, or, after a failure of the input, is retried at once.
   */
  lemma ReadWakesOutput(s: Io, cnt: nat)
    requires Sound(s) && s.inState.Idle? && Pending(s.outState)
    ensures var o := HandleRead(s, cnt);
            TransportRead(s.ssl.log, o.io.ssl.log) ==>
              if o.io.inState.Failed? then OutputAsTold(o.io) && !ReadSinceWrite(o.io.ssl.log)
              else o.io.outState.WaitWrite? && (WatchCoherent(s) ==> IoOut in o.io.registered)
  {
    hide Sound, ReadFrom;
    if cnt > 0 {
      ReadFromWakes(s, Min(cnt, INT_MAX) - |s.Held()|);
    }
  }

  lemma ReadFromWakes(s: Io, n: nat)
    requires Sound(s) && s.inState.Idle? && Pending(s.outState)
    ensures var t := ReadFrom(s, n).io;
            TransportRead(s.ssl.log, t.ssl.log) ==>
              if t.inState.Failed? then OutputAsTold(t) && !ReadSinceWrite(t.ssl.log)
              else t.outState.WaitWrite? && (WatchCoherent(s) ==> IoOut in t.registered)
  {
    hide Sound, Receive, ProcessDeferred, OutputAsTold;
    var r := Receive(s.ssl, s.heldByte, n);
    SoundIsDisciplined(s);
    ReceiveDoes(s.ssl, s.heldByte, n);
    ReceiveNothing(s.ssl, s.heldByte);
    if n > 0 {
      ReceiveBegins(s.ssl, s.heldByte, n);
    }
    HandedIsSound(s, r);
    HandedFrame(s, r);
    if r.ioAttempted {
      AfterReadWakes(Handed(s, r));
    }
  }

  lemma AfterReadWakes(s: Io)
    requires Sound(s) && Pending(s.outState)
    ensures var t := ProcessDeferred(s, AfterRead, {});
            if t.inState.Failed? then OutputAsTold(t) && !ReadSinceWrite(t.ssl.log)
            else t.outState.WaitWrite? && (WatchCoherent(s) ==> IoOut in t.registered)
  {
    hide Sound, Flush;
    if s.inState.Failed? {
      FlushDoes(s);
      FlushIsSound(s);
    }
  }

  /** A WRITE that has to wait waits for what the last SSL_write asked for. */
  lemma WriteWatches(s: Io, buf: seq<byte>)
    requires Sound(s) && WatchExact(s) && NoCrossedWaits(s) && BeforeClose(s.ssl.log).None?
    requires s.outState.Idle? && buf != []
    ensures var t := HandleWrite(s, buf).io;
            && OutputAsTold(t)
            && (LastWrite(t.ssl.log) == Some(SslWantRead) ==> IoIn in t.registered)
            && (LastWrite(t.ssl.log) == Some(SslWantWrite) ==> IoOut in t.registered)
  {
    hide Sound, ProcessDeferred, Send, TakenOver;
    var src := buf[..Min(|buf|, INT_MAX)];
    var r := Send(s.ssl, src, MAX_IO_BUF_SIZE);
    SoundIsDisciplined(s);
    SendDoes(s.ssl, src);
    SendEnds(s.ssl, src, MAX_IO_BUF_SIZE);
    TakenOverAsTold(s, src, r);
    TakenOverIsSound(s, src, r);
    AfterWriteAsTold(TakenOver(s, src, r));
    WriteIsSound(s, buf);
    ExactFlags(HandleWrite(s, buf).io);
  }

  lemma TakenOverAsTold(s: Io, src: seq<byte>, r: SendResult)
    requires s.outState.Idle? && r.numWritten + r.deferredCnt <= |src| && LastWrite(r.ssl.log) == Some(r.err)
    ensures OutputAsTold(TakenOver(s, src, r))
  {
  }

  lemma AfterWriteAsTold(s: Io)
    requires Sound(s) && OutputAsTold(s)
    ensures OutputAsTold(ProcessDeferred(s, AfterWrite, {}))
  {
    hide Sound, ReadStep;
    if Pending(s.inState) {
      ReadStepDoes(s, true);
    }
  }

  // ---------------------------------------------------------------------------------------
  // A broken descriptor, and input that fails
  // ---------------------------------------------------------------------------------------

  lemma SettleWhenBroken(s: Io, revents: GioCond)
    requires Sound(s) && (IoHup in revents || IoNval in revents)
    ensures var u := Settle(s, Unknown, revents); var tried := ReadCalls(u.ssl.log) > ReadCalls(s.ssl.log);
            && (Pending(s.outState) ==> OutputAsTold(u))
            && (!Pending(s.outState) ==> u.outState == s.outState && u.outErr == s.outErr)
            && (Pending(s.inState) ==> if tried then InputAsTold(u) else Pending(u.inState))
            && (!Pending(s.inState) ==> u.inState == s.inState && u.inErr == s.inErr)
  {
    hide Sound, Flush, ReadStep;
    var wrote := WriteDue(s, Unknown, revents);
    var t := if wrote then Flush(s) else s;
    if wrote {
      FlushIsSound(s);
      FlushDoes(s);
    }
    if Pending(t.inState) {
      ReadStepDoes(t, true);
      ReadStepIsSound(t, true);
      ReadStepKeepsHealth(t);
    }
  }

  lemma ReadStepKeepsHealth(s: Io)
    ensures !Pending(s.outState) ==> ReadStep(s, true).outState == s.outState && ReadStep(s, true).outErr == s.outErr
  {
    hide HoldByte, Flush;
    HoldByteIs(s, true);
    HoldByteIs(s, false);
  }

  /**
   A hang-up or an invalid descriptor leaves nothing waiting: the output fails, a waiting input
   fails unless its last try gave an octet, with the error of the call just made if that was
   fatal and as a reset connection otherwise; earlier errors stay.
   */
  lemma BrokenFails(s: Io, revents: GioCond)
    requires Sound(s) && (IoHup in revents || IoNval in revents)
    ensures var t := ProcessDeferred(s, Unknown, revents);
            var tried := ReadCalls(t.ssl.log) > ReadCalls(s.ssl.log);
            var lastWrite, lastRead := LastWrite(t.ssl.log), LastRead(t.ssl.log);
            && t.outState.Failed? && (s.outState.Failed? ==> t.outErr == s.outErr)
            && (s.outState.Idle? ==> t.outErr == TcpConnReset)
            && (Pending(s.outState) ==>
                  && lastWrite.Some?
                  && t.outErr == if lastWrite.value.IsFatal() then lastWrite.value else TcpConnReset)
            && (!Pending(s.inState) ==> t.inState == s.inState && t.inErr == s.inErr)
            && (Pending(s.inState) ==>
                  if tried && lastRead == Some(NoError) then t.inState.Idle?
                  else
                    && t.inState.Failed?
                    && t.inErr == if tried && lastRead.Some? && lastRead.value.IsFatal() then lastRead.value
                                  else TcpConnReset)
  {
    hide Sound, Settle;
    SettleWhenBroken(s, revents);
    assert Broken(revents);
  }

  /** When the input fails for good, an output that waits is tried at once, whatever it waits for. */
  lemma FailedInputFreesOutput(s: Io, revents: GioCond)
    requires Sound(s) && Pending(s.inState) && Pending(s.outState) && s.ssl.pending == 0
    requires IoIn in revents && IoOut !in revents && IoHup !in revents && IoNval !in revents
    ensures var t := ProcessDeferred(s, Unknown, revents); var first := FirstSince(s.ssl.log, t.ssl.log);
            t.inState.Failed? ==>
              && first.Some? && first.value.ReadCall?
              && var second := FirstSince(Then(s.ssl.log, first.value), t.ssl.log);
                 second.Some? && second.value.WriteCall? && second.value.data == s.outBuf
  {
    hide Sound, HoldByte, Flush, Finish;
    assert !WriteDue(s, Unknown, revents);
    FinishKeeps(Settle(s, Unknown, revents), revents);
    if !s.outState.WaitRead? {
      HoldByteDoes(s, true);
      HoldByteIsSound(s, true);
      HoldByteIs(s, true);
      var t := HoldByte(s, true);
      OneReadLogs(s.ssl, s.heldByte);
      if t.inState.Failed? {
        FlushDoes(t);
        ExtendsOn(s.ssl.log, t.ssl.log, Flush(t).ssl.log);
      }
    }
  }

  lemma OneReadLogs(ssl: Ssl, through: byte)
    requires ssl.pending == 0
    ensures var log := Receive(ssl, through, 1).ssl.log; log.Then? && log.before == ssl.log
  {
    var (ssl', data, e) := Read(ssl, 1);
    if e.NoError? {
      ReceiveNothing(ssl', data[0]);
    }
  }

  // ---------------------------------------------------------------------------------------
  // How much is transferred
  // ---------------------------------------------------------------------------------------

  /** READ from idle input gives all that was asked for, unless its last SSL_read stopped it. */
  lemma ReadGivesAll(s: Io, cnt: nat)
    requires Sound(s) && s.inState.Idle?
    ensures var o := HandleRead(s, cnt); var last := LastRead(o.io.ssl.log);
            |o.data| == (if cnt <= 0x7FFF_FFFF then cnt else 0x7FFF_FFFF) || (last.Some? && !last.value.NoError?)
  {
    hide Sound, Receive, ProcessDeferred;
    var n := Min(cnt, INT_MAX) - |s.Held()|;
    if n > 0 {
      ReadFromWaits(s, n);
    }
  }

  /** A READ that gave octets never leaves the input waiting. */
  lemma GivingReadWaitsNot(s: Io, cnt: nat)
    requires Sound(s) && s.inState.Idle?
    ensures var o := HandleRead(s, cnt); o.data != [] ==> !Pending(o.io.inState)
  {
    hide Sound, Receive, ProcessDeferred;
    if cnt > 0 {
      var n := Min(cnt, INT_MAX) - |s.Held()|;
      var r := Receive(s.ssl, s.heldByte, n);
      SoundIsDisciplined(s);
      ReceiveDoes(s.ssl, s.heldByte, n);
      HandedIsSound(s, r);
      AfterReadKeepsCause(Handed(s, r));
    }
  }

  /** Every SSL_write since `earlier` took something. */
  predicate WroteAll(earlier: Log, later: Log) {
    earlier == later || later.NoCalls?
    || ((later.last.WriteCall? ==> later.last.taken > 0) && WroteAll(earlier, later.before))
  }

  lemma {:induction false} WroteAllOn(a: Log, b: Log, c: Log)
    requires Extends(a, b) && Extends(b, c) && WroteAll(a, c)
    ensures WroteAll(a, b) && WroteAll(b, c)
    decreases c
  {
    if b != c {
      ExtendsSize(b, c.before);
      if a == c {
        ExtendsSize(a, b);
      } else {
        WroteAllOn(a, b, c.before);
      }
    }
  }

  lemma {:induction false} SendWroteAll(ssl: Ssl, src: seq<byte>, max: nat)
    requires 0 < max && WroteAll(ssl.log, Send(ssl, src, max).ssl.log)
    ensures Send(ssl, src, max).numWritten == |src|
    decreases |src|
  {
    hide Write;
    if src != [] {
      var (ssl', n, e) := Write(ssl, src[..Min(|src|, max)]);
      assert Extends(ssl.log, ssl'.log) && ssl'.log != ssl.log;
      if e.NoError? {
        SendExtends(ssl', src[n..], max);
        WroteAllOn(ssl.log, ssl'.log, Send(ssl', src[n..], max).ssl.log);
        SendWroteAll(ssl', src[n..], max);
      }
    }
  }

  /**
   WRITE to idle output begins with SSL_write of the first 16 KB, and accepts everything unless
   SSL_write refused some of it.
   */
  lemma WriteTakesAll(s: Io, buf: seq<byte>)
    requires Sound(s) && BeforeClose(s.ssl.log).None? && s.outState.Idle? && buf != []
    ensures var o := HandleWrite(s, buf); var first := FirstSince(s.ssl.log, o.io.ssl.log);
            && first.Some? && first.value.WriteCall?
            && first.value.data == (if |buf| <= 0x4000 then buf else buf[..0x4000])
            && (WroteAll(s.ssl.log, o.io.ssl.log) ==>
                  o.numWritten == if |buf| <= 0x7FFF_FFFF then |buf| else 0x7FFF_FFFF)
  {
    hide Sound, ProcessDeferred, Send, TakenOver;
    var src := buf[..Min(|buf|, INT_MAX)];
    var r := Send(s.ssl, src, MAX_IO_BUF_SIZE);
    SendExtends(s.ssl, src, MAX_IO_BUF_SIZE);
    SendBegins(s.ssl, src, MAX_IO_BUF_SIZE);
    SoundIsDisciplined(s);
    SendDoes(s.ssl, src);
    TakenOverIsSound(s, src, r);
    TakenOverLogs(s, src, r);
    var t := TakenOver(s, src, r);
    DeferredExtends(t, AfterWrite, {});
    var log := HandleWrite(s, buf).io.ssl.log;
    ExtendsOn(s.ssl.log, r.ssl.log, log);
    assert src[..Min(|src|, MAX_IO_BUF_SIZE)] == if |buf| <= 0x4000 then buf else buf[..0x4000];
    if WroteAll(s.ssl.log, log) {
      WroteAllOn(s.ssl.log, r.ssl.log, log);
      SendWroteAll(s.ssl, src, MAX_IO_BUF_SIZE);
    }
  }

  lemma TakenOverLogs(s: Io, src: seq<byte>, r: SendResult)
    requires r.numWritten + r.deferredCnt <= |src|
    ensures TakenOver(s, src, r).ssl == r.ssl
  {
  }

  // ---------------------------------------------------------------------------------------
  // Handshakes and the shutdown
  // ---------------------------------------------------------------------------------------

  /** A handshake call ends the handshake, or makes the watch wait for what it asked for and nothing else. */
  lemma HandshakeWatches(s: Io)
    requires WatchCoherent(s)
    ensures var h := DoHandshake(s);
            && h.io.ssl.log.Then? && h.io.ssl.log.before == s.ssl.log && h.io.ssl.log.last.HandshakeCall?
            && var err := h.io.ssl.log.last.err;
               && (h.done <==> err != SslWantRead && err != SslWantWrite) && (h.done ==> h.err == err)
               && (!h.done ==> h.err.NoError? && h.io.lastCond == h.io.registered)
               && (err == SslWantRead ==> h.io.registered == {IoIn})
               && (err == SslWantWrite ==> h.io.registered == {IoOut})
  {
    hide Handshake;
    assert Handshake(s.ssl).0.log == Then(s.ssl.log, HandshakeCall(Handshake(s.ssl).1));
  }

  /** What the last SSL_shutdown of a round said decides the phase, the error and the watch. */
  ghost predicate ShutToldBy(r: ShutResult, how: ShutHow, ret: int, err: PslError) {
    && (r.phase.ShutSuccess? <==> ret == 1 || (ret == 0 && err.NoError? && how.OneWay?))
    && (r.phase.ShutFailed? <==> err.IsFatal()) && (if err.IsFatal() then r.err == err else r.err.NoError?)
  }

  lemma {:induction false} ShutLoopTold(s: Io, how: ShutHow, p: ShutPhase)
    requires p.Shut1? || p.Shut2?
    ensures var r := ShutLoop(s, how, p);
            && r.io.ssl.log.Then? && r.io.ssl.log.last.ShutdownCall?
            && var last := r.io.ssl.log.last;
               && (r.phase.ShutSuccess? <==> last.ret == 1 || (last.ret == 0 && last.err.NoError? && how.OneWay?))
               && (r.phase.ShutFailed? <==> last.err.IsFatal()) && r.err == last.err
               && (last.err.NoError? ==> r.phase.ShutSuccess?)
    decreases |s.ssl.script|
  {
    hide Shutdown;
    var (ssl, ret, stalled, e) := Shutdown(s.ssl);
    if ret == 0 && !stalled && how.TwoWay? {
      ShutLoopTold(s.(ssl := ssl), how, Shut2);
    }
  }

  lemma ShutdownWatches(s: Io, how: ShutHow, p: ShutPhase)
    requires WatchCoherent(s) && (p.Shut1? || p.Shut2?)
    ensures var r := DoShutdown(s, how, p);
            && r.io.ssl.log.Then? && r.io.ssl.log.last.ShutdownCall?
            && var last := r.io.ssl.log.last;
               && ShutToldBy(r, how, last.ret, last.err) && (last.err.NoError? ==> r.phase.ShutSuccess?)
               && (last.err == SslWantRead ==> r.io.registered == {IoIn})
               && (last.err == SslWantWrite ==> r.io.registered == {IoOut})
               && (last.err != SslWantRead && last.err != SslWantWrite ==> r.io.registered == {} && !r.io.timer)
  {
    hide ShutLoop;
    ShutLoopTold(s, how, p);
    ShutLoopFrame(s, how, p);
  }

  lemma {:induction false} ShutLoopFrame(s: Io, how: ShutHow, p: ShutPhase)
    ensures var t := ShutLoop(s, how, p).io; t == s.(ssl := t.ssl)
    decreases |s.ssl.script|
  {
    hide Shutdown;
    var (ssl, ret, stalled, e) := Shutdown(s.ssl);
    if ret == 0 && !stalled && how.TwoWay? {
      ShutLoopFrame(s.(ssl := ssl), how, Shut2);
    }
  }

  /** A read limited to what is there gives all that was asked for, or the input has failed. */
  lemma LimitedReadGives(s: Io, n: nat)
    requires s.inState.Idle? && n <= BytesReady(s)
    ensures var o := HandleRead(s, n); |o.data| == (if n <= INT_MAX then n else INT_MAX) || o.io.inState.Failed?
  {
    hide Receive, ProcessDeferred;
    if n > 0 {
      ReceiveWithinPending(s.ssl, s.heldByte, Min(n, INT_MAX) - |s.Held()|);
    }
  }

  /** Waiting for the client: over when no renegotiation is pending any more, or by a failure of the peek. */
  lemma WaitWatches(s: Io)
    requires WatchCoherent(s)
    ensures var h := WaitHandshake(s); var log := h.io.ssl.log;
            && log.Then? && log.last.RenegotiatePendingCall?
            && if log.before == s.ssl.log then !log.last.yes && h.done && h.err.NoError?
               else
                 && log.before.Then? && log.before.last.PeekCall?
                 && var peek := log.before.last.err;
                    && (h.done <==> !log.last.yes || peek.IsFatal())
                    && (h.done ==> h.err == if log.last.yes then peek else NoError)
                    && (!h.done ==> h.io.registered == (if peek == SslWantWrite then {IoOut} else {IoIn}))
  {
    hide RenegotiatePending, Peek;
    var (ssl1, pending1) := RenegotiatePending(s.ssl);
    assert ssl1.log == Then(s.ssl.log, RenegotiatePendingCall(pending1));
    if pending1 {
      var (ssl2, e) := Peek(ssl1);
      var (ssl3, pending3) := RenegotiatePending(ssl2);
      assert ssl3.log == Then(Then(ssl1.log, PeekCall(e)), RenegotiatePendingCall(pending3));
      assert Extends(s.ssl.log, ssl1.log);
      assert Extends(s.ssl.log, Then(ssl1.log, PeekCall(e)));
      ExtendsSize(s.ssl.log, ssl3.log.before);
      ExtendsSize(s.ssl.log, ssl1.log);
    }
  }

  // ---------------------------------------------------------------------------------------
  // What the other calls leave as it was told
  // ---------------------------------------------------------------------------------------

  lemma ControlTold(s: Io, t: Io, calls: nat)
    requires Told(s) && ControlStep(s, t, calls)
    ensures Told(t)
  {
  }

  lemma WatchTold(s: Io, t: Io)
    requires Told(s) && t.ssl == s.ssl && t.outState == s.outState && (t.inState == s.inState || !Pending(t.inState))
    ensures Told(t)
  {
  }

  lemma {:induction false} ShutLoopAnswers(s: Io, how: ShutHow, p: ShutPhase)
    ensures SameAnswers(s.ssl.log, ShutLoop(s, how, p).io.ssl.log)
    decreases |s.ssl.script|
  {
    hide Shutdown;
    var (ssl, ret, stalled, e) := Shutdown(s.ssl);
    if ret == 0 && !stalled && how.TwoWay? {
      ShutLoopAnswers(s.(ssl := ssl), how, Shut2);
    }
  }

  lemma {:induction false} ShutLoopExtends(s: Io, how: ShutHow, p: ShutPhase)
    ensures Extends(s.ssl.log, ShutLoop(s, how, p).io.ssl.log)
    decreases |s.ssl.script|
  {
    hide Shutdown;
    var (ssl, ret, stalled, e) := Shutdown(s.ssl);
    assert Extends(s.ssl.log, ssl.log);
    if ret == 0 && !stalled && how.TwoWay? {
      ShutLoopExtends(s.(ssl := ssl), how, Shut2);
      ExtendsOn(s.ssl.log, ssl.log, ShutLoop(s.(ssl := ssl), how, Shut2).io.ssl.log);
    }
  }

  lemma ShutdownExtends(s: Io, how: ShutHow, p: ShutPhase)
    ensures Extends(s.ssl.log, DoShutdown(s, how, p).io.ssl.log)
  {
    hide ShutLoop;
    ShutLoopExtends(s, how, p);
  }

  lemma ShutdownTold(s: Io, how: ShutHow, p: ShutPhase)
    requires Told(s)
    ensures Told(DoShutdown(s, how, p).io)
  {
    hide ShutLoop;
    ShutLoopAnswers(s, how, p);
    ShutLoopFrame(s, how, p);
  }

  /** With nothing waiting there is nothing to do. */
  lemma NothingDeferred(s: Io)
    requires !Pending(s.inState) && !Pending(s.outState)
    ensures ProcessDeferred(ResetWatch(s), Unknown, {}) == ResetWatch(s)
  {
  }

  // ---------------------------------------------------------------------------------------
  // The phases of a renegotiation
  // ---------------------------------------------------------------------------------------

  /** While output waits no renegotiation starts. */
  lemma RenegotiationHeld(s: Io, r: Reneg)
    requires (r.phase.RenegInit? || r.phase.RenegFlushOut?) && Pending(s.outState)
    ensures var (t, r') := DoRenegotiate(s, r);
            t.ssl == s.ssl && r' == r.(phase := RenegFlushOut)
            && (r.phase.RenegInit? ==> t.registered == {} && !t.timer)
  {
  }

  /** What a handshake phase does when nothing waits to be read: the handshake, or waiting for the client. */
  lemma HandshakePhaseGoes(s: Io, r: Reneg)
    requires r.phase.RenegHandshake?
    ensures var (t, r') := RenegShake(s, r);
            if BytesReady(s) > 0 then t.ssl == s.ssl && r' == r && t.registered == {} && !t.timer
            else
              var h := if r.server && r.waitForClient then WaitHandshake(s) else DoHandshake(s);
              t == h.io && (if h.done then r'.phase.RenegDone? && r'.err == h.err else r' == r)
  {
    hide WaitHandshake, DoHandshake;
  }

  /**
   A client, and a server that does not wait for the client: once the output does not wait
   SSL_renegotiate is called, and the client goes on with the handshake unless octets wait to be
   read.  An earlier error ends it.
   */
  lemma RenegotiationStarts(s: Io, r: Reneg)
    requires (r.phase.RenegInit? || r.phase.RenegFlushOut?) && !Pending(s.outState)
    ensures var (t, r') := DoRenegotiate(s, r); var first := FirstSince(s.ssl.log, t.ssl.log);
            && first.Some? && first.value.RenegotiateCall?
            && (!r.err.NoError? ==> r'.phase.RenegDone? && t.ssl.log == Then(s.ssl.log, first.value)
                                    && (r'.err.NoError? <==> first.value.ok))
            && (r.err.NoError? && !r.server && BytesReady(s) > 0 ==>
                  r'.phase.RenegHandshake? && t.ssl.log == Then(s.ssl.log, first.value) && t.registered == {})
            && (r.err.NoError? && !r.server && BytesReady(s) == 0 ==> HandshakeEnds(t, r'))
  {
    hide Renegotiate, DoHandshake, WaitHandshake, HandshakeEnds;
    var (s0, r0) := if r.phase.RenegInit? then (ResetWatch(s), r.(phase := RenegFlushOut)) else (s, r);
    var (ssl, e) := Renegotiate(s0.ssl);
    RenegotiateLogs(s0.ssl);
    var s1 := s0.(ssl := ssl);
    assert Extends(s.ssl.log, ssl.log) && ssl.log != s.ssl.log && FirstSince(s.ssl.log, ssl.log) == Some(ssl.log.last);
    if r.err.NoError? {
      var (s2, r2) := RenegFlush(s0, r0);
      LaterPhasesExtend(s2, r2);
      var (s3, r3) := RenegHello(s2, r2);
      ExtendsOn(s.ssl.log, ssl.log, RenegShake(s3, r3).0.ssl.log);
      if !r.server && BytesReady(s) == 0 {
        HandshakeOnce(s2, r2);
      }
    }
  }

  /** What follows the call is what the phase it leads to does: a server asks for a hello, a client shakes hands. */
  lemma RenegotiationStartsAs(s: Io, r: Reneg)
    requires (r.phase.RenegInit? || r.phase.RenegFlushOut?) && !Pending(s.outState) && r.err.NoError?
    ensures var s0 := if r.phase.RenegInit? then s.(lastCond := {}, registered := {}, timer := false) else s;
            var (ssl, e) := Renegotiate(s.ssl);
            DoRenegotiate(s, r)
              == DoRenegotiate(s0.(ssl := ssl),
                               r.(phase := if r.server then RenegRequestHello else RenegHandshake, err := e))
  {
    hide Renegotiate, DoHandshake, WaitHandshake;
  }

  lemma RenegotiateLogs(ssl: Ssl)
    ensures var (ssl', e) := Renegotiate(ssl);
            ssl'.log == Then(ssl.log, RenegotiateCall(e.NoError?)) && ssl'.pending == ssl.pending
  {
  }

  lemma HandshakeLogs(s: Io)
    ensures var t := DoHandshake(s).io; Extends(s.ssl.log, t.ssl.log)
  {
    hide Handshake;
    assert Handshake(s.ssl).0.log == Then(s.ssl.log, HandshakeCall(Handshake(s.ssl).1));
  }

  lemma WaitLogs(s: Io)
    ensures Extends(s.ssl.log, WaitHandshake(s).io.ssl.log)
  {
    hide RenegotiatePending, Peek;
    var (ssl1, pending1) := RenegotiatePending(s.ssl);
    assert Extends(s.ssl.log, ssl1.log);
    if pending1 {
      var (ssl2, e) := Peek(ssl1);
      var (ssl3, pending3) := RenegotiatePending(ssl2);
      assert Extends(s.ssl.log, ssl2.log);
      assert Extends(s.ssl.log, ssl3.log);
    }
  }

  lemma LaterPhasesExtend(s: Io, r: Reneg)
    ensures var (t, r1) := RenegHello(s, r);
            Extends(s.ssl.log, t.ssl.log) && Extends(s.ssl.log, RenegShake(t, r1).0.ssl.log)
  {
    hide DoHandshake, WaitHandshake;
    var (t, r1) := RenegHello(s, r);
    HandshakeLogs(s);
    HandshakeLogs(t);
    WaitLogs(t);
    ExtendsOn(s.ssl.log, t.ssl.log, RenegShake(t, r1).0.ssl.log);
  }

  /** A handshake call was last: it ended the renegotiation with its error, or the watch waits for what it asked for. */
  predicate HandshakeEnds(t: Io, r: Reneg) {
    && t.ssl.log.Then? && t.ssl.log.last.HandshakeCall?
    && var err := t.ssl.log.last.err;
       && (r.phase.RenegDone? <==> err != SslWantRead && err != SslWantWrite) && (r.phase.RenegDone? ==> r.err == err)
       && (err == SslWantRead ==> t.lastCond == {IoIn}) && (err == SslWantWrite ==> t.lastCond == {IoOut})
  }

  lemma HandshakeOnce(s: Io, r: Reneg)
    requires r.phase.RenegHandshake? && BytesReady(s) == 0 && !(r.server && r.waitForClient)
    ensures var (t, r') := RenegShake(s, r);
            HandshakeEnds(t, r') && t.ssl.log.before == s.ssl.log && (!r'.phase.RenegDone? ==> r' == r)
  {
    hide Handshake;
    assert Handshake(s.ssl).0.log == Then(s.ssl.log, HandshakeCall(Handshake(s.ssl).1));
  }

  /** A server asks for the client's hello by a handshake call of its own. */
  lemma HelloGoes(s: Io, r: Reneg)
    requires r.phase.RenegRequestHello?
    ensures var (t, r') := RenegHello(s, r);
            && t.ssl.log.Then? && t.ssl.log.before == s.ssl.log && t.ssl.log.last.HandshakeCall?
            && var err := t.ssl.log.last.err;
               && (err.IsDeferral() ==> r' == r && t.lastCond == if err.SslWantRead? then {IoIn} else {IoOut})
               && (err.IsFatal() || (err.NoError? && !r.waitForClient) ==> r' == r.(phase := RenegDone, err := err))
               && (err.NoError? && r.waitForClient ==> r' == r.(phase := RenegHandshake) && t.lastCond == {IoIn})
  {
    hide Handshake;
    assert Handshake(s.ssl).0.log == Then(s.ssl.log, HandshakeCall(Handshake(s.ssl).1));
  }

  /** The phases after the flush, each going on to the next. */
  lemma RenegotiationGoesOn(s: Io, r: Reneg)
    ensures r.phase.RenegRequestHello? ==>
              var (t, r1) := RenegHello(s, r);
              DoRenegotiate(s, r) == if r1.phase.RenegHandshake? then RenegShake(t, r1) else (t, r1)
    ensures r.phase.RenegHandshake? ==> DoRenegotiate(s, r) == RenegShake(s, r)
    ensures r.phase.RenegDone? ==> DoRenegotiate(s, r) == (s, r)
  {
    hide DoHandshake, WaitHandshake;
  }

  // ---------------------------------------------------------------------------------------
  // The last SSL_shutdown
  // ---------------------------------------------------------------------------------------

  /** The calls up to the last SSL_shutdown. */
  function LastShutdown(log: Log): (l: Log)
    ensures l.Then? ==> l.last.ShutdownCall?
  {
    match log
    case NoCalls => NoCalls
    case Then(before, call) => if call.ShutdownCall? then log else LastShutdown(before)
  }

  /** An SSL_shutdown is among the calls made since `calls`. */
  predicate ShutdownMade(calls: Log, log: Log) {
    Size(calls) < Size(LastShutdown(log))
  }

  lemma {:induction false} ShutLoopGrows(s: Io, how: ShutHow, p: ShutPhase)
    ensures Size(s.ssl.log) < Size(ShutLoop(s, how, p).io.ssl.log)
    decreases |s.ssl.script|
  {
    hide Shutdown;
    var (ssl, ret, stalled, e) := Shutdown(s.ssl);
    assert ssl.log.Then? && ssl.log.before == s.ssl.log;
    if ret == 0 && !stalled && how.TwoWay? {
      ShutLoopGrows(s.(ssl := ssl), how, Shut2);
    }
  }

  lemma ShutdownGrows(s: Io, how: ShutHow, p: ShutPhase)
    ensures Size(s.ssl.log) < Size(DoShutdown(s, how, p).io.ssl.log)
  {
    hide ShutLoop;
    ShutLoopGrows(s, how, p);
  }

  lemma {:induction false} SendShutsNothing(ssl: Ssl, src: seq<byte>, max: nat)
    requires 0 < max
    ensures LastShutdown(Send(ssl, src, max).ssl.log) == LastShutdown(ssl.log)
    decreases |src|
  {
    hide Write;
    if src != [] {
      var (ssl', n, e) := Write(ssl, src[..Min(|src|, max)]);
      if e.NoError? {
        SendShutsNothing(ssl', src[n..], max);
      }
    }
  }

  lemma {:induction false} ReceiveShutsNothing(ssl: Ssl, through: byte, cnt: nat)
    ensures LastShutdown(Receive(ssl, through, cnt).ssl.log) == LastShutdown(ssl.log)
    decreases cnt
  {
    hide Read;
    if cnt != 0 {
      var direct := ssl.pending > 0;
      var (ssl', data, e) := Read(ssl, if direct then Min(cnt, ssl.pending) else 1);
      if e.NoError? {
        ReceiveShutsNothing(ssl', if direct then through else data[0], cnt - |data|);
      }
    }
  }

  lemma FlushShutsNothing(s: Io)
    ensures LastShutdown(Flush(s).ssl.log) == LastShutdown(s.ssl.log)
  {
    hide Send;
    if s.outBuf != [] {
      SendShutsNothing(s.ssl, s.outBuf, |s.outBuf|);
    }
  }

  lemma ReadStepShutsNothing(s: Io, mayRead: bool)
    ensures LastShutdown(ReadStep(s, mayRead).ssl.log) == LastShutdown(s.ssl.log)
  {
    hide Flush, HoldByte, Receive;
    ReceiveShutsNothing(s.ssl, s.heldByte, 1);
    HoldByteIs(s, false);
    HoldByteIs(s, true);
    FlushShutsNothing(HoldByte(s, true));
  }

  lemma DeferredShutsNothing(s: Io, hint: Hint, revents: GioCond)
    ensures LastShutdown(ProcessDeferred(s, hint, revents).ssl.log) == LastShutdown(s.ssl.log)
  {
    hide Flush, ReadStep, Finish;
    FlushShutsNothing(s);
    var wrote := WriteDue(s, hint, revents);
    var t := if wrote then Flush(s) else s;
    ReadStepShutsNothing(t, wrote || hint.AfterWrite? || Readable(revents));
    FinishKeeps(Settle(s, hint, revents), revents);
  }

  lemma DeferredKeepsIdle(s: Io)
    requires s.outState.Idle?
    ensures ProcessDeferred(s, Unknown, {}).outState.Idle?
  {
    hide ReadStep, Finish;
    ReadStepKeepsIdle(s, Readable({}));
    FinishKeeps(Settle(s, Unknown, {}), {});
  }
}
