/** What the READ, WRITE, shutdown and renegotiation steps of the crypto states guarantee. */
module CryptoEventProofs {
  import opened Common
  import opened SslOracle
  import opened DeferredIo
  import opened DeferredIoProofs

  /** What every step keeps between two states of the same connection. */
  ghost predicate Kept(s: Io, t: Io) {
    && Sound(t) && ErrorsKept(s, t) && t.timer == s.timer
    && BeforeClose(t.ssl.log) == BeforeClose(s.ssl.log) && t.ssl.sent == s.ssl.sent
    && (WatchCoherent(s) ==> WatchCoherent(t))
    && (WatchExact(s) && NoCrossedWaits(s) ==> WatchExact(t) && NoCrossedWaits(t))
  }

  // ---------------------------------------------------------------------------------------
  // READ
  // ---------------------------------------------------------------------------------------

  /** Data was delivered, or the state of the input says why not. */
  predicate ReadTells(o: ReadOutcome, nothingAsked: bool) {
    && (o.status.StatusNormal? <==> o.data != [] || nothingAsked)
    && (o.status.StatusAgain? ==> Pending(o.io.inState))
    && (o.status.StatusEof? ==> o.io.inState.Failed? && o.io.inErr.SslCleanEof?)
    && (o.status.StatusError? ==> o.io.inState.Failed? && !o.io.inErr.SslCleanEof?)
  }

  /** A receive as the lemmas above describe it. */
  ghost predicate Delivers(ssl: Ssl, r: ReceiveResult) {
    && Produced(r.ssl.log) == Produced(ssl.log) + r.data
    && Disciplined(r.ssl.log) && Taken(r.ssl.log) == Taken(ssl.log) && Unfinished(r.ssl.log) == Unfinished(ssl.log)
    && BeforeClose(r.ssl.log) == BeforeClose(ssl.log) && r.ssl.sent == ssl.sent
  }

  lemma ReceiveDoes(ssl: Ssl, through: byte, cnt: nat)
    requires Disciplined(ssl.log)
    ensures Delivers(ssl, Receive(ssl, through, cnt))
  {
    ReceiveDelivers(ssl, through, cnt);
    ReceiveIsDisciplined(ssl, through, cnt);
  }

  lemma HandedOutput(s: Io, r: ReceiveResult)
    requires OutputSound(s) && CloseSound(s) && Delivers(s.ssl, r)
    ensures OutputSound(Handed(s, r)) && CloseSound(Handed(s, r))
  {
    hide Produced, Disciplined, Taken, Unfinished, BeforeClose;
  }

  lemma HandedInput(s: Io, r: ReceiveResult)
    requires InputSound(s) && s.inState.Idle? && Delivers(s.ssl, r)
    ensures InputSound(Handed(s, r)) && !Handed(s, r).held
  {
    hide Produced, Disciplined, Taken, Unfinished, BeforeClose;
    ConcatAssociates(s.given, s.Held(), r.data);
    assert Handed(s, r).Held() == [];
    assert Handed(s, r).given + [] == s.given + (s.Held() + r.data);
  }

  lemma HandedFrame(s: Io, r: ReceiveResult)
    ensures var t := Handed(s, r);
            && t.outState == s.outState && t.outErr == s.outErr && t.ssl == r.ssl
            && t.lastCond == s.lastCond && t.registered == s.registered && t.timer == s.timer
               && t.accepted == s.accepted
  {
  }

  lemma HandedIsSound(s: Io, r: ReceiveResult)
    requires Sound(s) && s.inState.Idle? && Delivers(s.ssl, r)
    ensures var t := Handed(s, r);
            && Sound(t) && t.outState == s.outState && t.outErr == s.outErr && !t.held
            && t.lastCond == s.lastCond && t.registered == s.registered && t.timer == s.timer
               && t.accepted == s.accepted
            && BeforeClose(t.ssl.log) == BeforeClose(s.ssl.log) && t.ssl.sent == s.ssl.sent
  {
    hide Handed, OutputSound, InputSound, CloseSound;
    HandedOutput(s, r);
    HandedInput(s, r);
    HandedFrame(s, r);
  }

  lemma WaitingAfterRead(s: Io)
    requires !s.inState.Failed?
    ensures Settle(s, AfterRead, {}) == if Pending(s.outState) then s.(outState := WaitWrite) else s
  {
  }

  /** The transfer with the processing after it. */
  lemma ReadDoneIsSound(s: Io, r: ReceiveResult)
    requires Sound(s) && s.inState.Idle? && Delivers(s.ssl, r)
    requires r.err.IsDeferral() ==> r.ioAttempted
    ensures var o := ReadDone(s, r);
            && Kept(s, o.io) && o.io.given == s.given + o.data && o.io.accepted == s.accepted
            && (!Pending(s.outState) ==> !Pending(o.io.outState))
  {
    HandedIsSound(s, r);
    var t := Handed(s, r);
    if r.ioAttempted {
      ProcessDeferredIsSound(t, AfterRead, {});
    }
  }

  lemma NothingRead(s: Io, cnt: nat)
    requires Sound(s) && (cnt == 0 || !s.inState.Idle?)
    ensures HandleRead(s, cnt).io == s && HandleRead(s, cnt).data == [] && Kept(s, s)
  {
  }

  ghost predicate ReadKeeps(s: Io, o: ReadOutcome, most: nat) {
    && Kept(s, o.io) && |o.data| <= most
    && o.io.given == s.given + o.data && o.io.accepted == s.accepted
    && (!Pending(s.outState) ==> !Pending(o.io.outState))
  }

  lemma ReadFromIsSound(s: Io, n: nat)
    requires Sound(s) && s.inState.Idle?
    ensures ReadKeeps(s, ReadFrom(s, n), n + |s.Held()|)
  {
    var r := Receive(s.ssl, s.heldByte, n);
    ReceiveDoes(s.ssl, s.heldByte, n);
    ReadDoneIsSound(s, r);
    assert ReadDone(s, r).data == s.Held() + r.data;
  }

  /** The user gets the octets that were read, in order and once. */
  lemma ReadIsSound(s: Io, cnt: nat)
    requires Sound(s)
    ensures ReadKeeps(s, HandleRead(s, cnt), cnt)
  {
    if cnt == 0 || !s.inState.Idle? {
      NothingRead(s, cnt);
    } else {
      var n := Min(cnt, INT_MAX) - |s.Held()|;
      ReadFromIsSound(s, n);
      assert HandleRead(s, cnt) == ReadFrom(s, n);
    }
  }

  lemma AfterReadKeepsCause(s: Io)
    requires Sound(s)
    ensures var t := ProcessDeferred(s, AfterRead, {});
            t.inState == s.inState && (s.inState.Failed? ==> t.inErr == s.inErr)
  {
    if s.inState.Failed? {
      ProcessDeferredIsSound(s, AfterRead, {});
    } else {
      WaitingAfterRead(s);
    }
  }

  lemma ReadDoneTells(s: Io, r: ReceiveResult)
    requires Sound(s) && s.inState.Idle? && Delivers(s.ssl, r)
    requires r.err.NoError? ==> s.Held() + r.data != []
    requires r.err.IsDeferral() ==> r.ioAttempted
    ensures ReadTells(ReadDone(s, r), false)
  {
    HandedIsSound(s, r);
    if r.ioAttempted {
      AfterReadKeepsCause(Handed(s, r));
    }
  }

  lemma ReadFromTells(s: Io, n: nat)
    requires Sound(s) && s.inState.Idle? && n + |s.Held()| > 0
    ensures ReadTells(ReadFrom(s, n), false)
  {
    ReceiveDoes(s.ssl, s.heldByte, n);
    ReadDoneTells(s, Receive(s.ssl, s.heldByte, n));
  }

  /** The status of a read says whether octets were given and otherwise what state the input is in. */
  lemma ReadStatusTells(s: Io, cnt: nat)
    requires Sound(s)
    ensures ReadTells(HandleRead(s, cnt), cnt == 0)
  {
    hide ReadFrom;
    if cnt > 0 && s.inState.Idle? {
      var n := Min(cnt, INT_MAX) - |s.Held()|;
      ReadFromTells(s, n);
      assert HandleRead(s, cnt) == ReadFrom(s, n);
    }
  }

  /** A read of no more than is pending or held: no transport I/O, and the input never waits. */
  ghost predicate NoTransport(s: Io, t: Io) {
    && OnlyPendingReads(s.ssl.log, t.ssl.log)
    && !Pending(t.inState) && BytesReady(t) <= BytesReady(s)
    && t.lastCond == s.lastCond && t.registered == s.registered && t.timer == s.timer
    && t.outState == s.outState && t.outErr == s.outErr && t.outBuf == s.outBuf
  }

  lemma HandedNoTransport(s: Io, r: ReceiveResult)
    requires !Pending(s.inState) && !r.err.IsDeferral() && OnlyPendingReads(s.ssl.log, r.ssl.log)
    requires r.ssl.pending <= s.ssl.pending
    ensures NoTransport(s, Handed(s, r))
  {
  }

  lemma ReadWithinReady(s: Io, n: nat)
    requires !Pending(s.inState) && n <= s.ssl.pending
    ensures NoTransport(s, ReadFrom(s, n).io)
  {
    var r := Receive(s.ssl, s.heldByte, n);
    ReceiveWithinPending(s.ssl, s.heldByte, n);
    HandedNoTransport(s, r);
    assert ReadDone(s, r).io == Handed(s, r);
  }

  /** While renegotiating, a read is limited to what is ready: it does no transport I/O at all. */
  lemma LimitedReadNoTransport(s: Io, cnt: nat)
    requires !Pending(s.inState) && cnt <= BytesReady(s)
    ensures NoTransport(s, HandleRead(s, cnt).io)
  {
    hide ReadFrom;
    if cnt > 0 && s.inState.Idle? {
      var n := Min(cnt, INT_MAX) - |s.Held()|;
      ReadWithinReady(s, n);
      assert HandleRead(s, cnt) == ReadFrom(s, n);
    }
  }

  // ---------------------------------------------------------------------------------------
  // WRITE
  // ---------------------------------------------------------------------------------------

  /** A send of `src` in pieces that fit the output buffer. */
  ghost predicate Sends(ssl: Ssl, src: seq<byte>, r: SendResult) {
    && r.numWritten + r.deferredCnt <= |src| && r.deferredCnt <= MAX_IO_BUF_SIZE
    && (r.deferredCnt > 0 <==> r.err.IsDeferral()) && (r.err.NoError? ==> r.numWritten == |src|)
    && Taken(r.ssl.log) == Taken(ssl.log) + src[..r.numWritten]
    && Unfinished(r.ssl.log) == (
         if r.err.IsDeferral() then Some(src[r.numWritten..r.numWritten + r.deferredCnt]) else None)
    && Disciplined(r.ssl.log) && Produced(r.ssl.log) == Produced(ssl.log)
    && BeforeClose(r.ssl.log) == BeforeClose(ssl.log) && r.ssl.sent == ssl.sent
  }

  lemma SendDoes(ssl: Ssl, src: seq<byte>)
    requires src != [] && Disciplined(ssl.log) && Unfinished(ssl.log).None?
    ensures Sends(ssl, src, Send(ssl, src, MAX_IO_BUF_SIZE))
  {
    SendTakesPrefix(ssl, src, MAX_IO_BUF_SIZE);
    SendLeavesUnfinished(ssl, src, MAX_IO_BUF_SIZE);
    SendIsDisciplined(ssl, src, MAX_IO_BUF_SIZE);
  }

  lemma TakenOverOutput(s: Io, src: seq<byte>, r: SendResult)
    requires Sound(s) && s.outState.Idle? && Sends(s.ssl, src, r)
    ensures OutputSound(TakenOver(s, src, r))
  {
    var k, total := r.numWritten, r.numWritten + r.deferredCnt;
    assert src[..total] == src[..k] + src[k..total];
    ConcatAssociates(Taken(s.ssl.log), src[..k], src[k..total]);
    assert s.accepted == Taken(s.ssl.log);
  }

  lemma TakenOverIsSound(s: Io, src: seq<byte>, r: SendResult)
    requires Sound(s) && s.outState.Idle? && Sends(s.ssl, src, r) && BeforeClose(s.ssl.log).None?
    ensures Sound(TakenOver(s, src, r)) && ErrorsKept(s, TakenOver(s, src, r))
  {
    TakenOverOutput(s, src, r);
  }

  /** Octets `buf[..numWritten]` are taken over, in order; the status tells why none were. */
  ghost predicate WriteKeeps(s: Io, o: WriteOutcome, buf: seq<byte>) {
    && Kept(s, o.io) && o.numWritten <= |buf|
    && o.io.accepted == s.accepted + buf[..o.numWritten] && o.io.given == s.given
    && (o.status.StatusNormal? <==> !s.outState.Failed? && (o.numWritten > 0 || buf == []))
    && (o.status.StatusAgain? <==> Pending(s.outState) && buf != [])
    && (o.status.StatusError? ==> o.io.outState.Failed?)
    && !o.status.StatusEof?
  }

  lemma WriteDoneIsSound(s: Io, src: seq<byte>, r: SendResult)
    requires Sound(s) && s.outState.Idle? && src != [] && Sends(s.ssl, src, r) && BeforeClose(s.ssl.log).None?
    ensures WriteKeeps(s, WriteDone(s, src, r), src)
  {
    var t := TakenOver(s, src, r);
    TakenOverIsSound(s, src, r);
    ProcessDeferredIsSound(t, AfterWrite, {});
  }

  lemma WritePrefix(s: Io, o: WriteOutcome, buf: seq<byte>, n: nat)
    requires n <= |buf| && WriteKeeps(s, o, buf[..n]) && (n == 0 ==> buf == [])
    ensures WriteKeeps(s, o, buf)
  {
    assert buf[..n][..o.numWritten] == buf[..o.numWritten];
    if buf != [] {
      assert buf[..n] != [];
    }
  }

  lemma NothingWritten(s: Io, buf: seq<byte>)
    requires Sound(s) && (buf == [] || !s.outState.Idle?)
    ensures WriteKeeps(s, HandleWrite(s, buf), buf)
  {
    assert s.accepted + buf[..0] == s.accepted;
  }

  /** Every octet reported as written was accepted, once and in order, whatever SSL_write answered. */
  lemma WriteIsSound(s: Io, buf: seq<byte>)
    requires Sound(s) && BeforeClose(s.ssl.log).None?
    ensures WriteKeeps(s, HandleWrite(s, buf), buf)
  {
    if buf == [] || !s.outState.Idle? {
      NothingWritten(s, buf);
    } else {
      var n := Min(|buf|, INT_MAX);
      var src := buf[..n];
      var r := Send(s.ssl, src, MAX_IO_BUF_SIZE);
      SendDoes(s.ssl, src);
      WriteDoneIsSound(s, src, r);
      assert HandleWrite(s, buf) == WriteDone(s, src, r);
      WritePrefix(s, HandleWrite(s, buf), buf, n);
    }
  }
}
