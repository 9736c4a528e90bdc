/**
 The deferred I/O as the source runs it: fields updated in place, the transfer loops and the
 nested loops of the deferred processing.  Every method is proved against the function of the
 same purpose in DeferredIo.  The library's assertions appear as `assert` statements.
 */
module DeferredIoEngine {
  import opened Common
  import opened IoBuffer
  import opened MultiFdWatch
  import opened SslOracle
  import opened DeferredIo
  import opened DeferredIoProofs

  /** What the library's assertions about the I/O state amount to. */
  predicate Healthy(s: Io) {
    && HasOutput(s) && (s.held ==> s.inState.Idle?) && (s.outState.Idle? ==> s.outBuf == [])
    && (s.inState.Failed? ==> s.inErr.IsFatal()) && (s.outState.Failed? ==> s.outErr.IsFatal())
  }

  /** The invariant covers the assertions: none of them can fail. */
  lemma SoundIsHealthy(s: Io)
    requires Sound(s)
    ensures Healthy(s)
  {
  }

  /** What one write step does to the state, to `freshIn` and to the hint. */
  predicate WriteRound(s: Io, hint: Hint, revents: GioCond, freshIn: bool, t: Io, freshIn': bool, hint': Hint) {
    if hint.AfterRead? && !s.inState.Failed? then
      t == s.(outState := WaitWrite) && freshIn' == freshIn && hint' == hint
    else if hint.Unknown? && !Writable(revents) then
      t == s && freshIn' == freshIn && hint' == hint
    else
      t == Flush(s) && freshIn' == !Pending(t.inState) && hint' == AfterWrite
  }

  /** What one read step does. */
  predicate ReadRound(s: Io, hint: Hint, revents: GioCond, t: Io, freshOut: bool, hint': Hint) {
    if s.ssl.pending > 0 then
      t == HoldByte(s, false) && freshOut
    else if s.outState.WaitRead? then
      t == s.(inState := WaitRead) && freshOut
    else if hint.Unknown? && !Readable(revents) then
      t == s && freshOut
    else
      t == HoldByte(s, true) && hint' == AfterRead && freshOut == (!Pending(t.outState) || Pending(t.inState))
  }

  /** The nested loops after `rounds` rounds that started from `s` and are at `t`. */
  predicate AtRound(
    rounds: nat, s: Io, hint0: Hint, revents: GioCond, t: Io, hint: Hint, freshIn: bool, freshOut: bool)
  {
    && HasOutput(s) && HasOutput(t) && rounds <= 2
    && (rounds == 0 ==>
         && t == s && hint == hint0
         && freshIn == (hint.AfterRead? || !Pending(t.inState))
            && freshOut == (hint.AfterWrite? || !Pending(t.outState)))
    && (rounds > 0 ==> freshIn)
    && (rounds == 1 && !freshOut ==>
         && hint.AfterRead? && t.outState.WaitWrite? && !Pending(t.inState)
         && Settle(s, hint0, revents) == if t.inState.Failed? then Flush(t) else t)
    && (rounds == 2 ==> freshOut)
    && (rounds > 0 && freshOut ==> t == Settle(s, hint0, revents))
  }

  /** What a refused flush leaves is still there to write. */
  lemma FlushHasOutput(s: Io)
    requires s.outBuf != []
    ensures HasOutput(Flush(s))
  {
    hide Send;
  }

  /** The first round's steps, made when they are due, lead to the first round's end. */
  lemma FirstRound(
    s: Io, hint: Hint, revents: GioCond,
    s1: Io, freshIn1: bool, hint1: Hint, s2: Io, freshOut2: bool, hint2: Hint)
    requires HasOutput(s)
    requires if !hint.AfterWrite? && Pending(s.outState) then
               WriteRound(s, hint, revents, hint.AfterRead? || !Pending(s.inState), s1, freshIn1, hint1)
             else s1 == s && freshIn1 == (hint.AfterRead? || !Pending(s.inState)) && hint1 == hint
    requires if !freshIn1 then ReadRound(s1, hint1, revents, s2, freshOut2, hint2)
             else s2 == s1 && freshOut2 && hint2 == hint1
    ensures AtRound(1, s, hint, revents, s2, hint2, true, freshOut2)
  {
    hide Flushed, Kept, Send, Receive;
    if !hint.AfterWrite? && Pending(s.outState) && hint.AfterRead? && !s.inState.Failed? {
      assert Optimistic(s, hint);
    } else {
      var wrote := WriteDue(s, hint, revents);
      if wrote {
        FlushHasOutput(s);
      }
      assert s1 == if wrote then Flush(s) else s;
    }
  }

  /** A second round only has the output to look after. */
  lemma SecondRound(s: Io, hint0: Hint, revents: GioCond, t: Io, hint: Hint, t': Io, freshIn': bool, hint': Hint)
    requires AtRound(1, s, hint0, revents, t, hint, true, false)
    requires WriteRound(t, hint, revents, true, t', freshIn', hint')
    ensures freshIn' && AtRound(2, s, hint0, revents, t', hint', true, true)
  {
    hide Kept, Send, Receive;
    if t.outBuf != [] {
      FlushHasOutput(t);
    }
  }

  /** With nothing left to look after, the loops have done what Settle says. */
  lemma RoundsEnd(rounds: nat, s: Io, hint0: Hint, revents: GioCond, t: Io, hint: Hint)
    requires AtRound(rounds, s, hint0, revents, t, hint, true, true)
    ensures t == Settle(s, hint0, revents)
  {
  }

  /** What is left to do of a send: all of `all` beyond the octets written so far, or nothing. */
  ghost predicate SendsOn(
    all: SendResult, ssl: Ssl, src: seq<byte>, max: nat, done: nat, deferred: nat, err: PslError)
  {
    && 0 < max && done <= |src|
    && if err.NoError? then
         var rest := Send(ssl, src[done..], max);
         all == SendResult(rest.ssl, done + rest.numWritten, rest.deferredCnt, rest.err)
       else all == SendResult(ssl, done, deferred, err)
  }

  /** One round of the loop of WriteLow. */
  lemma SendsOnStep(all: SendResult, ssl: Ssl, src: seq<byte>, max: nat, done: nat, req: seq<byte>)
    requires SendsOn(all, ssl, src, max, done, 0, NoError) && done < |src|
    requires req == src[done..done + Min(|src| - done, max)]
    ensures var (ssl', n, e) := Write(ssl, req);
            SendsOn(all, ssl', src, max, done + n, if e.IsDeferral() then |req| else 0, e)
  {
    var left := src[done..];
    assert req == left[..Min(|left|, max)];
    var (ssl', n, e) := Write(ssl, req);
    assert left[n..] == src[done + n..];
  }

  lemma SendsOnEnds(all: SendResult, ssl: Ssl, src: seq<byte>, max: nat, done: nat, deferred: nat, err: PslError)
    requires SendsOn(all, ssl, src, max, done, deferred, err) && (err.NoError? ==> done == |src| && deferred == 0)
    ensures all == SendResult(ssl, done, deferred, err)
  {
  }

  /** What is left to do of a receive. */
  ghost predicate ReceivesOn(
    all: ReceiveResult, ssl: Ssl, through: byte, cnt: nat, data: seq<byte>, err: PslError, attempted: bool)
  {
    && |data| <= cnt
    && if err.NoError? then
         var rest := Receive(ssl, through, cnt - |data|);
         all == ReceiveResult(rest.ssl, rest.through, data + rest.data, rest.err, attempted || rest.ioAttempted)
       else all == ReceiveResult(ssl, through, data, err, attempted)
  }

  /** One round of the loop of ReadLow. */
  lemma ReceivesOnStep(all: ReceiveResult, ssl: Ssl, through: byte, cnt: nat, data: seq<byte>, attempted: bool)
    requires ReceivesOn(all, ssl, through, cnt, data, NoError, attempted) && |data| < cnt
    ensures var direct := ssl.pending > 0;
            var (ssl', got, e) := Read(ssl, if direct then Min(cnt - |data|, ssl.pending) else 1);
            ReceivesOn(all, ssl', if direct || !e.NoError? then through else got[0], cnt, data + got, e,
                       attempted || !direct)
  {
    var direct := ssl.pending > 0;
    var (ssl', got, e) := Read(ssl, if direct then Min(cnt - |data|, ssl.pending) else 1);
    if e.NoError? {
      var rest := Receive(ssl', if direct then through else got[0], cnt - |data| - |got|);
      ConcatAssociates(data, got, rest.data);
    } else {
      assert data + got == data;
    }
  }

  lemma ReceivesOnEnds(
    all: ReceiveResult, ssl: Ssl, through: byte, cnt: nat, data: seq<byte>, err: PslError, attempted: bool)
    requires ReceivesOn(all, ssl, through, cnt, data, err, attempted) && (err.NoError? ==> |data| == cnt)
    ensures all == ReceiveResult(ssl, through, data, err, attempted)
  {
    assert data + [] == data;
  }

  class CryptoIo {
    var inState: IoState
    var inErr: PslError
    var deferredReadOneByteBuf: byte
    var deferredByteAvailable: bool
    var outState: IoState
    var outErr: PslError
    const buf: IoBuf
    const watch: MultiFdWatch
    var fd: int
    var lastCond: GioCond
    var ssl: Ssl
    ghost var accepted: seq<byte>
    ghost var given: seq<byte>

    ghost predicate Valid()
      reads this, buf, watch
    {
      buf.Valid() && buf.maxSize == MAX_IO_BUF_SIZE && watch.Valid() && watch.Only(fd)
    }

    /** The value that DeferredIo speaks of. */
    ghost function Abs(): Io
      requires Valid()
      reads this, buf, buf.storage, watch
    {
      Io(inState, inErr, deferredReadOneByteBuf, deferredByteAvailable, outState, outErr, buf.Contents(),
         ssl, lastCond, watch.Registered(fd), watch.timeoutMillisec >= 0, accepted, given)
    }

    /** Entering the crypto mode with a new SSL object. */
    constructor (fd: int, watch: MultiFdWatch, ssl: Ssl)
      requires watch.Valid() && watch.Only(fd)
      ensures Valid() && this.watch == watch && this.fd == fd && fresh(buf) && fresh(buf.storage)
      ensures Abs() == NewIo(watch.Registered(fd), watch.timeoutMillisec >= 0).(ssl := ssl)
    {
      inState, inErr, deferredReadOneByteBuf, deferredByteAvailable := Idle, NoError, 0, false;
      outState, outErr := Idle, NoError;
      buf := new IoBuf(MAX_IO_BUF_SIZE);
      this.fd, this.watch, this.ssl := fd, watch, ssl;
      lastCond := {};
      accepted, given := [], [];
    }

    /** The machine takes another descriptor; nothing is registered for the one it had. */
    method SetFd(newFd: int)
      requires Valid() && Abs().registered == {}
      modifies this`fd
      ensures Valid() && Abs() == old(Abs()) && fd == newFd
    {
      fd := newFd;
    }

    method ClearInput()
      requires Valid()
      modifies this`inState, this`inErr, this`deferredReadOneByteBuf, this`deferredByteAvailable, this`given
      ensures Valid()
      ensures Abs() == old(Abs()).(inState := Idle, inErr := NoError, heldByte := 0, held := false, given := [])
    {
      inState, inErr, deferredReadOneByteBuf, deferredByteAvailable, given := Idle, NoError, 0, false, [];
    }

    method ClearOutput()
      requires Valid()
      modifies this`outState, this`outErr, this`accepted, buf`len, buf`nextConsumeIndex
      ensures Valid() && Abs() == old(Abs()).(outState := Idle, outErr := NoError, outBuf := [], accepted := [])
    {
      outState, outErr, accepted := Idle, NoError, [];
      buf.ResetData();
    }

    /** The crypto mode is entered anew; the buffer is kept and emptied where the library takes a new one. */
    method Renew()
      requires Valid()
      modifies this`inState, this`inErr, this`deferredReadOneByteBuf, this`deferredByteAvailable, this`outState,
        this`outErr
      modifies this`ssl, this`lastCond, this`accepted, this`given, buf`len, buf`nextConsumeIndex
      ensures Valid() && Abs() == NewIo(old(Abs()).registered, old(Abs()).timer)
    {
      ClearInput();
      ClearOutput();
      ssl, lastCond := NewSsl([]), {};
    }

    /** SSL_new */
    method SetSsl(newSsl: Ssl)
      requires Valid()
      modifies this`ssl
      ensures Valid() && Abs() == old(Abs()).(ssl := newSsl)
    {
      ssl := newSsl;
    }

    /** A zero timeout: the watch calls back at once. */
    method StartTimer()
      requires Valid()
      modifies watch`restartTimer, watch`timeoutMillisec
      ensures Valid() && Abs() == old(Abs()).(timer := true)
    {
      var err := watch.SetPollTimeout(0);
    }

    /** The plain states reset and use the watch past the cached condition. */
    method ClearWatch()
      requires Valid()
      modifies watch
      ensures Valid() && Abs() == old(Abs()).(registered := {}, timer := false)
      ensures watch.descTable == map[] && watch.timeoutMillisec < 0
    {
      watch.Reset();
    }

    method WatchFd(cond: GioCond)
      requires Valid()
      modifies watch`descTable
      ensures Valid() && Abs() == old(Abs()).(registered := cond)
    {
      watch.AddOrUpdateFd(fd, cond);
    }

    /** What is watched while connecting: the descriptor, or a timer to call back at once. */
    method WatchOnly(descriptor: bool, cond: GioCond)
      requires Valid()
      modifies watch
      ensures Valid() && Abs() == if descriptor then old(Abs()).(registered := cond, timer := false)
                                  else old(Abs()).(registered := {}, timer := true)
    {
      hide Abs, Valid;
      ClearWatch();
      if descriptor {
        WatchFd(cond);
      } else {
        StartTimer();
      }
    }

    // -------------------------------------------------------------------------------------
    // Low-level transfers
    // -------------------------------------------------------------------------------------

    /** crypto_write_low */
    method WriteLow(src: seq<byte>, maxWriteCnt: nat) returns (numWritten: nat, deferredWriteCnt: nat, err: PslError)
      requires Valid() && 0 < maxWriteCnt && !outState.Failed?
      modifies this`ssl, this`outState, this`outErr
      ensures Valid()
      ensures var r := Send(old(ssl), src, maxWriteCnt);
              && r == SendResult(ssl, numWritten, deferredWriteCnt, err)
              && Abs() == Sent(old(Abs()), r)
    {
      hide Write, Send;
      numWritten, deferredWriteCnt, err := 0, 0, NoError;
      ghost var all := Send(ssl, src, maxWriteCnt);
      var remainingCnt := |src|;
      assert src[0..] == src;
      while remainingCnt > 0
        invariant Valid()
        invariant SendsOn(all, ssl, src, maxWriteCnt, numWritten, deferredWriteCnt, err)
        invariant if err.NoError? then remainingCnt == |src| - numWritten && deferredWriteCnt == 0
                  else remainingCnt == 0
        invariant err.NoError? ==> outState == old(outState) && outErr == old(outErr)
        invariant err.IsDeferral() ==> outState == StateOfDeferral(err) && outErr == old(outErr)
        invariant err.IsFatal() ==> outState == Failed && outErr == err
        decreases remainingCnt
      {
        var writeReqCnt := if remainingCnt <= maxWriteCnt then remainingCnt else maxWriteCnt;
        var req := src[numWritten..numWritten + writeReqCnt];
        SendsOnStep(all, ssl, src, maxWriteCnt, numWritten, req);
        var (ssl', n, e) := Write(ssl, req);
        ssl := ssl';
        if e.NoError? {
          numWritten := numWritten + n;
          remainingCnt := remainingCnt - n;
        } else {
          remainingCnt := 0;
          err := e;
          if e.SslWantRead? {
            outState := WaitRead;
            deferredWriteCnt := writeReqCnt;
          } else if e.SslWantWrite? {
            outState := WaitWrite;
            deferredWriteCnt := writeReqCnt;
          } else {
            outState := Failed;
            outErr := e;
          }
        }
      }
      SendsOnEnds(all, ssl, src, maxWriteCnt, numWritten, deferredWriteCnt, err);
    }

    /** crypto_read_low; the octets read are returned instead of stored through a pointer. */
    method ReadLow(cnt: nat, deferredIOAllowed: bool) returns (data: seq<byte>, err: PslError, ioAttempted: bool)
      requires Valid() && !inState.Failed?
      modifies this`ssl, this`inState, this`inErr, this`deferredReadOneByteBuf
      ensures Valid()
      ensures var r := Receive(old(ssl), old(deferredReadOneByteBuf), cnt);
              && r == ReceiveResult(ssl, deferredReadOneByteBuf, data, err, ioAttempted)
              && Abs() == Received(old(Abs()), r, deferredIOAllowed)
    {
      hide Read, Receive;
      data, err, ioAttempted := [], NoError, false;
      ghost var all := Receive(ssl, deferredReadOneByteBuf, cnt);
      assert data + all.data == all.data;
      var remainingCnt := cnt;
      while remainingCnt > 0
        invariant Valid()
        invariant ReceivesOn(all, ssl, deferredReadOneByteBuf, cnt, data, err, ioAttempted)
        invariant remainingCnt == if err.NoError? then cnt - |data| else 0
        invariant err.NoError? || (err.IsDeferral() && !(deferredIOAllowed && data == [])) ==>
          inState == old(inState) && inErr == old(inErr)
        invariant err.IsDeferral() && deferredIOAllowed && data == [] ==>
                  inState == StateOfDeferral(err) && inErr == old(inErr)
        invariant err.IsFatal() ==> inState == Failed && inErr == err
        decreases remainingCnt
      {
        ReceivesOnStep(all, ssl, deferredReadOneByteBuf, cnt, data, ioAttempted);
        var sslPendingCnt := ssl.pending;
        var e;
        var got;
        if sslPendingCnt > 0 {
          var maxRead := if remainingCnt <= sslPendingCnt then remainingCnt else sslPendingCnt;
          var (ssl', d, e') := Read(ssl, maxRead);
          ssl, got, e := ssl', d, e';
        } else {
          ioAttempted := true;
          var (ssl', d, e') := Read(ssl, 1);
          ssl, got, e := ssl', d, e';
          if e.NoError? {
            assert |d| == 1;
            deferredReadOneByteBuf := d[0];
          }
        }
        if e.NoError? {
          data := data + got;
          remainingCnt := remainingCnt - |got|;
        } else {
          assert sslPendingCnt == 0 || !e.IsDeferral();
          assert data + got == data;
          remainingCnt := 0;
          err := e;
          if e.SslWantRead? {
            if deferredIOAllowed && data == [] {
              inState := WaitRead;
            }
          } else if e.SslWantWrite? {
            if deferredIOAllowed && data == [] {
              inState := WaitWrite;
            }
          } else {
            inState := Failed;
            inErr := e;
          }
        }
      }
      ReceivesOnEnds(all, ssl, deferredReadOneByteBuf, cnt, data, err, ioAttempted);
    }

    // -------------------------------------------------------------------------------------
    // The watch wrappers
    // -------------------------------------------------------------------------------------

    /** crypto_update_multi_fd_watch_giocondition */
    method UpdateWatchCondition(cond: GioCond)
      requires Valid()
      modifies this`lastCond, watch`descTable
      ensures Valid() && Abs() == UpdateWatch(old(Abs()), cond)
    {
      if cond == lastCond {
        return;
      }
      watch.AddOrUpdateFd(fd, cond);
      lastCond := cond;
    }

    /** crypto_reset_multi_fd_watch */
    method ResetFdWatch()
      requires Valid()
      modifies this`lastCond, watch
      ensures Valid() && Abs() == ResetWatch(old(Abs()))
      ensures watch.descTable == map[] && watch.timeoutMillisec < 0
    {
      watch.Reset();
      lastCond := {};
    }

    /** crypto_schedule_deferred_ssl_io */
    method ScheduleDeferred()
      requires Valid()
      modifies this`lastCond, watch`descTable
      ensures Valid() && Abs() == Schedule(old(Abs()))
    {
      UpdateWatchCondition(CondOf(inState) + CondOf(outState));
    }

    // -------------------------------------------------------------------------------------
    // crypto_process_deferred_ssl_io
    // -------------------------------------------------------------------------------------

    /** The buffer is presented to SSL_write and drops what was taken. */
    method FlushBuffer()
      requires Valid() && Pending(outState) && buf.Contents() != []
      modifies this`ssl, this`outState, this`outErr, buf`nextConsumeIndex
      ensures Valid() && Abs() == Flush(old(Abs()))
    {
      hide Send;
      var src := buf.GetData();
      assert |src| > 0;
      var numWritten, nextDeferredWriteCnt, err := WriteLow(src, |src|);
      var remainingCnt := buf.Consume(numWritten);
      if err.NoError? {
        assert remainingCnt == 0 && outState != Failed;
        outState := Idle;
      } else if err.IsDeferral() {
        SendLeavesUnfinished(old(ssl), src, |src|);
        assert Pending(outState) && remainingCnt > 0 && nextDeferredWriteCnt == remainingCnt;
      } else {
        assert outState == Failed;
      }
    }

    /** The write step of one round. */
    method DeferredWrite(hint: Hint, revents: GioCond, freshIn: bool) returns (freshIn': bool, hint': Hint)
      requires Valid() && Pending(outState) && buf.Contents() != []
      modifies this`ssl, this`outState, this`outErr, buf`nextConsumeIndex
      ensures Valid()
      ensures WriteRound(old(Abs()), hint, revents, freshIn, Abs(), freshIn', hint')
      ensures !freshIn' ==> !freshIn || Pending(inState)
    {
      hide Flush;
      freshIn', hint' := freshIn, hint;
      if hint == AfterRead && inState != Failed {
        outState := WaitWrite;
        return;
      }
      var writeable := hint != Unknown || Writable(revents);
      if !writeable {
        return;
      }
      freshIn' := !Pending(inState);
      FlushBuffer();
      hint' := AfterWrite;
    }

    /** One octet is read through the holding buffer. */
    method ReadHoldingByte(deferredIOAllowed: bool)
      requires Valid() && Pending(inState) && !deferredByteAvailable
      modifies this`ssl, this`inState, this`inErr, this`deferredReadOneByteBuf, this`deferredByteAvailable
      ensures Valid() && Abs() == HoldByte(old(Abs()), deferredIOAllowed)
      ensures !deferredIOAllowed && old(ssl).pending > 0 ==> !Pending(inState)
    {
      hide Receive;
      var data, err, ioAttempted := ReadLow(1, deferredIOAllowed);
      if err.NoError? {
        assert |data| == 1;
        deferredReadOneByteBuf := data[0];
        deferredByteAvailable := true;
        inState := Idle;
      } else if old(ssl).pending > 0 {
        ReceiveWithinPending(old(ssl), old(deferredReadOneByteBuf), 1);
        assert inState == Failed;
      } else {
        assert Pending(inState) || inState == Failed;
      }
    }

    /** The read step of one round. */
    method DeferredRead(hint: Hint, revents: GioCond) returns (freshOut: bool, hint': Hint)
      requires Valid() && Pending(inState) && !deferredByteAvailable
      modifies this`ssl, this`inState, this`inErr, this`deferredReadOneByteBuf, this`deferredByteAvailable
      ensures Valid()
      ensures ReadRound(old(Abs()), hint, revents, Abs(), freshOut, hint')
      ensures deferredByteAvailable ==> inState.Idle?
    {
      freshOut, hint' := true, hint;
      if ssl.pending > 0 {
        ReadHoldingByte(false);
        hint' := AfterRead;
        return;
      }
      if outState == WaitRead {
        inState := WaitRead;
        return;
      }
      assert !Pending(outState) || outState == WaitWrite;
      var readable := hint != Unknown || Readable(revents);
      if !readable {
        return;
      }
      freshOut := !Pending(outState);
      ReadHoldingByte(true);
      hint' := AfterRead;
      if Pending(inState) {
        freshOut := true;
      }
    }

    /**
     The nested loops.  They end after two rounds at most, and SSL_read is called for the
     holding buffer at most once.
     */
    method SettleDeferred(hint0: Hint, revents: GioCond) returns (ghost rounds: nat, ghost readSteps: nat)
      requires Valid() && Healthy(Abs())
      modifies this`ssl, this`inState, this`inErr, this`deferredReadOneByteBuf, this`deferredByteAvailable
      modifies this`outState, this`outErr, buf`nextConsumeIndex
      ensures Valid() && Abs() == Settle(old(Abs()), hint0, revents)
      ensures rounds <= 2 && readSteps <= 1
    {
      hide Settle, Flush, HoldByte, WriteRound, ReadRound, watch.Only, watch.Valid, buf.Valid, watch.Registered;
      var hint := hint0;
      var freshIn := hint == AfterRead || !Pending(inState);
      var freshOut := hint == AfterWrite || !Pending(outState);
      rounds, readSteps := 0, 0;
      while !freshIn || !freshOut
        invariant Valid() && (deferredByteAvailable ==> inState.Idle?)
        invariant AtRound(rounds, old(Abs()), hint0, revents, Abs(), hint, freshIn, freshOut)
        invariant readSteps <= rounds && readSteps <= 1
        decreases 2 - rounds
      {
        ghost var s0, freshIn0, hint00 := Abs(), freshIn, hint;
        if !freshOut {
          assert Pending(outState);
          freshIn, hint := DeferredWrite(hint, revents, freshIn);
          freshOut := true;
        }
        ghost var s1, freshIn1, hint1 := Abs(), freshIn, hint;
        if !freshIn {
          assert freshOut && Pending(inState);
          freshOut, hint := DeferredRead(hint, revents);
          freshIn := true;
          readSteps := readSteps + 1;
        }
        if rounds == 0 {
          FirstRound(old(Abs()), hint0, revents, s1, freshIn1, hint1, Abs(), freshOut, hint);
        } else {
          SecondRound(old(Abs()), hint0, revents, s0, hint00, s1, freshIn1, hint1);
        }
        rounds := rounds + 1;
      }
      RoundsEnd(rounds, old(Abs()), hint0, revents, Abs(), hint);
    }

    /** Nothing more will come of a broken descriptor. */
    method AbortDeferred()
      requires Valid()
      modifies this`inState, this`inErr, this`outState, this`outErr
      ensures Valid() && Abs() == Abort(old(Abs()))
    {
      if Pending(inState) {
        inState := Failed;
        inErr := TcpConnReset;
      }
      if outState != Failed {
        outState := Failed;
        outErr := TcpConnReset;
      }
    }

    /** crypto_process_deferred_ssl_io */
    method ProcessDeferredIo(hint: Hint, revents: GioCond)
      requires Valid() && Healthy(Abs())
      modifies this, buf`nextConsumeIndex, watch`descTable
      ensures fd == old(fd)
      ensures Valid() && Abs() == ProcessDeferred(old(Abs()), hint, revents)
    {
      hide Settle, Abort, Schedule;
      ghost var rounds, readSteps := SettleDeferred(hint, revents);
      if IoHup in revents || IoNval in revents {
        AbortDeferred();
      }
      ScheduleDeferred();
    }

    // -------------------------------------------------------------------------------------
    // READ and WRITE
    // -------------------------------------------------------------------------------------

    /** The transfer of crypto_handle_READ: the held octet first. */
    method TakeAndReceive(cnt: nat) returns (data: seq<byte>, err: PslError, ioAttempted: bool)
      requires Valid() && Healthy(Abs()) && 0 < cnt && inState.Idle?
      modifies this`ssl, this`inState, this`inErr, this`deferredReadOneByteBuf, this`deferredByteAvailable, this`given
      ensures Valid() && Healthy(Abs())
      ensures var r := Receive(old(ssl), old(deferredReadOneByteBuf), cnt - |old(Abs()).Held()|);
              && data == old(Abs()).Held() + r.data && err == r.err && ioAttempted == r.ioAttempted
              && Abs() == Handed(old(Abs()), r)
      ensures err.IsFatal() ==> inState == Failed
      ensures data == [] && err.IsDeferral() ==> Pending(inState)
    {
      hide Receive;
      data := [];
      var dstcnt := cnt;
      if deferredByteAvailable {
        data := [deferredReadOneByteBuf];
        dstcnt := dstcnt - 1;
        deferredByteAvailable := false;
      }
      assert !deferredByteAvailable && !Pending(inState);
      assert data == old(Abs()).Held();
      var more;
      more, err, ioAttempted := ReadLow(dstcnt, data == []);
      data := data + more;
      given := given + data;
    }

    /** A read from an idle input. */
    method ReadIdle(cnt: nat) returns (data: seq<byte>, status: IoStatus)
      requires Valid() && Healthy(Abs()) && 0 < cnt && inState.Idle?
      modifies this, buf`nextConsumeIndex, watch`descTable
      ensures fd == old(fd)
      ensures Valid() && ReadOutcome(Abs(), data, status) == ReadFrom(old(Abs()), cnt - |old(Abs()).Held()|)
    {
      hide ProcessDeferred, Receive, Handed, Healthy;
      var readErr, ioAttempted;
      data, readErr, ioAttempted := TakeAndReceive(cnt);
      assert data == [] && readErr.IsDeferral() ==> Pending(inState);
      assert readErr.IsFatal() ==> inState == Failed;
      status := StatusOf(data, readErr);
      if ioAttempted {
        ProcessDeferredIo(AfterRead, {});
      }
    }

    /** crypto_handle_READ */
    method OnRead(cnt: nat) returns (data: seq<byte>, status: IoStatus)
      requires Valid() && Healthy(Abs())
      modifies this, buf`nextConsumeIndex, watch`descTable
      ensures fd == old(fd)
      ensures Valid() && ReadOutcome(Abs(), data, status) == HandleRead(old(Abs()), cnt)
    {
      hide ReadFrom;
      if cnt == 0 {
        return [], StatusNormal;
      }
      if inState == Failed {
        assert !inErr.NoError?;
        return [], if inErr.SslCleanEof? then StatusEof else StatusError;
      }
      if Pending(inState) {
        return [], StatusAgain;
      }
      data, status := ReadIdle(if cnt <= INT_MAX then cnt else INT_MAX);
    }

    /** An error that ended the transfer is only told when nothing was read. */
    method StatusOf(data: seq<byte>, readErr: PslError) returns (status: IoStatus)
      ensures status == ReadStatus(data, readErr)
    {
      if readErr.NoError? || data != [] {
        status := StatusNormal;
      } else if readErr.IsDeferral() {
        status := StatusAgain;
      } else {
        status := if readErr.SslCleanEof? then StatusEof else StatusError;
      }
    }

    /** The refused octets are kept for the retry. */
    method BufferDeferred(data: seq<byte>)
      requires Valid() && |data| <= MAX_IO_BUF_SIZE
      modifies buf`len, buf`nextConsumeIndex, buf.storage
      ensures Valid() && Abs() == old(Abs()).(outBuf := data)
    {
      var size := buf.ResetSetSize(|data|);
      assert size == |data|;
      buf.FillData(data);
    }

    /** The transfer of crypto_handle_WRITE: what SSL_write refuses for now is buffered. */
    method SendOrBuffer(src: seq<byte>) returns (numWritten: nat, err: PslError)
      requires Valid() && Healthy(Abs()) && outState.Idle? && src != []
      modifies this`ssl, this`outState, this`outErr, this`accepted, buf`len, buf`nextConsumeIndex, buf.storage
      ensures Valid() && Healthy(Abs())
      ensures var r := Send(old(ssl), src, MAX_IO_BUF_SIZE);
              && numWritten == r.numWritten + r.deferredCnt && err == r.err
              && Abs() == TakenOver(old(Abs()), src, r)
    {
      hide Send;
      var empty := buf.IsEmpty();
      assert empty;
      var deferredWriteCnt;
      numWritten, deferredWriteCnt, err := WriteLow(src, buf.maxSize);
      if err.IsDeferral() {
        assert Pending(outState) && 0 < deferredWriteCnt <= buf.maxSize;
        BufferDeferred(src[numWritten..numWritten + deferredWriteCnt]);
        numWritten := numWritten + deferredWriteCnt;
      } else if err.NoError? || numWritten > 0 {
        assert !Pending(outState) && (err.NoError? || outState == Failed);
      } else {
        assert deferredWriteCnt == 0 && outState == Failed;
      }
      accepted := accepted + src[..numWritten];
    }

    /** crypto_handle_WRITE */
    method OnWrite(src: seq<byte>) returns (numWritten: nat, status: IoStatus)
      requires Valid() && Healthy(Abs())
      modifies this, buf`len, buf`nextConsumeIndex, buf.storage, watch`descTable
      ensures fd == old(fd)
      ensures Valid() && WriteOutcome(Abs(), numWritten, status) == HandleWrite(old(Abs()), src)
    {
      hide ProcessDeferred, Send, TakenOver;
      numWritten, status := 0, StatusNormal;
      if outState == Failed {
        assert !outErr.NoError?;
        status := StatusError;
        return;
      }
      if src == [] {
        return;
      }
      if Pending(outState) {
        status := StatusAgain;
        return;
      }
      var writeCnt := if |src| <= INT_MAX then |src| else INT_MAX;
      var err;
      numWritten, err := SendOrBuffer(src[..writeCnt]);
      if err.IsFatal() && numWritten == 0 {
        status := StatusError;
      }
      ProcessDeferredIo(AfterWrite, {});
    }

    // -------------------------------------------------------------------------------------
    // Shutdown, handshakes, renegotiation
    // -------------------------------------------------------------------------------------

    /** The begin handler of CRYPTO_SHUT: both ways, a read that was under way is given up. */
    method StartShutdown(how: ShutHow)
      requires Valid()
      modifies this`inState, this`deferredByteAvailable, this`lastCond, watch
      ensures Valid() && Abs() == ShutStart(old(Abs()), how)
    {
      hide ResetWatch;
      ResetFdWatch();
      StartTimer();
      if how == TwoWay && Pending(inState) {
        inState := Idle;
        deferredByteAvailable := false;
      }
    }

    /** The begin handler of CRYPTO_RENEG: the input no longer waits. */
    method StartRenegotiation()
      requires Valid()
      modifies this`inState, this`lastCond, watch
      ensures Valid() && Abs() == RenegStart(old(Abs()))
    {
      hide ResetWatch;
      ResetFdWatch();
      StartTimer();
      if Pending(inState) {
        inState := Idle;
      }
    }

    /** crypto_do_shutdown */
    method Shut(how: ShutHow, currPhase: ShutPhase) returns (newPhase: ShutPhase, err: PslError)
      requires Valid() && (currPhase.Shut1? || currPhase.Shut2?) && (currPhase.Shut2? ==> how.TwoWay?)
      modifies this`ssl, this`lastCond, watch
      ensures Valid() && ShutResult(Abs(), newPhase, err) == DoShutdown(old(Abs()), how, currPhase)
    {
      hide Shutdown;
      newPhase, err := currPhase, NoError;
      var oneMoreTime := true;
      while oneMoreTime
        invariant Valid()
        invariant oneMoreTime ==> err.NoError? && ShutLoop(Abs(), how, newPhase) == ShutLoop(old(Abs()), how, currPhase)
        invariant !oneMoreTime && err.NoError? ==> newPhase == ShutSuccess
        invariant !oneMoreTime ==> ShutResult(Abs(), newPhase, err) == ShutLoop(old(Abs()), how, currPhase)
        modifies this`ssl
        decreases oneMoreTime, |ssl.script|
      {
        oneMoreTime := false;
        var (ssl', ret, stalled, e) := Shutdown(ssl);
        ssl := ssl';
        if ret == 0 && stalled {
          ret := -1;
        }
        if ret == 0 {
          if how == OneWay {
            newPhase := ShutSuccess;
          } else {
            newPhase := Shut2;
            oneMoreTime := true;
          }
        } else if ret == 1 {
          newPhase := ShutSuccess;
        } else {
          assert !e.NoError?;
          err := e;
          if !e.IsDeferral() {
            newPhase := ShutFailed;
          }
        }
      }
      if err.IsDeferral() {
        UpdateWatchCondition(if err.SslWantRead? then {IoIn} else {IoOut});
        err := NoError;
      } else {
        assert err.NoError? ==> newPhase == ShutSuccess;
        ResetFdWatch();
      }
    }

    /** crypto_do_SSL_handshake */
    method ShakeHands() returns (done: bool, err: PslError)
      requires Valid()
      modifies this`ssl, this`lastCond, watch`descTable
      ensures Valid() && HandshakeResult(Abs(), done, err) == DoHandshake(old(Abs()))
    {
      hide Handshake;
      var (ssl', e) := Handshake(ssl);
      ssl := ssl';
      done, err := Await(e);
    }

    /** What an answer of the library asks for. */
    method Await(e: PslError) returns (done: bool, err: PslError)
      requires Valid()
      modifies this`lastCond, watch`descTable
      ensures Valid() && HandshakeResult(Abs(), done, err) == AwaitOrDone(old(Abs()), e)
    {
      done, err := false, NoError;
      match e {
        case SslWantRead => UpdateWatchCondition({IoIn});
        case SslWantWrite => UpdateWatchCondition({IoOut});
        case _ => done, err := true, e;
      }
    }

    /** crypto_do_reneg_wait_handshake */
    method WaitForClient() returns (done: bool, err: PslError)
      requires Valid()
      modifies this`ssl, this`lastCond, watch`descTable
      ensures Valid() && HandshakeResult(Abs(), done, err) == WaitHandshake(old(Abs()))
    {
      hide RenegotiatePending, Peek;
      var (ssl1, pending1) := RenegotiatePending(ssl);
      ssl := ssl1;
      if !pending1 {
        return true, NoError;
      }
      var (ssl2, e) := Peek(ssl);
      ssl := ssl2;
      var (ssl3, pending3) := RenegotiatePending(ssl);
      ssl := ssl3;
      if !pending3 {
        return true, NoError;
      }
      if e.NoError? {
        UpdateWatchCondition({IoIn});
        return false, NoError;
      }
      done, err := Await(e);
    }

    /** The flush phase of crypto_do_renegotiate, with crypto_start_renegotiation. */
    method FlushPhase(r: Reneg) returns (r': Reneg)
      requires Valid()
      modifies this`ssl
      ensures Valid() && (Abs(), r') == RenegFlush(old(Abs()), r)
    {
      hide Renegotiate;
      r' := r;
      if r.phase == RenegFlushOut && !Pending(outState) {
        var next := if !r.err.NoError? then RenegDone else if r.server then RenegRequestHello else RenegHandshake;
        var (ssl', e) := Renegotiate(ssl);
        ssl := ssl';
        r' := r.(phase := next, err := e);
      }
    }

    /** The request-hello phase. */
    method HelloPhase(r: Reneg) returns (r': Reneg)
      requires Valid()
      modifies this`ssl, this`lastCond, watch`descTable
      ensures Valid() && (Abs(), r') == RenegHello(old(Abs()), r)
    {
      hide DoHandshake;
      r' := r;
      if r.phase == RenegRequestHello {
        var finished, e := ShakeHands();
        if finished {
          if !e.NoError? || !r.waitForClient {
            r' := r.(phase := RenegDone, err := e);
          } else {
            UpdateWatchCondition({IoIn});
            r' := r.(phase := RenegHandshake);
          }
        }
      }
    }

    /** SSL_get_shutdown tells of both close alerts. */
    method ClosedBothWays() returns (closed: bool)
      requires Valid()
      ensures closed == (Abs().ssl.sent && Abs().ssl.received)
    {
      closed := ssl.sent && ssl.received;
    }

    /** crypto_deferred_io_pending of the output */
    method OutputWaits() returns (waits: bool)
      requires Valid()
      ensures waits == Pending(Abs().outState)
    {
      waits := Pending(outState);
    }

    /** crypto_total_input_bytes_ready */
    method TotalInputBytesReady() returns (cnt: nat)
      requires Valid()
      ensures cnt == BytesReady(Abs())
    {
      cnt := ssl.pending;
      if deferredByteAvailable {
        cnt := cnt + 1;
      }
    }

    /** The handshake phase: suspended while octets wait to be read. */
    method HandshakePhase(r: Reneg) returns (r': Reneg)
      requires Valid()
      modifies this`ssl, this`lastCond, watch
      ensures Valid() && (Abs(), r') == RenegShake(old(Abs()), r)
    {
      hide DoHandshake, WaitHandshake;
      r' := r;
      if r.phase == RenegHandshake {
        var ready := TotalInputBytesReady();
        if ready > 0 {
          ResetFdWatch();
        } else {
          var finished, e;
          if r.server && r.waitForClient {
            finished, e := WaitForClient();
          } else {
            finished, e := ShakeHands();
          }
          if finished {
            r' := r.(phase := RenegDone, err := e);
          }
        }
      }
    }

    /** crypto_do_renegotiate on the renegotiation's own state `r`. */
    method RunRenegotiation(r: Reneg) returns (r': Reneg, done: bool)
      requires Valid()
      modifies this`ssl, this`lastCond, watch
      ensures Valid() && (Abs(), r') == DoRenegotiate(old(Abs()), r) && (done <==> r'.phase.RenegDone?)
    {
      hide RenegFlush, RenegHello, RenegShake;
      r' := r;
      if r'.phase == RenegInit {
        ResetFdWatch();
        r' := r'.(phase := RenegFlushOut);
      }
      r' := FlushPhase(r');
      r' := HelloPhase(r');
      r' := HandshakePhase(r');
      done := r'.phase == RenegDone;
    }
  }
}
