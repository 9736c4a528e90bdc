/** What holds of the deferred I/O for every behaviour of the SSL object. */
module DeferredIoProofs {
  import opened Common
  import opened SslOracle
  import opened DeferredIo

  // ---------------------------------------------------------------------------------------
  // The invariant
  // ---------------------------------------------------------------------------------------

  /** Output: what was accepted is what was taken followed by the buffer, and a waiting write is retried as it was. */
  ghost predicate OutputSound(s: Io) {
    && |s.outBuf| <= MAX_IO_BUF_SIZE
    && s.accepted == Taken(s.ssl.log) + s.outBuf
    && (Pending(s.outState) ==> s.outBuf != [] && Unfinished(s.ssl.log) == Some(s.outBuf))
    && (s.outState.Idle? ==> s.outBuf == [] && Unfinished(s.ssl.log) == None)
    && (Unfinished(s.ssl.log).Some? ==> Unfinished(s.ssl.log).value == s.outBuf)
    && (if s.outState.Failed? then s.outErr.IsFatal() else s.outErr.NoError?)
  }

  /** Input: what was given followed by the held octet is what was read, and a held octet means idle input. */
  ghost predicate InputSound(s: Io) {
    && s.given + s.Held() == Produced(s.ssl.log)
    && (s.held ==> s.inState.Idle?)
    && (if s.inState.Failed? then s.inErr.IsFatal() else s.inErr.NoError?)
  }

  /** Our close alert is only ever asked for after everything accepted was taken. */
  ghost predicate CloseSound(s: Io) {
    && Disciplined(s.ssl.log)
    && (BeforeClose(s.ssl.log).Some? ==> s.accepted == Taken(BeforeClose(s.ssl.log).value))
    && (s.ssl.sent ==> BeforeClose(s.ssl.log).Some?)
  }

  ghost predicate Sound(s: Io) {
    OutputSound(s) && InputSound(s) && CloseSound(s)
  }

  /** The component's idea of the registered condition is right. */
  predicate WatchCoherent(s: Io) {
    s.lastCond == s.registered
  }

  /** The registered condition is exactly what the two directions wait for. */
  predicate WatchExact(s: Io) {
    WatchCoherent(s) && s.registered == CondOf(s.inState) + CondOf(s.outState)
  }

  /** Input never waits for a writable socket while output waits for a readable one. */
  predicate NoCrossedWaits(s: Io) {
    !(s.inState.WaitWrite? && s.outState.WaitRead?)
  }

  /** Errors stay: a failed direction keeps its error. */
  predicate ErrorsKept(s: Io, t: Io) {
    && (s.inState.Failed? ==> t.inState.Failed? && t.inErr == s.inErr)
    && (s.outState.Failed? ==> t.outState.Failed? && t.outErr == s.outErr)
  }

  /** What no step of the deferred processing touches: the user's side, the watch, the shutdown and idle input. */
  ghost predicate DeferredStep(s: Io, t: Io) {
    && ErrorsKept(s, t)
    && t.accepted == s.accepted && t.given == s.given
    && t.lastCond == s.lastCond && t.registered == s.registered && t.timer == s.timer
    && BeforeClose(t.ssl.log) == BeforeClose(s.ssl.log) && t.ssl.sent == s.ssl.sent
    && (!Pending(s.inState) ==> t.inState == s.inState && t.held == s.held)
    && (!Pending(s.outState) ==> t.outState == s.outState)
  }

  // ---------------------------------------------------------------------------------------
  // Low-level transfers
  // ---------------------------------------------------------------------------------------

  lemma ConcatAssociates(a: seq<byte>, b: seq<byte>, c: seq<byte>)
    ensures a + b + c == a + (b + c)
  {
  }

  lemma TakeTwice(s: seq<byte>, n: nat, k: nat)
    requires n + k <= |s|
    ensures s[..n] + s[n..][..k] == s[..n + k]
  {
  }

  lemma SliceOfDrop(s: seq<byte>, n: nat, i: nat, j: nat)
    requires i <= j && n + j <= |s|
    ensures s[n..][i..j] == s[n + i..n + j]
  {
  }

  /** SSL_write gets the source octets in order. */
  lemma {:induction false} SendTakesPrefix(ssl: Ssl, src: seq<byte>, max: nat)
    requires 0 < max
    ensures var r := Send(ssl, src, max); Taken(r.ssl.log) == Taken(ssl.log) + src[..r.numWritten]
    decreases |src|
  {
    hide Write;
    if src == [] {
      assert src[..0] == [];
    } else {
      var req := src[..Min(|src|, max)];
      var (ssl', n, e) := Write(ssl, req);
      if e.NoError? {
        SendTakesPrefix(ssl', src[n..], max);
        var k := Send(ssl', src[n..], max).numWritten;
        TakeTwice(src, n, k);
        assert req[..n] == src[..n];
        ConcatAssociates(Taken(ssl.log), src[..n], src[n..][..k]);
      } else {
        assert req[..0] == src[..0];
      }
    }
  }

  /** A refused piece is what the library waits for; a piece smaller than `max` was the last one. */
  lemma {:induction false} SendLeavesUnfinished(ssl: Ssl, src: seq<byte>, max: nat)
    requires 0 < max && src != []
    ensures var r := Send(ssl, src, max);
            && Unfinished(r.ssl.log) == (
                 if r.err.IsDeferral() then Some(src[r.numWritten..r.numWritten + r.deferredCnt]) else None)
            && (r.err.IsDeferral() && r.numWritten + r.deferredCnt < |src| ==> r.deferredCnt == max)
    decreases |src|
  {
    hide Write;
    var req := src[..Min(|src|, max)];
    var (ssl', n, e) := Write(ssl, req);
    if e.NoError? {
      if src[n..] != [] {
        SendLeavesUnfinished(ssl', src[n..], max);
        var r := Send(ssl', src[n..], max);
        SliceOfDrop(src, n, r.numWritten, r.numWritten + r.deferredCnt);
      }
    } else {
      assert src[0..|req|] == req;
    }
  }

  /** The log keeps its discipline when the first piece is what the library waits for, if anything. */
  lemma {:induction false} SendIsDisciplined(ssl: Ssl, src: seq<byte>, max: nat)
    requires 0 < max && Disciplined(ssl.log)
    requires src != [] && Unfinished(ssl.log).Some? ==> Unfinished(ssl.log).value == src[..Min(|src|, max)]
    ensures var r := Send(ssl, src, max).ssl;
            && Disciplined(r.log) && Produced(r.log) == Produced(ssl.log)
            && BeforeClose(r.log) == BeforeClose(ssl.log) && r.sent == ssl.sent
    decreases |src|
  {
    if src != [] {
      var (ssl', n, e) := Write(ssl, src[..Min(|src|, max)]);
      if e.NoError? {
        SendIsDisciplined(ssl', src[n..], max);
      }
    }
  }

  /** What is delivered is what SSL_read delivered, in order. */
  lemma {:induction false} ReceiveDelivers(ssl: Ssl, through: byte, cnt: nat)
    ensures var r := Receive(ssl, through, cnt);
            Produced(r.ssl.log) == Produced(ssl.log) + r.data
    decreases cnt
  {
    hide Read;
    if cnt != 0 {
      var direct := ssl.pending > 0;
      var (ssl', data, e) := Read(ssl, if direct then Min(cnt, ssl.pending) else 1);
      assert Produced(ssl'.log) == Produced(ssl.log) + data;
      if e.NoError? {
        var through' := if direct then through else data[0];
        ReceiveDelivers(ssl', through', cnt - |data|);
        ConcatAssociates(Produced(ssl.log), data, Receive(ssl', through', cnt - |data|).data);
      }
    }
  }

  /** Reading leaves what is known of the writes and of the shutdown as it was. */
  lemma {:induction false} ReceiveIsDisciplined(ssl: Ssl, through: byte, cnt: nat)
    requires Disciplined(ssl.log)
    ensures var r := Receive(ssl, through, cnt).ssl;
            && Disciplined(r.log) && Taken(r.log) == Taken(ssl.log) && Unfinished(r.log) == Unfinished(ssl.log)
            && BeforeClose(r.log) == BeforeClose(ssl.log) && r.sent == ssl.sent
    decreases cnt
  {
    if cnt != 0 {
      var direct := ssl.pending > 0;
      var (ssl', data, e) := Read(ssl, if direct then Min(cnt, ssl.pending) else 1);
      if e.NoError? {
        ReceiveIsDisciplined(ssl', if direct then through else data[0], cnt - |data|);
      }
    }
  }

  /** A read of no more than is pending stays within it at every step: no I/O and no deferral. */
  lemma {:induction false} ReceiveWithinPending(ssl: Ssl, through: byte, cnt: nat)
    requires cnt <= ssl.pending
    ensures var r := Receive(ssl, through, cnt);
            && !r.ioAttempted && !r.err.IsDeferral()
            && OnlyPendingReads(ssl.log, r.ssl.log)
            && r.ssl.pending == ssl.pending - |r.data|
    decreases cnt
  {
    if cnt != 0 {
      var (ssl', data, e) := Read(ssl, Min(cnt, ssl.pending));
      if e.NoError? {
        ReceiveWithinPending(ssl', through, cnt - |data|);
        PendingReadsCompose(ssl.log, ssl'.log, Receive(ssl', through, cnt - |data|).ssl.log);
      }
    }
  }

  lemma {:induction false} PendingReadsCompose(a: Log, b: Log, c: Log)
    requires OnlyPendingReads(a, b) && OnlyPendingReads(b, c)
    ensures OnlyPendingReads(a, c)
    decreases c
  {
    if b != c && a != c {
      PendingReadsCompose(a, b, c.before);
    }
  }

  /** Between the two logs SSL_read was only ever asked for one octet. */
  predicate ReadsSingly(earlier: Log, later: Log) {
    earlier == later || (later.Then? && (later.last.ReadCall? ==> later.last.max == 1)
      && ReadsSingly(earlier, later.before))
  }

  /** How often SSL_read was called. */
  function ReadCalls(log: Log): nat {
    match log
    case NoCalls => 0
    case Then(before, call) => ReadCalls(before) + (if call.ReadCall? then 1 else 0)
  }

  lemma {:induction false} SingleReadsCompose(a: Log, b: Log, c: Log)
    requires ReadsSingly(a, b) && ReadsSingly(b, c)
    ensures ReadsSingly(a, c)
    decreases c
  {
    if b != c && a != c {
      SingleReadsCompose(a, b, c.before);
    }
  }

  lemma {:induction false} SendReadsNothing(ssl: Ssl, src: seq<byte>, max: nat)
    requires 0 < max
    ensures ReadsSingly(ssl.log, Send(ssl, src, max).ssl.log)
    ensures ReadCalls(Send(ssl, src, max).ssl.log) == ReadCalls(ssl.log)
    decreases |src|
  {
    hide Write;
    if src != [] {
      var (ssl', n, e) := Write(ssl, src[..Min(|src|, max)]);
      assert ReadsSingly(ssl.log, ssl'.log);
      if e.NoError? {
        SendReadsNothing(ssl', src[n..], max);
        SingleReadsCompose(ssl.log, ssl'.log, Send(ssl', src[n..], max).ssl.log);
      }
    }
  }

  lemma FlushReadsNothing(s: Io)
    ensures ReadsSingly(s.ssl.log, Flush(s).ssl.log) && ReadCalls(Flush(s).ssl.log) == ReadCalls(s.ssl.log)
  {
    hide Send;
    if s.outBuf != [] {
      SendReadsNothing(s.ssl, s.outBuf, |s.outBuf|);
    }
  }

  lemma HoldByteReadsOne(s: Io, allowed: bool)
    ensures ReadsSingly(s.ssl.log, HoldByte(s, allowed).ssl.log)
    ensures ReadCalls(HoldByte(s, allowed).ssl.log) <= ReadCalls(s.ssl.log) + 1
  {
    hide Read;
  }

  lemma ReadStepReadsSingly(s: Io, mayRead: bool)
    ensures ReadsSingly(s.ssl.log, ReadStep(s, mayRead).ssl.log)
    ensures ReadCalls(ReadStep(s, mayRead).ssl.log) <= ReadCalls(s.ssl.log) + 1
  {
    hide Flush, HoldByte;
    HoldByteReadsOne(s, false);
    HoldByteReadsOne(s, true);
    var t := HoldByte(s, true);
    FlushReadsNothing(t);
    SingleReadsCompose(s.ssl.log, t.ssl.log, Flush(t).ssl.log);
  }

  lemma SettleReadsSingly(s: Io, hint: Hint, revents: GioCond)
    ensures ReadsSingly(s.ssl.log, Settle(s, hint, revents).ssl.log)
    ensures ReadCalls(Settle(s, hint, revents).ssl.log) <= ReadCalls(s.ssl.log) + 1
  {
    hide Flush, ReadStep;
    FlushReadsNothing(s);
    var wrote := WriteDue(s, hint, revents);
    var t := if wrote then Flush(s) else s;
    var mayRead := wrote || hint.AfterWrite? || Readable(revents);
    ReadStepReadsSingly(t, mayRead);
    SingleReadsCompose(s.ssl.log, t.ssl.log, ReadStep(t, mayRead).ssl.log);
  }

  /**
   SSL_read is retried as it was first called: the deferred processing asks it at most once, and
   for the one octet of the holding buffer.
   */
  lemma DeferredReadsSingly(s: Io, hint: Hint, revents: GioCond)
    ensures ReadsSingly(s.ssl.log, ProcessDeferred(s, hint, revents).ssl.log)
    ensures ReadCalls(ProcessDeferred(s, hint, revents).ssl.log) <= ReadCalls(s.ssl.log) + 1
  {
    hide Settle;
    SettleReadsSingly(s, hint, revents);
  }

  // ---------------------------------------------------------------------------------------
  // The steps of the deferred processing
  // ---------------------------------------------------------------------------------------

  lemma FlushedOutput(s: Io, r: SendResult)
    requires OutputSound(s) && Pending(s.outState) && r.numWritten + r.deferredCnt <= |s.outBuf|
    requires Taken(r.ssl.log) == Taken(s.ssl.log) + s.outBuf[..r.numWritten]
    requires Unfinished(r.ssl.log) == if r.err.IsDeferral() then Some(s.outBuf[r.numWritten..]) else None
    requires r.err.NoError? ==> r.numWritten == |s.outBuf|
    requires r.err.IsDeferral() ==> r.numWritten < |s.outBuf|
    ensures OutputSound(Flushed(s, r))
  {
    var k := r.numWritten;
    assert s.outBuf == s.outBuf[..k] + s.outBuf[k..];
    ConcatAssociates(Taken(s.ssl.log), s.outBuf[..k], s.outBuf[k..]);
  }

  lemma FlushIsSound(s: Io)
    requires Sound(s) && Pending(s.outState)
    ensures Sound(Flush(s)) && DeferredStep(s, Flush(s))
    ensures Flush(s).inState == s.inState && Flush(s).inErr == s.inErr
  {
    hide Send;
    var n := |s.outBuf|;
    assert s.outBuf[..n] == s.outBuf;
    SendTakesPrefix(s.ssl, s.outBuf, n);
    SendLeavesUnfinished(s.ssl, s.outBuf, n);
    SendIsDisciplined(s.ssl, s.outBuf, n);
    var r := Send(s.ssl, s.outBuf, n);
    if r.err.IsDeferral() {
      assert s.outBuf[r.numWritten..r.numWritten + r.deferredCnt] == s.outBuf[r.numWritten..];
    }
    FlushedOutput(s, r);
  }

  lemma KeptIsSound(s: Io, r: ReceiveResult, allowed: bool)
    requires Sound(s) && Pending(s.inState) && (r.err.IsDeferral() ==> allowed)
    requires |r.data| <= 1 && (r.err.NoError? <==> |r.data| == 1)
    requires Produced(r.ssl.log) == Produced(s.ssl.log) + r.data
    requires Disciplined(r.ssl.log) && Taken(r.ssl.log) == Taken(s.ssl.log)
             && Unfinished(r.ssl.log) == Unfinished(s.ssl.log)
    requires BeforeClose(r.ssl.log) == BeforeClose(s.ssl.log) && r.ssl.sent == s.ssl.sent
    ensures Sound(Kept(s, r, allowed)) && DeferredStep(s, Kept(s, r, allowed))
    ensures Pending(Kept(s, r, allowed).inState) <==> r.err.IsDeferral()
  {
    if r.err.NoError? {
      assert r.data == [r.data[0]];
    } else {
      assert r.data == [];
    }
  }

  lemma HoldByteIsSound(s: Io, allowed: bool)
    requires Sound(s) && Pending(s.inState) && (s.ssl.pending == 0 ==> allowed)
    ensures Sound(HoldByte(s, allowed)) && DeferredStep(s, HoldByte(s, allowed))
    ensures s.ssl.pending > 0 ==> !Pending(HoldByte(s, allowed).inState)
  {
    ReceiveDelivers(s.ssl, s.heldByte, 1);
    ReceiveIsDisciplined(s.ssl, s.heldByte, 1);
    if s.ssl.pending > 0 {
      ReceiveWithinPending(s.ssl, s.heldByte, 1);
    }
    KeptIsSound(s, Receive(s.ssl, s.heldByte, 1), allowed);
  }

  lemma ReadStepIsSound(s: Io, mayRead: bool)
    requires Sound(s) && Pending(s.inState)
    ensures Sound(ReadStep(s, mayRead)) && DeferredStep(s, ReadStep(s, mayRead))
    ensures NoCrossedWaits(ReadStep(s, mayRead))
  {
    if s.ssl.pending > 0 {
      HoldByteIsSound(s, false);
    } else if !s.outState.WaitRead? && mayRead {
      HoldByteIsSound(s, true);
      var t := HoldByte(s, true);
      if t.inState.Failed? && Pending(t.outState) {
        FlushIsSound(t);
      }
    }
  }

  /** The loops keep the invariant and leave no crossed waits, whatever the hint and the events. */
  lemma SettleIsSound(s: Io, hint: Hint, revents: GioCond)
    requires Sound(s)
    ensures var t := Settle(s, hint, revents); Sound(t) && DeferredStep(s, t) && NoCrossedWaits(t)
  {
    if !Optimistic(s, hint) {
      var wrote := WriteDue(s, hint, revents);
      if wrote {
        FlushIsSound(s);
      }
      var t := if wrote then Flush(s) else s;
      if Pending(t.inState) && (wrote || !hint.AfterRead?) {
        ReadStepIsSound(t, wrote || hint.AfterWrite? || Readable(revents));
      }
    }
  }

  lemma AbortIsSound(s: Io)
    requires Sound(s)
    ensures Sound(Abort(s)) && NoCrossedWaits(Abort(s)) && ErrorsKept(s, Abort(s))
    ensures !Pending(Abort(s).inState) && Abort(s).outState.Failed?
    ensures !Pending(s.inState) ==> Abort(s).inState == s.inState
  {
  }

  /** Updating the watch through the wrapper always ends with the wanted condition registered. */
  lemma UpdateWatchIsExact(s: Io, cond: GioCond)
    requires WatchCoherent(s)
    ensures WatchCoherent(UpdateWatch(s, cond)) && UpdateWatch(s, cond).registered == cond
  {
  }

  /** The two states differ in what is registered at most. */
  predicate SameButWatch(s: Io, t: Io) {
    t == s.(lastCond := t.lastCond, registered := t.registered, timer := t.timer)
  }

  lemma WatchIsApart(s: Io, t: Io)
    requires SameButWatch(s, t) && Sound(s)
    ensures Sound(t)
  {
  }

  lemma ScheduleIsSound(s: Io)
    requires Sound(s)
    ensures Sound(Schedule(s)) && SameButWatch(s, Schedule(s)) && Schedule(s).timer == s.timer
    ensures WatchCoherent(s) ==> WatchExact(Schedule(s))
  {
    WatchIsApart(s, Schedule(s));
  }

  /** What the deferred processing as a whole guarantees. */
  ghost predicate DeferredDone(s: Io, t: Io, revents: GioCond) {
    && Sound(t) && NoCrossedWaits(t) && ErrorsKept(s, t)
    && t.accepted == s.accepted && t.given == s.given && t.timer == s.timer
    && BeforeClose(t.ssl.log) == BeforeClose(s.ssl.log) && t.ssl.sent == s.ssl.sent
    && (WatchCoherent(s) ==> WatchExact(t))
    && (Broken(revents) ==> !Pending(t.inState) && t.outState.Failed?)
    && (!Pending(s.inState) ==> t.inState == s.inState && t.held == s.held)
    && (!Pending(s.outState) && !Broken(revents) ==> t.outState == s.outState)
  }

  /** A broken descriptor leaves nothing waiting; the watch ends up exact. */
  lemma FinishIsSound(s: Io, t: Io, revents: GioCond)
    requires DeferredStep(s, t) && Sound(t) && NoCrossedWaits(t)
    ensures DeferredDone(s, Finish(t, revents), revents)
  {
    if Broken(revents) {
      AbortIsSound(t);
      ScheduleIsSound(Abort(t));
    } else {
      ScheduleIsSound(t);
    }
  }

  /** The deferred processing keeps everything, from every state, hint and set of events. */
  lemma ProcessDeferredIsSound(s: Io, hint: Hint, revents: GioCond)
    requires Sound(s)
    ensures DeferredDone(s, ProcessDeferred(s, hint, revents), revents)
  {
    SettleIsSound(s, hint, revents);
    FinishIsSound(s, Settle(s, hint, revents), revents);
  }
}
