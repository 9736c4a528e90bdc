/**
 The I/O of each crypto state between two events, and how the events of the state machine take
 one such state of rest to another.
 */
module CryptoRest {
  import opened Common
  import opened SslOracle
  import opened DeferredIo
  import opened DeferredIoProofs
  import opened CryptoEventProofs
  import opened CryptoControlProofs

  predicate NothingWatched(s: Io) {
    s.lastCond == {} && s.registered == {} && !s.timer
  }

  /** The watch waits for one of the two directions and for no timer. */
  predicate OneWatched(s: Io) {
    WatchCoherent(s) && s.registered in {{IoIn}, {IoOut}} && !s.timer
  }

  /** The watch only waits to call back at once. */
  predicate Kicked(s: Io) {
    s.lastCond == {} && s.registered == {} && s.timer
  }

  ghost predicate NoCloseYet(s: Io) {
    BeforeClose(s.ssl.log).None?
  }

  /** Connecting: no octet has moved; the first call is due, or the handshake waits. */
  ghost predicate ConnRest(s: Io, started: bool) {
    && Sound(s) && s.inState.Idle? && s.outState.Idle? && NoCloseYet(s)
    && (if started then OneWatched(s) else Kicked(s) && s.ssl.log == NoCalls && !s.ssl.sent)
  }

  /** Established: exactly what the two directions wait for is watched, and they do not cross. */
  ghost predicate SslRest(s: Io) {
    Sound(s) && NoCrossedWaits(s) && WatchExact(s) && !s.timer && NoCloseYet(s)
  }

  /** Renegotiating: the input never waits. */
  ghost predicate RenegRest(s: Io, r: Reneg) {
    && Sound(s) && WatchCoherent(s) && !Pending(s.inState) && NoCloseYet(s)
    && !r.err.IsDeferral() && (r.phase.RenegInit? ==> Kicked(s))
  }

  /** Shutting down, in each of its phases. */
  ghost predicate ShutRest(s: Io, how: ShutHow, p: ShutPhase) {
    && Sound(s) && PhaseTells(s.ssl, how, p) && (how.TwoWay? ==> !Pending(s.inState))
    && match p
       case ShutInit => Kicked(s)
       case ShutFlushOut => NoCrossedWaits(s) && WatchExact(s) && !s.timer
       case Shut1 => s.outState.Idle? && OneWatched(s)
       case Shut2 => s.outState.Idle? && OneWatched(s)
       case ShutSuccess =>
         && !Pending(s.outState)
         && (if how.OneWay? then NoCrossedWaits(s) && WatchExact(s) && !s.timer else NothingWatched(s))
       case ShutFailed => false
  }

  /** What no event of the crypto mode does: clear an error, or take back octets. */
  predicate Onward(s: Io, t: Io) {
    ErrorsKept(s, t) && s.accepted <= t.accepted && s.given <= t.given
  }

  lemma OnwardComposes(a: Io, b: Io, c: Io)
    requires Onward(a, b) && Onward(b, c)
    ensures Onward(a, c)
  {
  }

  /** Nothing but the watch changes when it is reset, or kicked off. */
  lemma ResetIsOnward(s: Io)
    requires Sound(s)
    ensures Sound(ResetWatch(s)) && Onward(s, ResetWatch(s)) && NothingWatched(ResetWatch(s))
    ensures Sound(ResetWatch(s).(timer := true)) && Kicked(ResetWatch(s).(timer := true))
  {
    WatchIsApart(s, ResetWatch(s));
    WatchIsApart(s, ResetWatch(s).(timer := true));
  }

  lemma SameButWatchCloses(s: Io, t: Io)
    requires SameButWatch(s, t)
    ensures NoCloseYet(t) <==> NoCloseYet(s)
  {
  }

  /** Deferred processing from any sound state whose watch is coherent. */
  lemma DeferredRests(s: Io, hint: Hint, revents: GioCond)
    requires Sound(s) && WatchCoherent(s)
    ensures var t := ProcessDeferred(s, hint, revents);
            && Sound(t) && NoCrossedWaits(t) && WatchExact(t) && Onward(s, t) && t.timer == s.timer
            && (NoCloseYet(s) ==> NoCloseYet(t)) && t.accepted == s.accepted && t.given == s.given
            && t.ssl.sent == s.ssl.sent
            && (!Pending(s.inState) ==> !Pending(t.inState))
            && (!Pending(s.outState) ==> !Pending(t.outState))
  {
    hide ProcessDeferred, Sound;
    ProcessDeferredIsSound(s, hint, revents);
  }

  // ---------------------------------------------------------------------------------------
  // Connecting
  // ---------------------------------------------------------------------------------------

  lemma ConnBegins(registered: GioCond, timer: bool)
    ensures ConnRest(ResetWatch(NewIo(registered, timer)).(timer := true), false)
  {
  }

  /** The first round gives the connection its SSL object. */
  lemma ConnStarts(s: Io, script: seq<Answer>)
    requires ConnRest(s, false)
    ensures var t := ResetWatch(s).(ssl := NewSsl(script));
            ConnShakable(t)
  {
  }

  /** A round of the handshake may follow. */
  ghost predicate ConnShakable(s: Io) {
    Sound(s) && s.inState.Idle? && s.outState.Idle? && NoCloseYet(s) && WatchCoherent(s) && !s.timer
  }

  lemma ConnRestShakable(s: Io)
    requires ConnRest(s, true)
    ensures ConnShakable(s)
  {
  }

  lemma ConnShakes(s: Io)
    requires ConnShakable(s)
    ensures var h := DoHandshake(s);
            && (!h.done ==> ConnRest(h.io, true) && h.err.NoError?)
            && Sound(h.io) && NoCloseYet(h.io) && Onward(s, h.io) && !h.err.IsDeferral()
  {
    DoHandshakeIsControl(s);
    ControlIsSound(s, DoHandshake(s).io, 0);
  }

  // ---------------------------------------------------------------------------------------
  // Established
  // ---------------------------------------------------------------------------------------

  lemma SslBegins(s: Io)
    requires Sound(s) && NoCloseYet(s)
    ensures var t := ProcessDeferred(ResetWatch(s), Unknown, {}); SslRest(t) && Onward(s, t)
  {
    hide ProcessDeferred, Sound;
    ResetIsOnward(s);
    DeferredRests(ResetWatch(s), Unknown, {});
  }

  lemma SslWatches(s: Io, revents: GioCond)
    requires SslRest(s)
    ensures var t := ProcessDeferred(s, Unknown, revents); SslRest(t) && Onward(s, t)
  {
    hide ProcessDeferred, Sound;
    DeferredRests(s, Unknown, revents);
  }

  lemma SslReads(s: Io, cnt: nat)
    requires SslRest(s)
    ensures var t := HandleRead(s, cnt).io; SslRest(t) && Onward(s, t)
  {
    hide HandleRead, Sound;
    ReadIsSound(s, cnt);
  }

  lemma SslWrites(s: Io, buf: seq<byte>)
    requires SslRest(s)
    ensures var t := HandleWrite(s, buf).io; SslRest(t) && Onward(s, t)
  {
    hide HandleWrite, Sound;
    WriteIsSound(s, buf);
  }

  // ---------------------------------------------------------------------------------------
  // Renegotiating
  // ---------------------------------------------------------------------------------------

  lemma RenegBegins(s: Io, r: Reneg)
    requires Sound(s) && NoCloseYet(s) && !r.err.IsDeferral()
    ensures RenegRest(RenegStart(s), r) && Onward(s, RenegStart(s))
  {
  }

  /** What carries over from a renegotiation step. */
  lemma RenegSteps(s: Io, r: Reneg)
    requires Sound(s) && WatchCoherent(s) && !Pending(s.inState) && NoCloseYet(s) && !r.err.IsDeferral()
    ensures var (t, r') := DoRenegotiate(s, r);
            && RenegRest(t, r') && Onward(s, t) && t.outState == s.outState
            && r'.server == r.server && r'.waitForClient == r.waitForClient
  {
    hide DoRenegotiate;
    DoRenegotiateIsSound(s, r);
  }

  lemma RenegReads(s: Io, r: Reneg, cnt: nat)
    requires RenegRest(s, r) && cnt <= BytesReady(s)
    ensures var t := HandleRead(s, cnt).io;
            && Sound(t) && WatchCoherent(t) && !Pending(t.inState) && NoCloseYet(t)
            && Onward(s, t) && NoTransport(s, t)
  {
    hide HandleRead, Sound;
    ReadIsSound(s, cnt);
    LimitedReadNoTransport(s, cnt);
  }

  lemma RenegFlushes(s: Io, r: Reneg, revents: GioCond)
    requires RenegRest(s, r)
    ensures var t := ProcessDeferred(s, Unknown, revents);
            Sound(t) && WatchCoherent(t) && !Pending(t.inState) && NoCloseYet(t) && Onward(s, t)
  {
    hide ProcessDeferred, Sound;
    DeferredRests(s, Unknown, revents);
  }

  // ---------------------------------------------------------------------------------------
  // Shutting down
  // ---------------------------------------------------------------------------------------

  lemma ShutBegins(s: Io, how: ShutHow)
    requires Sound(s)
    ensures ShutRest(ShutStart(s, how), how, ShutInit) && Onward(s, ShutStart(s, how))
    ensures ShutStart(s, how).accepted == s.accepted
  {
  }

  /** One round of flushing, from the first call or a later one. */
  lemma ShutFlushes(s: Io, how: ShutHow, p: ShutPhase, revents: GioCond)
    requires ShutRest(s, how, p) && (p.ShutInit? || p.ShutFlushOut?)
    ensures var t := ProcessDeferred(if p.ShutInit? then ResetWatch(s) else s, Unknown, revents);
            && Onward(s, t) && t.accepted == s.accepted && ShutRest(t, how, ShutFlushOut)
            && (!Pending(t.outState) ==> Sound(ResetWatch(t)) && NothingWatched(ResetWatch(t)))
  {
    hide ProcessDeferred, Sound;
    ResetIsOnward(s);
    var s0 := if p.ShutInit? then ResetWatch(s) else s;
    DeferredRests(s0, Unknown, revents);
    var t := ProcessDeferred(s0, Unknown, revents);
    ResetIsOnward(t);
  }

  lemma ShutCloses(s: Io, how: ShutHow, p: ShutPhase)
    requires Closing(s, how, p) && WatchCoherent(s) && !s.timer && (how.TwoWay? ==> !Pending(s.inState))
    ensures var r := DoShutdown(s, how, p);
            && Sound(r.io) && Onward(s, r.io) && r.io.accepted == s.accepted && Rank(p) <= Rank(r.phase)
               && !r.err.IsDeferral()
            && PhaseTells(r.io.ssl, how, r.phase) && r.io.outState.Idle? && (how.TwoWay? ==> !Pending(r.io.inState))
            && (r.phase.ShutFailed? <==> !r.err.NoError?)
            && (r.phase.Shut1? || r.phase.Shut2? ==> ShutRest(r.io, how, r.phase))
            && (r.phase.ShutSuccess? || r.phase.ShutFailed? ==> NothingWatched(r.io))
            && (r.phase.Shut1? || r.phase.Shut2? || r.phase.ShutSuccess? || r.phase.ShutFailed?)
  {
    hide DoShutdown, Sound;
    DoShutdownIsSound(s, how, p);
  }

  /** One way, the reader may go on after success. */
  lemma ShutSucceeds(s: Io, how: ShutHow)
    requires Sound(s) && PhaseTells(s.ssl, how, ShutSuccess) && !Pending(s.outState)
             && (how.TwoWay? ==> !Pending(s.inState))
    ensures how.OneWay? ==>
              var t := ProcessDeferred(ResetWatch(s), Unknown, {});
              ShutRest(t, how, ShutSuccess) && Onward(s, t) && t.accepted == s.accepted
    ensures how.TwoWay? ==> ShutRest(ResetWatch(s), how, ShutSuccess)
  {
    hide ProcessDeferred, Sound;
    ResetIsOnward(s);
    DeferredRests(ResetWatch(s), Unknown, {});
  }

  lemma ShutWatches(s: Io, revents: GioCond)
    requires ShutRest(s, OneWay, ShutSuccess)
    ensures var t := ProcessDeferred(s, Unknown, revents);
            ShutRest(t, OneWay, ShutSuccess) && Onward(s, t) && t.accepted == s.accepted
  {
    hide ProcessDeferred, Sound;
    DeferredRests(s, Unknown, revents);
  }

  lemma ShutReads(s: Io, p: ShutPhase, cnt: nat)
    requires ShutRest(s, OneWay, p) && (p.ShutFlushOut? || p.ShutSuccess?)
    ensures var t := HandleRead(s, cnt).io; ShutRest(t, OneWay, p) && Onward(s, t) && t.accepted == s.accepted
  {
    hide HandleRead, Sound;
    ReadIsSound(s, cnt);
  }

  /** Whoever sees that our alert was sent knows that everything accepted was taken before it. */
  lemma ClosedAfterEverything(s: Io)
    requires Sound(s) && s.ssl.sent
    ensures BeforeClose(s.ssl.log).Some? && s.accepted == Taken(BeforeClose(s.ssl.log).value)
  {
  }
}
