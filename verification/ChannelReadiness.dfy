/**
 What a channel tells glib about its readiness: the answers to CHECK_IO, the preflight that
 turns them into conditions to announce and conditions to poll, and the channel watch.
 */
module ChannelReadiness {
  import opened Common
  import opened DeferredIo
  import opened DeferredIoEngine
  import opened ChannelState
  import opened ChannelInvariant
  import opened ChannelFsm

  datatype ReadyHint = NotReady | ReadyNow | Poll | Hup | ReadyHup

  datatype IoHints = IoHints(readable: ReadyHint, writeable: ReadyHint, fd: int)

  /** crypto_get_input_ready_hint */
  function InputHint(s: Io): ReadyHint {
    if Pending(s.inState) then NotReady
    else if s.inState.Failed? && !s.inErr.SslCleanEof? then ReadyHup
    else ReadyNow
  }

  /** crypto_get_output_ready_hint */
  function OutputHint(s: Io): ReadyHint {
    if Pending(s.outState) then NotReady else if s.outState.Failed? then ReadyHup else ReadyNow
  }

  function ShutInputHint(how: ShutHow, phase: ShutPhase, s: Io): ReadyHint {
    if how.TwoWay? then
      if phase.ShutSuccess? then ReadyNow else NotReady
    else if phase.ShutSuccess? || phase.ShutFlushOut? then InputHint(s)
    else NotReady
  }

  /** How the states answer CHECK_IO. */
  function CheckIo(c: Chan): IoHints {
    match c.leaf
    case PlainTcp => IoHints(Poll, Poll, c.desc.fd)
    case PlainShut => IoHints(Poll, Poll, c.desc.fd)
    case PlainFail => IoHints(Hup, Hup, NO_FD)
    case CryptoFail => IoHints(Hup, Hup, NO_FD)
    case CryptoSsl => IoHints(InputHint(c.io), OutputHint(c.io), c.desc.fd)
    case CryptoReneg => IoHints(if BytesReady(c.io) > 0 then ReadyNow else NotReady, NotReady, c.desc.fd)
    case CryptoShut =>
      var writeable := if c.shutPhase.ShutSuccess? then ReadyNow else NotReady;
      IoHints(ShutInputHint(c.shutHow, c.shutPhase, c.io), writeable, c.desc.fd)
    case _ => IoHints(NotReady, NotReady, NO_FD)
  }

  /** What a hint announces about one direction, whose condition is `flag`. */
  function Announced(hint: ReadyHint, flag: GioFlag): GioCond {
    match hint
    case ReadyNow => {flag}
    case Hup => {IoHup}
    case ReadyHup => {flag, IoHup}
    case _ => {}
  }

  function Suppressed(hint: ReadyHint, flag: GioFlag): GioCond {
    if hint.NotReady? then {flag} else {}
  }

  datatype Readiness = Readiness(fd: int, isClosed: bool, pollCond: GioCond, readyCond: GioCond)

  /** psl_chan_do_io_readiness_preflight, as a value. */
  function Preflighted(c: Chan, monCond: GioCond): Readiness {
    if monCond == {} then Readiness(NO_FD, c.desc.closed, {}, {})
    else if c.desc.closed then Readiness(NO_FD, true, {}, {IoNval})
    else
      var h, allowed := CheckIo(c), monCond + FAIL_CONDITIONS;
      var ready := (Announced(h.readable, IoIn) + Announced(h.writeable, IoOut)) * allowed;
      var suppressed := Suppressed(h.readable, IoIn) + Suppressed(h.writeable, IoOut);
      var poll := if h.fd >= 0 then allowed - (ready + suppressed) else {};
      Readiness(h.fd, false, poll, ready)
  }

  /** A hint to poll always comes with a descriptor. */
  lemma PollHasDescriptor(c: Chan)
    requires Inv(c)
    ensures CheckIo(c).readable.Poll? || CheckIo(c).writeable.Poll? ==> CheckIo(c).fd >= 0
  {
    hide IoInv, DescInv, CallsInv, RefsInv, InputHint, OutputHint;
  }

  /**
   Only what is asked for, or a failure, is announced or polled, never both; only an open
   descriptor is polled; a closed channel announces G_IO_NVAL.
   */
  lemma PreflightIsProper(c: Chan, monCond: GioCond)
    requires Inv(c)
    ensures var r := Preflighted(c, monCond);
            && r.readyCond + r.pollCond <= monCond + FAIL_CONDITIONS && r.readyCond !! r.pollCond
            && (r.pollCond != {} ==> r.fd == c.desc.fd >= 0 && !r.isClosed)
            && (c.desc.closed && monCond != {} ==> r.readyCond == {IoNval})
  {
    hide IoInv, DescInv, CallsInv, RefsInv, InputHint, OutputHint, Inv;
    PolledIsOpen(c);
  }

  lemma PolledIsOpen(c: Chan)
    requires Inv(c)
    ensures CheckIo(c).fd >= 0 ==> CheckIo(c).fd == c.desc.fd
  {
    hide IoInv, DescInv, CallsInv, RefsInv, InputHint, OutputHint;
  }

  /**
   In CRYPTO_SSL a direction is announced exactly when it does not wait, and never polled by the
   user's watch; a hang-up is announced exactly when a direction has failed, but for the end of
   file of the input.
   */
  lemma EstablishedAnnounces(c: Chan, monCond: GioCond)
    requires Inv(c) && c.leaf.CryptoSsl? && monCond != {}
    ensures var r := Preflighted(c, monCond);
            && (IoIn in r.readyCond <==> IoIn in monCond && !Pending(c.io.inState))
            && (IoOut in r.readyCond <==> IoOut in monCond && !Pending(c.io.outState))
            && (IoHup in r.readyCond <==> (c.io.inState.Failed? && !c.io.inErr.SslCleanEof?) || c.io.outState.Failed?)
            && r.pollCond == monCond + {IoErr, IoHup, IoNval} - {IoIn, IoOut} - r.readyCond
  {
    hide IoInv, DescInv, CallsInv, RefsInv;
  }

  /**
   What each state makes of the conditions that are monitored: the connected plain states leave
   them all to the poll, failed ones announce a hang-up, connecting ones nothing.
   */
  lemma StatesAnnounce(c: Chan, monCond: GioCond)
    requires Inv(c) && monCond != {}
    ensures var r := Preflighted(c, monCond);
            && (c.leaf.PlainTcp? || c.leaf.PlainShut? ==>
                  r == Readiness(c.desc.fd, false, monCond + {IoErr, IoHup, IoNval}, {}))
            && (c.leaf.PlainFail? || c.leaf.CryptoFail? ==> r.readyCond == {IoHup} && r.pollCond == {})
            && (c.leaf.Init? || c.leaf.Lookup? || c.leaf.PlainConn? || c.leaf.CryptoConn? ==>
                  r.readyCond == {} && r.pollCond == {})
            && (c.leaf.Closed? || c.leaf.Final? ==> r.isClosed && r.readyCond == {IoNval} && r.pollCond == {})
  {
    hide IoInv, DescInv, CallsInv, RefsInv, InputHint, OutputHint, ShutInputHint;
  }

  /** While renegotiating only octets that are there already are announced. */
  lemma RenegotiatingAnnounces(c: Chan, monCond: GioCond)
    requires Inv(c) && c.leaf.CryptoReneg? && monCond != {}
    ensures var r := Preflighted(c, monCond);
            && r.readyCond == (if IoIn in monCond && (c.io.ssl.pending > 0 || c.io.held) then {IoIn} else {})
            && r.pollCond == monCond - {IoIn, IoOut} + {IoErr, IoHup, IoNval}
  {
    hide IoInv, DescInv, CallsInv, RefsInv;
  }

  /**
   While shutting down writing is announced after success only; reading after a two-way success,
   or one way, while flushing and after success, when the input does not wait.
   */
  lemma ShuttingAnnounces(c: Chan, monCond: GioCond)
    requires Inv(c) && c.leaf.CryptoShut? && monCond != {}
    ensures var r := Preflighted(c, monCond);
            && (IoOut in r.readyCond <==> IoOut in monCond && c.shutPhase.ShutSuccess?)
            && (IoIn in r.readyCond <==>
                  && IoIn in monCond
                  && if c.shutHow.TwoWay? then c.shutPhase.ShutSuccess?
                     else (c.shutPhase.ShutSuccess? || c.shutPhase.ShutFlushOut?) && !Pending(c.io.inState))
            && (IoHup in r.readyCond <==>
                  && c.shutHow.OneWay? && (c.shutPhase.ShutSuccess? || c.shutPhase.ShutFlushOut?)
                  && c.io.inState.Failed? && !c.io.inErr.SslCleanEof?)
            && r.pollCond == monCond + {IoErr, IoHup, IoNval} - {IoIn, IoOut} - r.readyCond
  {
    hide IoInv, DescInv, CallsInv, RefsInv;
  }

  /** psl_chan_do_io_readiness_preflight, bit by bit. */
  method DoPreflight(ch: Fsm, monCond: GioCond) returns (r: Readiness)
    requires ch.Valid() && Inv(ch.View())
    ensures r == Preflighted(ch.View(), monCond)
  {
    hide CheckIo, Inv, ch.io.Abs;
    var pollCond: GioCond, readyCond: GioCond := {}, {};
    var isClosed := ch.fsmClosed;
    if monCond == {} {
      return Readiness(NO_FD, isClosed, {}, {});
    }
    if isClosed {
      readyCond := {IoNval};
      return Readiness(NO_FD, isClosed, pollCond, readyCond);
    }
    var suppressMonCond: GioCond := {};
    var allowIndCond := monCond + FAIL_CONDITIONS;
    var hints := DispatchCheckIo(ch);
    match hints.readable {
      case ReadyNow => readyCond := readyCond + {IoIn};
      case NotReady => suppressMonCond := suppressMonCond + {IoIn};
      case Poll =>
      case Hup => readyCond := readyCond + {IoHup};
      case ReadyHup => readyCond := readyCond + {IoIn, IoHup};
    }
    assert readyCond == Announced(hints.readable, IoIn) && suppressMonCond == Suppressed(hints.readable, IoIn);
    match hints.writeable {
      case ReadyNow => readyCond := readyCond + {IoOut};
      case NotReady => suppressMonCond := suppressMonCond + {IoOut};
      case Poll =>
      case Hup => readyCond := readyCond + {IoHup};
      case ReadyHup => readyCond := readyCond + {IoOut, IoHup};
    }
    assert readyCond == Announced(hints.readable, IoIn) + Announced(hints.writeable, IoOut);
    assert suppressMonCond == Suppressed(hints.readable, IoIn) + Suppressed(hints.writeable, IoOut);
    readyCond := readyCond * allowIndCond;
    if hints.fd >= 0 {
      pollCond := allowIndCond - (readyCond + suppressMonCond);
      assert pollCond == Preflighted(ch.View(), monCond).pollCond;
    } else {
      PollHasDescriptor(ch.View());
      assert hints.readable != Poll && hints.writeable != Poll;
    }
    r := Readiness(hints.fd, isClosed, pollCond, readyCond);
  }

  method InputReadyHint(io: CryptoIo) returns (h: ReadyHint)
    requires io.Valid()
    ensures h == InputHint(io.Abs())
  {
    h := ReadyNow;
    match io.inState
    case Idle =>
    case Failed =>
      if !io.inErr.SslCleanEof? {
        h := ReadyHup;
      }
    case _ => h := NotReady;
  }

  method OutputReadyHint(io: CryptoIo) returns (h: ReadyHint)
    requires io.Valid()
    ensures h == OutputHint(io.Abs())
  {
    match io.outState
    case Idle => h := ReadyNow;
    case Failed => h := ReadyHup;
    case _ => h := NotReady;
  }

  /** The READ side of CRYPTO_SHUT's answer. */
  method ShutReadyHint(ch: Fsm) returns (h: ReadyHint)
    requires ch.Valid()
    ensures h == ShutInputHint(ch.shutHow, ch.shutPhase, ch.View().io)
  {
    hide InputHint, ch.io.Abs;
    h := NotReady;
    if ch.shutHow == TwoWay {
      if ch.shutPhase == ShutSuccess {
        h := ReadyNow;
      }
    } else if ch.shutPhase == ShutSuccess || ch.shutPhase == ShutFlushOut {
      h := InputReadyHint(ch.io);
    }
  }

  /** CHECK_IO: the state that answers it changes nothing. */
  method DispatchCheckIo(ch: Fsm) returns (h: IoHints)
    requires ch.Valid() && Inv(ch.View())
    ensures h == CheckIo(ch.View())
  {
    hide Inv, InputHint, OutputHint, ShutInputHint, BytesReady, ch.io.Abs;
    h := IoHints(NotReady, NotReady, NO_FD);
    var readable, writeable := NotReady, NotReady;
    match ch.leaf
    case PlainTcp => h := IoHints(Poll, Poll, ch.io.fd);
    case PlainShut => h := IoHints(Poll, Poll, ch.io.fd);
    case PlainFail => h := IoHints(Hup, Hup, NO_FD);
    case CryptoFail => h := IoHints(Hup, Hup, NO_FD);
    case CryptoSsl =>
      readable := InputReadyHint(ch.io);
      writeable := OutputReadyHint(ch.io);
      h := IoHints(readable, writeable, ch.io.fd);
    case CryptoReneg =>
      var ready := ch.io.TotalInputBytesReady();
      h := IoHints(if ready > 0 then ReadyNow else NotReady, NotReady, ch.io.fd);
    case CryptoShut =>
      ShutNotFailed(ch.View());
      assert ch.shutPhase != ShutFailed;
      readable := ShutReadyHint(ch);
      if ch.shutPhase.ShutSuccess? {
        writeable := ReadyNow;
      }
      h := IoHints(readable, writeable, ch.io.fd);
    case _ =>
  }

  lemma ShutNotFailed(c: Chan)
    requires Inv(c) && c.leaf.CryptoShut?
    ensures !c.shutPhase.ShutFailed?
  {
    hide DescInv, CallsInv, RefsInv;
  }

  /** PmSockWatch */
  class ChannelWatch {
    const channel: Fsm
    const conditions: GioCond
    var fd: int
    var events: GioCond
    var revents: GioCond
    var pollAdded: bool

    constructor (channel: Fsm, conditions: GioCond)
      ensures this.channel == channel && this.conditions == conditions && !pollAdded && events == {}
    {
      this.channel, this.conditions := channel, conditions;
      fd, events, revents, pollAdded := NO_FD, {}, {}, false;
    }

    /** chan_watch_prepare: glib polls the descriptor exactly when there is something to poll for. */
    method Prepare() returns (isReadyNow: bool)
      requires channel.Valid() && Inv(channel.View())
      modifies this
      ensures var r := Preflighted(channel.View(), conditions);
              && events == r.pollCond && revents == {} && fd == r.fd && (pollAdded <==> r.pollCond != {})
              && (isReadyNow <==> r.readyCond != {})
    {
      hide Inv, Preflighted, channel.View, channel.Valid;
      events, revents := {}, {};
      var r := DoPreflight(channel, conditions);
      PreflightIsProper(channel.View(), conditions);
      fd := r.fd;
      events := r.pollCond;
      isReadyNow := r.readyCond != {};
      if events != {} && fd >= 0 {
        if !pollAdded {
          pollAdded := true;
        }
      } else {
        events := {};
        if pollAdded {
          pollAdded := false;
        }
      }
    }

    /** chan_watch_check_what_is_ready, asked again before the user is called. */
    method WhatIsReady() returns (cond: GioCond)
      requires channel.Valid() && Inv(channel.View())
      ensures var r := Preflighted(channel.View(), conditions);
              cond == r.readyCond + revents * r.pollCond && cond <= conditions + FAIL_CONDITIONS
    {
      hide Inv, Preflighted, channel.io.Abs;
      var r := DoPreflight(channel, conditions);
      PreflightIsProper(channel.View(), conditions);
      cond := r.readyCond + revents * r.pollCond;
    }
  }
}
