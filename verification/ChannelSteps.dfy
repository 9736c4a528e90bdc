/** Every step of the channel state machine keeps its invariant. */
module ChannelSteps {
  import opened Common
  import opened SslOracle
  import opened DeferredIo
  import opened DeferredIoProofs
  import opened CryptoRest
  import opened ChannelState
  import opened ChannelInvariant
  import opened ChannelProofs
  import opened ChannelTransitions
  import opened ChannelFrames

  /** What the callers of the dispatcher see to. */
  predicate Proper(c: Chan, e: Event, env: Env, pending: bool) {
    && env.Plausible() && !c.leaf.Final? && Owed(c.calls, CbOf(e))
    && (e.EvShutCrypto? ==> LegacyTwoWay(e.how, e.cb))
    && (e.EvLookupDone? && e.result.LookupFails? ==> e.result.err.IsFatal())
    && (e.EvFdWatch? ==> pending && WatchFires(c.io, e.revents))
    && (e.EvFinalize? ==> c.desc.closed)
  }

  lemma OnLeafHolds(c: Chan, e: Event, env: Env, pending: bool)
    requires Rests(c, pending) && Proper(c, e, env, pending)
    ensures Holds(OnLeaf(c, e, env).c, pending)
  {
    hide Holds, OnInit, OnLookup, OnPlainConn, OnPlainTcp, OnCryptoConn, OnCryptoSsl, OnCryptoReneg, OnCryptoShut,
      WasFired;
    match c.leaf
    case Init => OnInitHolds(c, e, pending);
    case Lookup => OnLookupHolds(c, e, pending);
    case PlainConn => OnPlainConnHolds(c, e, env, pending);
    case PlainTcp => OnPlainTcpHolds(c, e, env, pending);
    case CryptoConn => OnCryptoConnHolds(c, e, env, pending);
    case CryptoSsl => OnCryptoSslHolds(c, e, pending);
    case CryptoReneg => OnCryptoRenegHolds(c, e, pending);
    case CryptoShut => OnCryptoShutHolds(c, e, pending);
    case _ =>
  }

  /** The enclosing states handle what the leaf passed on. */
  lemma OnOuterHolds(c: Chan, e: Event, env: Env, pending: bool)
    requires Rests(c, pending) && Proper(c, e, env, pending)
    ensures Holds(OnMode(c, e, env).c, pending) && Holds(OnAlive(c, e).c, pending)
  {
    hide Holds, GoTo, WasFired, ShutSock;
    if c.leaf.InCrypto() && e.EvShutSock? {
      ShutSockHolds(c, env, pending);
    }
    if e.EvClose? {
      RestGoes(c, ToClosed, pending);
    } else if e.EvFinalize? {
      RestGoes(c, ToFinal, pending);
    }
  }

  lemma HandledHolds(c: Chan, e: Event, env: Env, pending: bool)
    requires Rests(c, pending) && Proper(c, e, env, pending)
    ensures Holds(Handled(c, e, env).c, pending)
  {
    hide Holds, OnLeaf, OnMode, OnAlive, WasFired;
    OnLeafHolds(c, e, env, pending);
    OnOuterHolds(c, e, env, pending);
  }

  /** An event, run to completion, keeps the invariant. */
  lemma DispatchedHolds(c: Chan, e: Event, env: Env, pending: bool)
    requires Rests(c, pending) && Proper(c, e, env, pending)
    ensures var d := Dispatched(c, e, env).c; Holds(d, pending) && d.request.NoRequest?
  {
    hide Holds, Handled, Moved, WasFired;
    HandledHolds(c, e, env, pending);
    HandledFrames(c, e, env);
    HoldsFinal(c, pending);
    MovedHolds(Handled(c, e, env).c, env, pending);
  }

  lemma HoldsFinal(c: Chan, pending: bool)
    requires Holds(c, pending)
    ensures c.finalized <==> c.leaf.Final?
  {
  }

  // ---------------------------------------------------------------------------------------
  // The callbacks
  // ---------------------------------------------------------------------------------------

  lemma NotedHolds(c: Chan, e: Event)
    requires Inv(c) && IdsOf(CbOf(e)) !! c.calls.requested
    ensures Rests(Noted(c, CbOf(e)), false) && Owed(Noted(c, CbOf(e)).calls, CbOf(e))
  {
    hide DescInv, LeafDesc, LeafIo, LiveCb, CbOf, LeafRefs;
    var d := Noted(c, CbOf(e));
    assert LiveCb(d) == LiveCb(c) && LeafIo(d) && RefsInv(d) by {
      SameOutsideCalls(c, d);
    }
  }

  /** Apart from its calls the machine is the same. */
  lemma SameOutsideCalls(c: Chan, d: Chan)
    requires d == c.(calls := d.calls) && c.request.NoRequest?
    ensures LiveCb(d) == LiveCb(c) && (LeafIo(d) <==> LeafIo(c)) && (RefsInv(d) <==> RefsInv(c))
  {
    hide LeafIo, RefsInv;
    SameIo(c, d);
    SameRefs(c, d);
  }

  lemma SameIo(c: Chan, d: Chan)
    requires d == c.(calls := d.calls)
    ensures LeafIo(d) <==> LeafIo(c)
  {
    hide Sound, ConnRest, SslRest, RenegRest, ShutRest, NothingWatched, Unwatched;
  }

  lemma SameRefs(c: Chan, d: Chan)
    requires d == c.(calls := d.calls)
    ensures RefsInv(d) <==> RefsInv(c)
  {
    hide RequestRefs, ArgRefs;
    assert LeafRefs(d) == LeafRefs(c) && SslRefs(d) == SslRefs(c);
  }

  /** Only the calls changed. */
  lemma CallsChange(c: Chan, d: Chan, was: bool, pending: bool)
    requires Holds(c, was) && c.request.NoRequest? && d == c.(calls := d.calls) && CallsInv(d.calls, LiveCb(c), pending)
    ensures Holds(d, pending)
  {
    hide DescInv, LeafDesc, LeafIo, LiveCb, RefsInv, CallsInv;
    SameOutsideCalls(c, d);
  }

  lemma CalledKeeps(k: Calls, live: Cb, cb: Cb, err: PslError)
    requires FiredOnce(k) && Owed(k, live) && Owed(k, cb) && (live.Cb? && cb.Cb? ==> live.id != cb.id) && cb.Cb?
    requires k.slot.Cb? ==> k.inFdWatchCb
    ensures CallsInv(k.(fired := k.fired + [Firing(cb.id, err)]), live, false)
  {
    var k' := k.(fired := k.fired + [Firing(cb.id, err)]);
    forall i, j | 0 <= i < j < |k'.fired| ensures k'.fired[i].id != k'.fired[j].id {
      if j == |k.fired| {
        assert k.fired[i].id != cb.id;
      }
    }
    forall i | 0 <= i < |k'.fired| && live.Cb? ensures k'.fired[i].id != live.id {
    }
  }

  /** A callback that is owed is made, unless the machine is closed. */
  lemma CalledHolds(c: Chan, was: bool, cb: Cb, err: PslError)
    requires Holds(c, was) && c.request.NoRequest? && Owed(c.calls, cb)
    requires LiveCb(c).Cb? && cb.Cb? ==> LiveCb(c).id != cb.id
    ensures Inv(Called(c, cb, err))
  {
    hide DescInv, LeafDesc, LeafIo, LiveCb, RefsInv, WasFired;
    if !c.desc.closed && cb.Cb? {
      CalledKeeps(c.calls, LiveCb(c), cb, err);
    }
    CallsChange(c, Called(c, cb, err), was, false);
  }

  /** The slot and the mark of being called back do not matter to what was made and is owed. */
  lemma SlotChanges(k: Calls, k': Calls, live: Cb, was: bool, pending: bool)
    requires CallsInv(k, live, was) && k'.fired == k.fired && k'.requested == k.requested
    requires (k'.slot.Cb? ==> k'.inFdWatchCb) && (pending ==> k'.slot.NoCb?)
    ensures CallsInv(k', live, pending)
  {
    assert forall id: nat :: WasFired(k', id) <==> WasFired(k, id);
  }

  lemma WatchStarts(c: Chan)
    requires Inv(c) && !c.calls.inFdWatchCb
    ensures Rests(c.(calls := c.calls.(inFdWatchCb := true)), true)
  {
    hide DescInv, LeafDesc, LeafIo, LiveCb, RefsInv, WasFired, FiredOnce;
    SlotChanges(c.calls, c.calls.(inFdWatchCb := true), LiveCb(c), false, true);
    CallsChange(c, c.(calls := c.calls.(inFdWatchCb := true)), false, true);
  }

  lemma WatchReturnsHolds(c: Chan, was: bool)
    requires Holds(c, was) && c.request.NoRequest?
    ensures Inv(WatchReturned(c))
  {
    hide DescInv, LeafDesc, LeafIo, LiveCb, RefsInv, WasFired, FiredOnce;
    SlotChanges(c.calls, WatchReturned(c).calls, LiveCb(c), was, false);
    CallsChange(c, WatchReturned(c), was, false);
  }

  lemma WatchCalledHolds(c: Chan, revents: Option<GioCond>, env: Env)
    requires Inv(c) && Enabled(c, WatchReady(revents, env))
    ensures Inv(WatchCalled(c, revents, env))
  {
    hide Dispatched, Holds, Called, WatchReturned, WasFired;
    var c1 := c.(calls := c.calls.(inFdWatchCb := true));
    WatchStarts(c);
    DispatchedHolds(c1, EvFdWatch(revents), env, true);
    var d := Dispatched(c1, EvFdWatch(revents), env).c;
    HoldsOwed(d);
    if d.calls.slot.Cb? {
      CalledHolds(d, true, d.calls.slot, d.calls.slotErr);
    } else {
      WatchReturnsHolds(d, true);
    }
  }

  lemma HoldsOwed(c: Chan)
    requires Holds(c, true)
    ensures Owed(c.calls, c.calls.slot) && (LiveCb(c).Cb? && c.calls.slot.Cb? ==> LiveCb(c).id != c.calls.slot.id)
  {
    hide DescInv, LeafDesc, IoInv, LiveCb, RefsInv, WasFired, FiredOnce;
  }

  // ---------------------------------------------------------------------------------------
  // The end of a lookup
  // ---------------------------------------------------------------------------------------

  /** A failed lookup leads to the failed state, which owes nothing; the lookup's callback is kept until it is made. */
  lemma LookupFailsTo(c: Chan, err: PslError, env: Env)
    requires c.leaf.Lookup? && c.request.NoRequest?
    ensures var d := Dispatched(c, EvLookupDone(LookupFails(err)), env).c;
            d.leaf.PlainFail? && d.calls == c.calls && d.lookup == c.lookup && LiveCb(d).NoCb? && d.request.NoRequest?
  {
    hide Moved;
    var c1 := GoTo(c, ToPlainFail(err));
    assert Handled(c, EvLookupDone(LookupFails(err)), env).c == c1;
    MovedCalls(c1, env);
    MovedToFail(c1, env);
  }

  lemma MovedToFail(c: Chan, env: Env)
    requires c.request.ToPlainFail?
    ensures Moved(c, env).lookup == c.lookup
  {
    hide Passage;
    PassageDoes(c, PlainFail);
  }

  lemma LookupCalledHolds(c: Chan, result: LookupResult, env: Env)
    requires Inv(c) && Enabled(c, LookupEnds(result, env))
    ensures Inv(LookupCalled(c, result, env))
  {
    hide Dispatched, Holds, Called, WasFired;
    RestsOwes(c);
    DispatchedHolds(c, EvLookupDone(result), env, false);
    if result.LookupFails? {
      LookupFailsTo(c, result.err, env);
      CalledHolds(Dispatched(c, EvLookupDone(result), env).c, false, c.lookup.cb, result.err);
    }
  }

  lemma RestsOwes(c: Chan)
    requires Inv(c)
    ensures Rests(c, false) && Owed(c.calls, LeafCb(c))
  {
  }

  // ---------------------------------------------------------------------------------------
  // All steps
  // ---------------------------------------------------------------------------------------

  lemma FinalizedHolds(c: Chan, env: Env)
    requires Inv(c) && Enabled(c, Finalizes(env))
    ensures Inv(Finalized(c, env)) && Finalized(c, env).leaf.Final?
  {
    hide Dispatched, Holds, WasFired;
    var d := if c.desc.closed then c else Dispatched(c, EvClose, env).c;
    if !c.desc.closed {
      DispatchedHolds(c, EvClose, env, false);
      ClosesTo(c, env);
    }
    InvClosed(d);
    DispatchedHolds(d, EvFinalize, env, false);
    FinalizesTo(d, env);
  }

  lemma InvClosed(c: Chan)
    requires Inv(c)
    ensures c.desc.closed <==> c.leaf.Closed? || c.leaf.Final?
  {
  }

  /** CLOSE is taken by the root, from every state. */
  lemma ClosesTo(c: Chan, env: Env)
    requires c.request.NoRequest?
    ensures Dispatched(c, EvClose, env).c.leaf.Closed? && Dispatched(c, EvClose, env).c.calls == c.calls
  {
    hide Moved;
    assert Handled(c, EvClose, env).c == GoTo(c, ToClosed);
    MovedCalls(GoTo(c, ToClosed), env);
  }

  lemma FinalizesTo(c: Chan, env: Env)
    requires c.request.NoRequest?
    ensures Dispatched(c, EvFinalize, env).c.leaf.Final? && Dispatched(c, EvFinalize, env).c.calls == c.calls
  {
    hide Moved;
    assert Handled(c, EvFinalize, env).c == GoTo(c, ToFinal);
    MovedCalls(GoTo(c, ToFinal), env);
  }

  /** Whatever happens to the machine keeps the invariant. */
  lemma AfterHolds(c: Chan, step: Step)
    requires Inv(c) && Enabled(c, step)
    ensures Inv(After(c, step))
  {
    hide Dispatched, Holds, WatchCalled, LookupCalled, Finalized, Noted, WatchReturned, WasFired;
    match step
    case UserCall(e, env) =>
      NotedHolds(c, e);
      NotedProper(c, e, env);
      DispatchedHolds(Noted(c, CbOf(e)), e, env, false);
    case WatchReady(revents, env) => WatchCalledHolds(c, revents, env);
    case WatchReturns => WatchReturnsHolds(c, false);
    case LookupEnds(result, env) => LookupCalledHolds(c, result, env);
    case Finalizes(env) => FinalizedHolds(c, env);
  }

  lemma NotedProper(c: Chan, e: Event, env: Env)
    requires Enabled(c, UserCall(e, env)) && Owed(Noted(c, CbOf(e)).calls, CbOf(e))
    ensures Proper(Noted(c, CbOf(e)), e, env, false)
  {
  }
}
