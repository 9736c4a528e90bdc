/**
 The host-lookup session.  c-ares answers synchronously from inside our own calls: every call
 takes the next list of callbacks from `script`, so that a statement about all scripts is one
 about every behaviour of c-ares; while a query is `outstanding` it may complete it.  The user
 may ask for the session's destruction from its callback or at any other time.  The session's
 memory is an option: once freed it is `None`, and nothing can be read from it.  What c-ares and
 glib hold of a session is kept apart from its memory, so that a source left attached to a freed
 session would fire and find nothing.
 */
module HostLookup {
  import opened Common

  datatype LookupState = Initializing | Initialized | Running | Finished | Destroying

  /** What c-ares calls from inside one of our calls; `destroys`: the user asks for destruction meanwhile. */
  datatype AresCallback = SockState(fd: int, readable: bool, writable: bool) | HostDone(failed: bool, destroys: bool)

  datatype WatchSource = WatchSource(fds: map<int, GioCond>, timeout: int)

  /** The session's memory; the three flags are its pointers to what lives outside. */
  datatype Memory = Memory(
    lookupState: LookupState, aresChan: bool, multiFdWatch: bool, queryStarter: bool,
    inAresHostCallbackCnt: int, needDestroy: bool, aresHostCbWasCalled: bool)

  /** What c-ares and the main loop hold: the c-ares channel, a query it works on, the two attached sources. */
  datatype Outside = Outside(ares: bool, outstanding: bool, watch: Option<WatchSource>, idle: bool)

  const NOTHING := Outside(false, false, None, false)

  /** The user has the session until asking for its destruction, and starts it once. */
  datatype UserSide = UserSide(holds: bool, started: bool)

  datatype PollRec = PollRec(fd: int, reqEvents: GioCond, indEvents: GioCond)

  // ---------------------------------------------------------------------------------------
  // What is done to the outside, in order
  // ---------------------------------------------------------------------------------------

  datatype Effect =
    | UserCalled(ok: bool) | DestroyAsked
    | WatchCreated | AresCreated | IdleAttached | AresDestroyed | WatchDestroyed | IdleDetached
    | Freed

  /** What was done, the last effect outermost. */
  datatype Log = Nothing | Then(before: Log, last: Effect)

  /** What was done so far, in whatever order. */
  function Did(log: Log): set<Effect> {
    match log
    case Nothing => {}
    case Then(before, e) => Did(before) + {e}
  }

  /** Everything done was done in its time. */
  predicate Orderly(log: Log) {
    match log
    case Nothing => true
    case Then(before, e) => Orderly(before) && MayFollow(Did(before), e)
  }

  /**
   The user is called at most once and never after asking for destruction.  c-ares lives within
   the life of its watch; each is made and destroyed at most once.  The session is freed once,
   after everything made for it is gone, and nothing comes after that.
   */
  predicate MayFollow(did: set<Effect>, e: Effect) {
    && Freed !in did
    && match e
       case UserCalled(_) => UserCalled(true) !in did && UserCalled(false) !in did && DestroyAsked !in did
       case AresCreated => AresCreated !in did && WatchCreated in did && WatchDestroyed !in did
       case AresDestroyed => AresCreated in did && AresDestroyed !in did && WatchDestroyed !in did
       case WatchDestroyed => WatchCreated in did && WatchDestroyed !in did
         && (AresCreated in did ==> AresDestroyed in did)
       case IdleDetached => IdleAttached in did && IdleDetached !in did
       case Freed => Cleared(did)
       case _ => e !in did
  }

  /** Whatever was made is gone. */
  predicate Cleared(did: set<Effect>) {
    && (AresCreated in did ==> AresDestroyed in did) && (WatchCreated in did ==> WatchDestroyed in did)
    && (IdleAttached in did ==> IdleDetached in did)
  }

  /** What was done before `e`. */
  function Until(log: Log, e: Effect): (before: Log)
    ensures Did(before) <= Did(log) && e !in Did(before)
  {
    match log
    case Nothing => Nothing
    case Then(before, last) => if last == e && e !in Did(before) then before else Until(before, e)
  }

  lemma {:induction false} UntilWasOrderly(log: Log, e: Effect)
    requires Orderly(log) && e in Did(log)
    ensures Orderly(Until(log, e)) && MayFollow(Did(Until(log, e)), e)
  {
    if !(log.last == e && e !in Did(log.before)) {
      UntilWasOrderly(log.before, e);
    }
  }

  /**
   When the session is freed its c-ares channel, if there was one, was destroyed, and that before
   the watch was; no source is left; and the freeing is the last thing done.
   */
  lemma FreedAfterTeardown(log: Log)
    requires Orderly(log) && Freed in Did(log)
    ensures log == Then(Until(log, Freed), Freed) && Cleared(Did(Until(log, Freed)))
    ensures AresCreated in Did(log) ==> AresDestroyed in Did(Until(log, WatchDestroyed)) && WatchDestroyed in Did(log)
  {
    if AresCreated in Did(log) {
      UntilWasOrderly(log, AresCreated);
      UntilWasOrderly(log, WatchDestroyed);
      UntilWasOrderly(log, AresDestroyed);
      EarlierOrLater(log, AresDestroyed, WatchDestroyed);
    }
  }

  /** Of two effects one came first. */
  lemma {:induction false} EarlierOrLater(log: Log, a: Effect, b: Effect)
    requires a in Did(log) && b in Did(log) && a != b
    ensures a in Did(Until(log, b)) || b in Did(Until(log, a))
  {
    if a in Did(log.before) && b in Did(log.before) {
      EarlierOrLater(log.before, a, b);
    }
  }

  /** What was done and what is there outside agree. */
  predicate Accounted(did: set<Effect>, live: Outside) {
    && (live.ares <==> AresCreated in did && AresDestroyed !in did)
    && (live.watch.Some? <==> WatchCreated in did && WatchDestroyed !in did)
    && (live.idle <==> IdleAttached in did && IdleDetached !in did)
  }

  /** What taking down c-ares and the watch, as far as they are there, adds to the log. */
  function TornDown(log: Log, live: Outside): (after: Log)
    ensures Did(log) <= Did(after)
  {
    var log1 := if live.ares then Then(log, AresDestroyed) else log;
    if live.watch.Some? then Then(log1, WatchDestroyed) else log1
  }

  // ---------------------------------------------------------------------------------------
  // What c-ares is given to process
  // ---------------------------------------------------------------------------------------

  /** One ares_process_fd: its two descriptors, and whether the lookup was over after it. */
  datatype Feed = Feed(readFd: int, writeFd: int, over: bool)

  /** The descriptor is readable for c-ares: asked for, and indicated or failing in some way. */
  predicate ToRead(rec: PollRec) {
    && IoIn in rec.reqEvents
    && (IoIn in rec.indEvents || IoPri in rec.indEvents || IoErr in rec.indEvents || IoHup in rec.indEvents
        || IoNval in rec.indEvents)
  }

  predicate ToWrite(rec: PollRec) {
    && IoOut in rec.reqEvents
    && (IoOut in rec.indEvents || IoPri in rec.indEvents || IoErr in rec.indEvents || IoHup in rec.indEvents
        || IoNval in rec.indEvents)
  }

  predicate HasSomething(rec: PollRec) {
    (ToRead(rec) || ToWrite(rec)) && rec.fd != ARES_SOCKET_BAD
  }

  /** The records with something to process, in order. */
  function Worthwhile(recs: seq<PollRec>): (out: seq<PollRec>)
    ensures |out| <= |recs| && forall i :: 0 <= i < |out| ==> HasSomething(out[i])
  {
    if recs == [] then []
    else
      var front := Worthwhile(recs[..|recs| - 1]);
      if HasSomething(recs[|recs| - 1]) then front + [recs[|recs| - 1]] else front
  }

  /** The call is that of the record. */
  predicate Feeds(feed: Feed, rec: PollRec) {
    && feed.readFd == (if ToRead(rec) then rec.fd else ARES_SOCKET_BAD)
    && feed.writeFd == (if ToWrite(rec) then rec.fd else ARES_SOCKET_BAD)
  }

  /** The calls so far are those of the first records worth it; none ended the lookup. */
  predicate FedAll(fed: seq<Feed>, recs: seq<PollRec>) {
    && |fed| == |Worthwhile(recs)|
    && forall i :: 0 <= i < |fed| ==> Feeds(fed[i], Worthwhile(recs)[i]) && !fed[i].over
  }

  /**
   The calls made for `recs`: one for each record worth it, in order, up to the one that ended
   the lookup; without such a record one call without descriptors.
   */
  predicate FedFor(fed: seq<Feed>, recs: seq<PollRec>) {
    var all := Worthwhile(recs);
    if all == [] then |fed| == 1 && fed[0].readFd == ARES_SOCKET_BAD && fed[0].writeFd == ARES_SOCKET_BAD
    else
      && 0 < |fed| <= |all|
      && (forall i :: 0 <= i < |fed| ==> Feeds(fed[i], all[i]))
      && (forall i :: 0 <= i < |fed| - 1 ==> !fed[i].over)
      && (|fed| < |all| ==> fed[|fed| - 1].over)
  }

  lemma WorthwhileGrows(recs: seq<PollRec>, i: nat)
    requires i < |recs|
    ensures Worthwhile(recs[..i + 1]) == Worthwhile(recs[..i]) + if HasSomething(recs[i]) then [recs[i]] else []
  {
    assert recs[..i + 1][..i] == recs[..i];
  }

  lemma {:induction false} WorthwhilePrefix(recs: seq<PollRec>, i: nat)
    requires i <= |recs|
    ensures Worthwhile(recs[..i]) <= Worthwhile(recs)
    decreases |recs| - i
  {
    if i < |recs| {
      WorthwhileGrows(recs, i);
      WorthwhilePrefix(recs, i + 1);
    } else {
      assert recs[..i] == recs;
    }
  }

  /** The call that ended the lookup was that of the next record worth it. */
  lemma FedUpTo(fed: seq<Feed>, last: Feed, recs: seq<PollRec>, i: nat)
    requires i < |recs| && FedAll(fed, recs[..i]) && HasSomething(recs[i]) && Feeds(last, recs[i]) && last.over
    ensures FedFor(fed + [last], recs)
  {
    WorthwhileGrows(recs, i);
    WorthwhilePrefix(recs, i + 1);
  }

  lemma FedOver(fed: seq<Feed>, recs: seq<PollRec>, i: nat)
    requires i < |recs| && FedAll(fed, recs[..i]) && !HasSomething(recs[i])
    ensures FedAll(fed, recs[..i + 1])
  {
    WorthwhileGrows(recs, i);
  }

  lemma FedBegins(recs: seq<PollRec>)
    ensures FedAll([], recs[..0])
  {
  }

  /** Every record was gone through. */
  lemma FedEnds(fed: seq<Feed>, recs: seq<PollRec>, none: Feed)
    requires FedAll(fed, recs[..|recs|])
    ensures fed != [] ==> FedFor(fed, recs) && !fed[|fed| - 1].over
    ensures fed == [] && none.readFd == ARES_SOCKET_BAD && none.writeFd == ARES_SOCKET_BAD ==> FedFor([none], recs)
  {
    assert recs[..|recs|] == recs;
  }

  lemma FedFurther(fed: seq<Feed>, last: Feed, recs: seq<PollRec>, i: nat)
    requires i < |recs| && FedAll(fed, recs[..i]) && HasSomething(recs[i]) && Feeds(last, recs[i]) && !last.over
    ensures FedAll(fed + [last], recs[..i + 1])
  {
    WorthwhileGrows(recs, i);
  }

  const G_MAXINT := 0x7FFF_FFFF
  const ARES_SOCKET_BAD := -1

  /** psl_host_lookup_tv_to_millisec: the time left until the next c-ares deadline, or infinite. */
  function TvToMillisec(tv: Option<(nat, nat)>): (ms: int)
    ensures -1 <= ms <= G_MAXINT && (ms == -1 <==> tv.None?)
    ensures tv.Some? ==>
              var micros := tv.value.0 * 1_000_000 + tv.value.1;
              (ms < G_MAXINT ==> micros <= ms * 1000) && (ms > 0 ==> (ms - 1) * 1000 < micros)
  {
    match tv
    case None => -1
    case Some((sec, usec)) => Min(sec * 1000 + (usec + 999) / 1000, G_MAXINT)
  }

  /** What may change in the session while c-ares calls back from inside one of our calls. */
  predicate InsideCall(m: Memory, live: Outside, log: Log, m': Memory, live': Outside, log': Log) {
    && m' == m.(lookupState := m'.lookupState, needDestroy := m'.needDestroy,
       aresHostCbWasCalled := m'.aresHostCbWasCalled)
    && live' == live.(watch := live'.watch, outstanding := live'.outstanding) && live'.watch.Some?
    && (live'.outstanding ==> live.outstanding) && Did(log) <= Did(log')
    && (m'.lookupState == m.lookupState
       || (m.lookupState.Running? && m'.lookupState.Finished? && m'.aresHostCbWasCalled))
    && (!m.lookupState.Running? ==> log' == log && m'.needDestroy == m.needDestroy)
    && (m.needDestroy ==> m'.needDestroy) && (m.aresHostCbWasCalled ==> m'.aresHostCbWasCalled)
    && (m'.lookupState.Running? ==> m'.aresHostCbWasCalled == m.aresHostCbWasCalled)
  }

  class Session {
    var mem: Option<Memory>
    var live: Outside
    var user: UserSide
    var script: seq<seq<AresCallback>>
    ghost var log: Log
    ghost var fed: seq<Feed>

    /** The log is orderly and agrees with the memory, with what is there outside and with the user. */
    ghost predicate Logged()
      reads this
    {
      && Orderly(log) && Accounted(Did(log), live)
      && (Freed in Did(log) <==> mem.None?) && (DestroyAsked in Did(log) ==> !user.holds)
      && (mem.Some? ==>
           && (DestroyAsked in Did(log) ==> mem.value.needDestroy || mem.value.lookupState.Destroying?)
           && (UserCalled(true) in Did(log) || UserCalled(false) in Did(log) ==>
                 !mem.value.lookupState.Initialized? && !mem.value.lookupState.Running?))
    }

    /** The memory's pointers are right. */
    ghost predicate Linked()
      reads this
    {
      mem.Some? ==>
        && mem.value.aresChan == live.ares && mem.value.multiFdWatch == live.watch.Some?
           && mem.value.queryStarter == live.idle
    }

    /** The session while it is alive, also in the middle of one of our calls into c-ares. */
    ghost predicate Alive()
      reads this
    {
      && Logged() && Linked() && mem.Some?
      && var m := mem.value;
         && m.inAresHostCallbackCnt >= 0 && (m.aresChan ==> m.multiFdWatch)
         && (live.outstanding ==>
               m.aresChan && !m.aresHostCbWasCalled && (m.lookupState.Running? || m.lookupState.Destroying?))
         && (m.inAresHostCallbackCnt > 0 ==> m.lookupState.Finished?)
         && (m.queryStarter && !m.lookupState.Destroying? ==> m.lookupState.Running? && !m.aresHostCbWasCalled)
         && (m.lookupState.Initialized? || m.lookupState.Running? ==>
            m.aresChan && !m.aresHostCbWasCalled && !m.needDestroy)
         && (m.lookupState.Running? ==> (live.outstanding <==> !m.queryStarter))
         && (m.lookupState.Initialized? ==> IdleAttached !in Did(log) && IdleDetached !in Did(log) && !user.started)
         && (user.holds <==> !m.needDestroy && !m.lookupState.Initializing? && !m.lookupState.Destroying?)
         && (m.lookupState.Running? || m.lookupState.Finished? ==> user.started)
    }

    /** Between two callbacks of the main loop: freed with nothing left behind, or alive with no destruction owed. */
    ghost predicate AtRest()
      reads this
    {
      if mem.None? then Logged() && live == NOTHING && !user.holds
      else
        && Alive() && mem.value.inAresHostCallbackCnt == 0 && !mem.value.needDestroy
        && match mem.value.lookupState
           case Initialized => true
           case Running => true
           case Finished => mem.value.aresHostCbWasCalled && live == NOTHING
           case _ => false
    }

    ghost method Note(e: Effect)
      requires Orderly(log) && MayFollow(Did(log), e)
      modifies this`log
      ensures log == Then(old(log), e) && Orderly(log)
    {
      log := Then(log, e);
    }

    // -------------------------------------------------------------------------------------
    // Callbacks from c-ares
    // -------------------------------------------------------------------------------------

    /** psl_ares_sock_state_cb: the watch is always there when c-ares speaks of its sockets. */
    method SockStateCallback(fd: int, readable: bool, writable: bool)
      requires Alive() && mem.value.multiFdWatch
      modifies this`live
      ensures Alive() && live.watch.Some? && live == old(live).(watch := live.watch)
      ensures var condition: GioCond := (if readable then {IoIn} else {}) + (if writable then {IoOut} else {});
              var fds := old(live).watch.value.fds;
              live.watch.value.fds == if condition == {} then fds - {fd} else fds[fd := condition]
    {
      var condition: GioCond := if readable then {IoIn} else {};
      condition := condition + if writable then {IoOut} else {};
      var watch := live.watch.value;
      if condition != {} {
        watch := watch.(fds := watch.fds[fd := condition]);
      } else {
        watch := watch.(fds := watch.fds - {fd});
      }
      live := live.(watch := Some(watch));
    }

    /** psl_ares_host_callback: passed on to the user only while the lookup runs. */
    method HostCallback(failed: bool, destroys: bool)
      requires Alive() && live.outstanding && mem.value.inAresHostCallbackCnt == 0
      modifies this`mem, this`log, this`live, this`user
      ensures Alive() && !live.outstanding && InsideCall(old(mem).value, old(live), old(log), mem.value, live, log)
      ensures user == old(user).(holds := user.holds) && (!old(mem).value.lookupState.Running? ==> user == old(user))
      ensures old(mem).value.lookupState.Running? ==>
                log == if destroys then Then(Then(old(log), UserCalled(!failed)), DestroyAsked)
                  else Then(old(log), UserCalled(!failed))
    {
      assert !mem.value.aresHostCbWasCalled;
      live := live.(outstanding := false);
      mem := Some(mem.value.(aresHostCbWasCalled := true));
      if mem.value.lookupState != Running || mem.value.needDestroy {
        return;
      }
      mem := Some(mem.value.(inAresHostCallbackCnt := mem.value.inAresHostCallbackCnt + 1, lookupState := Finished));
      Note(UserCalled(!failed));
      if destroys {
        DestroyFromCallback();
      }
      mem := Some(mem.value.(inAresHostCallbackCnt := mem.value.inAresHostCallbackCnt - 1));
    }

    /** PmSockHostLookupDestroy, called from the user's callback: put off until the calls have unwound. */
    method DestroyFromCallback()
      requires Alive() && mem.value.inAresHostCallbackCnt > 0 && DestroyAsked !in Did(log)
      modifies this`mem, this`log, this`user
      ensures Alive() && user == old(user).(holds := false) && mem.value == old(mem).value.(needDestroy := true)
      ensures log == Then(old(log), DestroyAsked)
    {
      user := user.(holds := false);
      mem := Some(mem.value.(needDestroy := true));
      Note(DestroyAsked);
    }

    /** What c-ares calls back from inside one call. */
    method CalledBack()
      requires Alive() && mem.value.multiFdWatch && mem.value.inAresHostCallbackCnt == 0
      modifies this
      ensures fed == old(fed)
      ensures Alive() && InsideCall(old(mem).value, old(live), old(log), mem.value, live, log)
      ensures user == old(user).(holds := user.holds) && (!old(mem).value.lookupState.Running? ==> user == old(user))
    {
      if script == [] {
        return;
      }
      var calls := script[0];
      script := script[1..];
      for i := 0 to |calls|
        invariant fed == old(fed)
        invariant Alive() && InsideCall(old(mem).value, old(live), old(log), mem.value, live, log)
        invariant user == old(user).(holds := user.holds)
                  && (!old(mem).value.lookupState.Running? ==> user == old(user))
      {
        match calls[i]
        case SockState(fd, readable, writable) =>
          SockStateCallback(fd, readable, writable);
        case HostDone(failed, destroys) =>
          if live.outstanding {
            HostCallback(failed, destroys);
          }
      }
    }

    // -------------------------------------------------------------------------------------
    // Destruction
    // -------------------------------------------------------------------------------------

    /** psl_host_lookup_free_ares_and_multi_fd_watch: c-ares first, since it may still speak of its sockets. */
    method FreeAresAndWatch()
      requires Alive() && mem.value.inAresHostCallbackCnt == 0
      requires mem.value.lookupState.Destroying? || (mem.value.lookupState.Finished? && !live.outstanding)
      modifies this
      ensures fed == old(fed)
      ensures Alive() && live == Outside(false, false, None, old(live).idle) && user == old(user)
      ensures mem.value == old(mem).value.(
                aresChan := false, multiFdWatch := false, aresHostCbWasCalled := mem.value.aresHostCbWasCalled)
      ensures old(mem).value.aresHostCbWasCalled ==> mem.value.aresHostCbWasCalled
      ensures log == TornDown(old(log), old(live))
    {
      if mem.value.aresChan {
        CalledBack();
        Note(AresDestroyed);
        live := live.(ares := false, outstanding := false);
        mem := Some(mem.value.(aresChan := false));
      }
      if mem.value.multiFdWatch {
        Note(WatchDestroyed);
        live := live.(watch := None);
        mem := Some(mem.value.(multiFdWatch := false));
      }
    }

    /** psl_host_lookup_destroy_internal: afterwards neither c-ares nor a source knows of the session. */
    method DestroyInternal(ghost asked: bool)
      requires Alive() && mem.value.inAresHostCallbackCnt == 0
      requires if asked then user.holds && DestroyAsked !in Did(log) else !user.holds
      modifies this
      ensures fed == old(fed)
      ensures AtRest() && mem.None? && live == NOTHING && user == old(user).(holds := false)
      ensures var log0 := if asked then Then(old(log), DestroyAsked) else old(log);
              var log1 := TornDown(log0, old(live));
              log == Then(if old(live).idle then Then(log1, IdleDetached) else log1, Freed)
    {
      mem := Some(mem.value.(lookupState := Destroying));
      user := user.(holds := false);
      if asked {
        Note(DestroyAsked);
      }
      assert Did(old(log)) <= Did(log);
      FreeAresAndWatch();
      if mem.value.queryStarter {
        Note(IdleDetached);
        live := live.(idle := false);
        mem := Some(mem.value.(queryStarter := false));
      }
      Note(Freed);
      mem := None;
    }

    /** PmSockHostLookupDestroy, called by the user between callbacks. */
    method UserDestroy()
      requires AtRest() && user.holds
      modifies this
      ensures AtRest() && mem.None? && live == NOTHING && !user.holds && DestroyAsked in Did(log)
    {
      if mem.value.inAresHostCallbackCnt > 0 {
        assert false;
      }
      DestroyInternal(true);
    }

    // -------------------------------------------------------------------------------------
    // The session's life
    // -------------------------------------------------------------------------------------

    /** PmSockHostLookupNew: a session that could not be set up is taken down again at once. */
    constructor (watchOk: bool, aresOk: bool, script: seq<seq<AresCallback>>)
      ensures AtRest() && user == UserSide(watchOk && aresOk, false)
      ensures if watchOk && aresOk then
                mem.Some? && mem.value.lookupState.Initialized? && log == Then(Then(Nothing, WatchCreated), AresCreated)
              else mem.None? && live == NOTHING
    {
      this.script, live, log, fed := script, NOTHING, Nothing, [];
      user := UserSide(false, false);
      mem := Some(Memory(Initializing, false, false, false, 0, false, false));
      new;
      if !watchOk {
        DestroyInternal(false);
        return;
      }
      Note(WatchCreated);
      live := live.(watch := Some(WatchSource(map[], -1)));
      mem := Some(mem.value.(multiFdWatch := true));
      if !aresOk {
        DestroyInternal(false);
        return;
      }
      Note(AresCreated);
      live := live.(ares := true);
      mem := Some(mem.value.(aresChan := true, lookupState := Initialized));
      user := user.(holds := true);
    }

    /** PmSockHostLookupStart: the query itself waits for the main loop, so nobody is called from here. */
    method Start()
      requires AtRest() && user.holds && !user.started
      modifies this
      ensures AtRest() && mem.Some? && mem.value.lookupState.Running? && live == old(live).(idle := true)
      ensures log == Then(old(log), IdleAttached)
    {
      assert mem.value.lookupState == Initialized;
      user := user.(started := true);
      Note(IdleAttached);
      live := live.(idle := true);
      mem := Some(mem.value.(lookupState := Running, queryStarter := true));
    }

    /** What follows every call into c-ares: the destruction that was put off, or the end, or the next timeout. */
    method AfterCall(timeout: Option<(nat, nat)>)
      requires Alive() && mem.value.inAresHostCallbackCnt == 0 && (mem.value.aresChan || mem.value.needDestroy)
      requires mem.value.lookupState.Initialized? || mem.value.lookupState.Running?
               || (mem.value.lookupState.Finished? && mem.value.aresHostCbWasCalled)
      modifies this
      ensures fed == old(fed)
      ensures AtRest() && Did(old(log)) <= Did(log) && (old(mem).value.needDestroy ==> mem.None?)
      ensures live.watch.Some? ==> live.watch.value.timeout == TvToMillisec(timeout)
      ensures live.watch.None? <==> old(mem).value.needDestroy || old(mem).value.aresHostCbWasCalled
    {
      if mem.value.needDestroy {
        DestroyInternal(false);
      } else if mem.value.aresHostCbWasCalled {
        FreeAresAndWatch();
      } else {
        live := live.(watch := Some(live.watch.value.(timeout := TvToMillisec(timeout))));
      }
    }

    /** psl_kick_start_ares_idle_cb: the idle source is gone with its one callback. */
    method KickStart(timeout: Option<(nat, nat)>)
      requires AtRest() && live.idle
      modifies this
      ensures AtRest() && IdleDetached in Did(log) && Did(old(log)) <= Did(log) && !live.idle
      ensures live.watch.Some? ==> live.watch.value.timeout == TvToMillisec(timeout)
    {
      assert mem.value.queryStarter;
      Note(IdleDetached);
      mem := Some(mem.value.(queryStarter := false));
      live := live.(idle := false, outstanding := true);
      CalledBack();
      AfterCall(timeout);
    }

    /** ares_process_fd for the descriptors of one poll record, or none. */
    method ProcessFd(readFd: int, writeFd: int)
      requires Alive() && mem.value.aresChan && mem.value.inAresHostCallbackCnt == 0
      modifies this
      ensures Alive() && InsideCall(old(mem).value, old(live), old(log), mem.value, live, log)
      ensures fed == old(fed) + [Feed(readFd, writeFd, mem.value.needDestroy || mem.value.aresHostCbWasCalled)]
    {
      CalledBack();
      fed := fed + [Feed(readFd, writeFd, mem.value.needDestroy || mem.value.aresHostCbWasCalled)];
    }

    /** psl_host_lookup_fd_watch_cb: descriptors are fed to c-ares until the lookup is over. */
    method FdWatchCallback(pollrecs: seq<PollRec>, timeout: Option<(nat, nat)>)
      requires AtRest() && live.watch.Some?
      modifies this
      ensures AtRest() && Did(old(log)) <= Did(log)
      ensures old(fed) <= fed && FedFor(fed[|old(fed)|..], pollrecs)
      ensures fed[|fed| - 1].over <==> live.watch.None?
      ensures live.watch.Some? ==> live.watch.value.timeout == TvToMillisec(timeout)
    {
      hide Worthwhile, HasSomething, Feeds, FedAll, FedFor, Orderly, Accounted;
      var somethingSet := false;
      var i := 0;
      ghost var made: seq<Feed> := [];
      ghost var over := false;
      FedBegins(pollrecs);
      while i < |pollrecs|
        invariant i <= |pollrecs| && Alive() && InsideCall(old(mem).value, old(live), old(log), mem.value, live, log)
        invariant !mem.value.needDestroy && !mem.value.aresHostCbWasCalled && !over
        invariant fed == old(fed) + made && FedAll(made, pollrecs[..i]) && (somethingSet <==> made != [])
      {
        var rec := pollrecs[i];
        var readFd, writeFd := DescriptorsOf(rec);
        i := i + 1;
        if readFd == ARES_SOCKET_BAD && writeFd == ARES_SOCKET_BAD {
          FedOver(made, pollrecs, i - 1);
          continue;
        }
        somethingSet := true;
        ProcessFd(readFd, writeFd);
        over := mem.value.needDestroy || mem.value.aresHostCbWasCalled;
        ghost var feed := Feed(readFd, writeFd, over);
        if mem.value.needDestroy || mem.value.aresHostCbWasCalled {
          FedUpTo(made, feed, pollrecs, i - 1);
          made := made + [feed];
          break;
        }
        FedFurther(made, feed, pollrecs, i - 1);
        made := made + [feed];
      }
      if !somethingSet {
        ProcessFd(ARES_SOCKET_BAD, ARES_SOCKET_BAD);
        over := mem.value.needDestroy || mem.value.aresHostCbWasCalled;
        ghost var feed := Feed(ARES_SOCKET_BAD, ARES_SOCKET_BAD, over);
        FedEnds(made, pollrecs, feed);
        made := [feed];
      } else if !over {
        FedEnds(made, pollrecs, Feed(ARES_SOCKET_BAD, ARES_SOCKET_BAD, false));
      }
      assert fed == old(fed) + made && fed[|old(fed)|..] == made;
      AfterCall(timeout);
    }

    /** What of a poll record c-ares is to be given. */
    method DescriptorsOf(rec: PollRec) returns (readFd: int, writeFd: int)
      ensures forall over: bool :: Feeds(Feed(readFd, writeFd, over), rec)
      ensures HasSomething(rec) <==> readFd != ARES_SOCKET_BAD || writeFd != ARES_SOCKET_BAD
    {
      var ioerrBits := rec.indEvents - {IoIn, IoOut};
      ErrorBits(rec);
      readFd, writeFd := ARES_SOCKET_BAD, ARES_SOCKET_BAD;
      if IoIn in rec.reqEvents && (ioerrBits != {} || IoIn in rec.indEvents) {
        readFd := rec.fd;
      }
      if IoOut in rec.reqEvents && (ioerrBits != {} || IoOut in rec.indEvents) {
        writeFd := rec.fd;
      }
    }
  }

  lemma ErrorBits(rec: PollRec)
    ensures rec.indEvents - {IoIn, IoOut} != {}
       <==> IoPri in rec.indEvents || IoErr in rec.indEvents || IoHup in rec.indEvents || IoNval in rec.indEvents
  {
    var bits := rec.indEvents - {IoIn, IoOut};
    if bits != {} {
      var flag :| flag in bits;
      assert flag == IoPri || flag == IoErr || flag == IoHup || flag == IoNval;
    }
    assert IoPri in rec.indEvents ==> IoPri in bits;
    assert IoErr in rec.indEvents ==> IoErr in bits;
    assert IoHup in rec.indEvents ==> IoHup in bits;
    assert IoNval in rec.indEvents ==> IoNval in bits;
  }

  /** What the main loop and the user do to a session. */
  datatype LookupEvent =
    | StartCalled
    | IdleFires(timeout: Option<(nat, nat)>)
    | WatchFires(recs: seq<PollRec>, timeout: Option<(nat, nat)>)
    | UserDestroys

  /** A source fires while it is attached; the user calls while it has the session.  The memory is not asked. */
  predicate Enabled(live: Outside, user: UserSide, e: LookupEvent) {
    match e
    case StartCalled => user.holds && !user.started
    case IdleFires(_) => live.idle
    case WatchFires(_, _) => live.watch.Some?
    case UserDestroys => user.holds
  }

  /**
   A session's whole life, for every behaviour of c-ares and every moment at which the user
   destroys the session.  Whatever is attached finds the session's memory.  What is done is
   orderly; a destruction asked for is carried out by the time the main loop has the session
   back, and leaves neither c-ares nor a source behind.
   */
  method WholeLife(watchOk: bool, aresOk: bool, script: seq<seq<AresCallback>>, events: seq<LookupEvent>)
    returns (s: Session)
    ensures fresh(s) && s.AtRest() && Orderly(s.log) && Accounted(Did(s.log), s.live)
    ensures DestroyAsked in Did(s.log) || !(watchOk && aresOk) ==> Freed in Did(s.log)
    ensures Freed in Did(s.log) <==> s.mem.None?
    ensures s.mem.None? ==> s.live == NOTHING && Cleared(Did(s.log))
  {
    s := new Session(watchOk, aresOk, script);
    for i := 0 to |events|
      invariant fresh(s) && s.AtRest() && (!(watchOk && aresOk) ==> s.mem.None?)
    {
      if Enabled(s.live, s.user, events[i]) {
        match events[i]
        case StartCalled => s.Start();
        case IdleFires(timeout) => s.KickStart(timeout);
        case WatchFires(recs, timeout) => s.FdWatchCallback(recs, timeout);
        case UserDestroys => s.UserDestroy();
      }
    }
  }
}
