/**
 Who keeps what alive: the user's references to the channel, the header references of the
 channel's watches, and the state machine's references of the header and of callbacks under
 way.  The two blocks of memory are options; once freed they are `None` and nothing can be
 read from them.  The sources that call into the machine are kept apart from its memory: one
 that were still attached to a freed machine would fire and find nothing.  What the user does,
 also from inside callbacks, comes as a sequence of steps.
 */
module Lifetime {
  import opened Common

  /** PmSockIOChannel: glib's reference count and its mark to close the channel at the end, and the header's count. */
  datatype Header = Header(gioRefs: nat, closeOnUnref: bool, headerRef: nat)

  /** PslChanFsm, as far as its life is concerned. */
  datatype Machine = Machine(refCount: nat, fsmClosed: bool, fsmFinalized: bool, inFdWatchCb: bool)

  /** What is attached to the main loop and calls into the machine: the fd watch, a lookup's sources. */
  datatype Sources = Sources(fdWatch: bool, lookup: bool)

  /** A callback of the user that is running, and the references held for it. */
  datatype Frame = FdWatchFrame | LookupFrame
  {
    function Refs(): nat {
      if FdWatchFrame? then 2 else 1
    }
  }

  function FrameRefs(frames: seq<Frame>): nat {
    if frames == [] then 0 else FrameRefs(frames[..|frames| - 1]) + frames[|frames| - 1].Refs()
  }

  datatype Step =
    | UserRefs | UserUnrefs | UserKeepsOpen | UserCloses | UserConnects | UserEvent | WatchMade | WatchFinalized
    | FdWatchFires(calls: bool) | LookupFires(calls: bool) | CallbackReturns

  class Channel {
    var header: Option<Header>
    var machine: Option<Machine>
    var sources: Sources
    var userRefs: nat
    var frames: seq<Frame>
    var watches: nat
    ghost var machineFrees: nat
    ghost var headerFrees: nat

    /** Every reference is accounted for; what is referenced is there, and the rest was freed once. */
    ghost predicate Valid()
      reads this
    {
      && machineFrees == (if machine.Some? then 0 else 1) && headerFrees == (if header.Some? then 0 else 1)
      && (header.Some? ==>
           && header.value.headerRef == (if header.value.gioRefs > 0 then 1 else 0) + watches
              && header.value.headerRef > 0
           && machine.Some? && (machine.value.fsmFinalized <==> header.value.gioRefs == 0))
      && userRefs == (if header.Some? then header.value.gioRefs else 0)
      && (header.None? ==> watches == 0)
      && (machine.Some? ==>
           && machine.value.refCount == (if header.Some? then 1 else 0) + FrameRefs(frames)
              && machine.value.refCount > 0
           && (header.None? ==> machine.value.fsmFinalized)
           && (machine.value.fsmFinalized ==> machine.value.fsmClosed)
           && (machine.value.inFdWatchCb <==> FdWatchFrame in frames))
      && (machine.None? ==> header.None? && frames == [])
      && (sources.fdWatch <==> machine.Some? && !machine.value.fsmFinalized)
      && (sources.lookup ==> machine.Some? && !machine.value.fsmClosed)
      && (forall i, j :: 0 <= i < j < |frames| ==> !(frames[i].FdWatchFrame? && frames[j].FdWatchFrame?))
    }

    /** The user still holds the channel. */
    ghost predicate Held()
      reads this
    {
      userRefs > 0
    }

    constructor ()
      ensures Valid() && Held() && frames == [] && watches == 0
    {
      header, machine := Some(Header(1, true, 1)), Some(Machine(1, false, false, false));
      sources, userRefs := Sources(true, false), 1;
      frames, watches := [], 0;
      machineFrees, headerFrees := 0, 0;
    }

    /** psl_chan_fsm_unref and chan_fsm_free: only a finalized machine is ever freed. */
    method FsmUnref()
      requires machine.Some? && machine.value.refCount > 0
      requires machine.value.refCount == 1 ==> machine.value.fsmFinalized
      modifies this`machine, this`machineFrees
      ensures old(machine).value.refCount == 1 ==> machine.None? && machineFrees == old(machineFrees) + 1
      ensures old(machine).value.refCount > 1 ==>
                machine == Some(old(machine).value.(refCount := old(machine).value.refCount - 1))
                  && machineFrees == old(machineFrees)
    {
      machine := Some(machine.value.(refCount := machine.value.refCount - 1));
      if machine.value.refCount == 0 {
        assert machine.value.fsmFinalized;
        machine := None;
        machineFrees := machineFrees + 1;
      }
    }

    /** psl_chan_header_unref */
    method HeaderUnref()
      requires header.Some? && header.value.headerRef > 0 && machine.Some? && machine.value.refCount > 0
      requires header.value.headerRef == 1 && machine.value.refCount == 1 ==> machine.value.fsmFinalized
      modifies this`header, this`headerFrees, this`machine, this`machineFrees
      ensures old(header).value.headerRef > 1 ==>
                && header == Some(old(header).value.(headerRef := old(header).value.headerRef - 1))
                && headerFrees == old(headerFrees) && machine == old(machine) && machineFrees == old(machineFrees)
      ensures old(header).value.headerRef == 1 ==>
                && header.None? && headerFrees == old(headerFrees) + 1
                && (old(machine).value.refCount == 1 ==> machine.None? && machineFrees == old(machineFrees) + 1)
                && (old(machine).value.refCount > 1 ==>
                      machine == Some(old(machine).value.(refCount := old(machine).value.refCount - 1))
                      && machineFrees == old(machineFrees))
    {
      header := Some(header.value.(headerRef := header.value.headerRef - 1));
      if header.value.headerRef == 0 {
        FsmUnref();
        header := None;
        headerFrees := headerFrees + 1;
      }
    }

    /** The CLOSE event, from palmsock_io_close or on the way to the end: a lookup under way is destroyed. */
    method Close()
      requires machine.Some? && !machine.value.fsmFinalized
      modifies this`machine, this`sources
      ensures machine == Some(old(machine).value.(fsmClosed := true)) && sources == Sources(old(sources).fdWatch, false)
    {
      sources := sources.(lookup := false);
      machine := Some(machine.value.(fsmClosed := true));
    }

    /** psl_chan_fsm_finalize: CLOSE unless closed, then FINALIZE, which detaches the fd watch. */
    method Finalize()
      requires machine.Some? && !machine.value.fsmFinalized && (machine.value.fsmClosed ==> !sources.lookup)
      modifies this`machine, this`sources
      ensures machine == Some(old(machine).value.(fsmClosed := true, fsmFinalized := true))
      ensures sources == Sources(false, false)
    {
      if !machine.value.fsmClosed {
        Close();
      }
      assert machine.value.fsmClosed;
      sources := sources.(fdWatch := false);
      machine := Some(machine.value.(fsmFinalized := true));
    }

    /** g_io_channel_ref */
    method Ref()
      requires Valid() && Held()
      modifies this`header, this`userRefs
      ensures Valid() && Held() && userRefs == old(userRefs) + 1
    {
      userRefs := userRefs + 1;
      header := Some(header.value.(gioRefs := header.value.gioRefs + 1));
    }

    /** g_io_channel_unref; the last one goes through palmsock_io_close, unless told not to, and palmsock_io_free. */
    method Unref()
      requires Valid() && Held()
      modifies this
      ensures Valid() && frames == old(frames) && watches == old(watches) && userRefs == old(userRefs) - 1
      ensures userRefs == 0 ==> sources == Sources(false, false)
      ensures machine.None? <==> userRefs == 0 && frames == [] && watches == 0
    {
      userRefs := userRefs - 1;
      header := Some(header.value.(gioRefs := header.value.gioRefs - 1));
      if header.value.gioRefs == 0 {
        if header.value.closeOnUnref {
          Close();
        }
        Finalize();
        HeaderUnref();
        NoRefsNoFrames(frames);
      }
    }

    /** g_io_channel_shutdown: the channel is closed now and not once more at the end. */
    method UserClose()
      requires Valid() && Held()
      modifies this`machine, this`sources, this`header
      ensures Valid() && machine.value.fsmClosed && !sources.lookup && frames == old(frames)
    {
      Close();
      header := Some(header.value.(closeOnUnref := false));
    }

    /** A call of the channel's interface reaches a machine that is there and not in its final state. */
    method CallMachine()
      requires Valid() && Held()
      ensures machine.Some? && !machine.value.fsmFinalized
    {
    }

    /** A CONNECT that starts with a lookup; a closed machine takes none. */
    method Connect()
      requires Valid() && Held()
      modifies this`sources
      ensures Valid() && sources == Sources(true, old(sources).lookup || !machine.value.fsmClosed)
    {
      CallMachine();
      if !machine.value.fsmClosed {
        sources := sources.(lookup := true);
      }
    }

    /** psl_chan_watch_new: the watch holds a header reference, not the channel's. */
    method MakeWatch()
      requires Valid() && Held()
      modifies this`header, this`watches
      ensures Valid() && watches == old(watches) + 1
    {
      header := Some(header.value.(headerRef := header.value.headerRef + 1));
      watches := watches + 1;
    }

    /** chan_watch_finalize, at any time, also after the channel was finalized. */
    method FinalizeWatch()
      requires Valid() && watches > 0
      modifies this
      ensures Valid() && watches == old(watches) - 1 && frames == old(frames)
    {
      watches := watches - 1;
      HeaderUnref();
      NoRefsNoFrames(frames);
    }

    /**
     chan_fsm_fd_watch_cb up to the user's callback, if there is one to call and the machine was
     not closed: the references taken keep the machine alive until it returns.
     */
    method FdWatchFired(calls: bool)
      requires Valid() && sources.fdWatch && FdWatchFrame !in frames
      modifies this`machine, this`frames
      ensures Valid()
      ensures frames == if calls && !old(machine).value.fsmClosed then old(frames) + [FdWatchFrame] else old(frames)
    {
      assert !machine.value.inFdWatchCb;
      machine := Some(machine.value.(inFdWatchCb := true));
      if calls && !machine.value.fsmClosed {
        machine := Some(machine.value.(refCount := machine.value.refCount + 2));
        frames := frames + [FdWatchFrame];
        assert frames[..|frames| - 1] == old(frames);
      } else {
        machine := Some(machine.value.(inFdWatchCb := false));
      }
    }

    /** plain_host_lookup_cb: the lookup is over; a failure is told to the user. */
    method LookupFired(calls: bool)
      requires Valid() && sources.lookup
      modifies this`machine, this`frames, this`sources
      ensures Valid() && !sources.lookup
      ensures frames == if calls then old(frames) + [LookupFrame] else old(frames)
    {
      sources := sources.(lookup := false);
      if calls && !machine.value.fsmClosed {
        machine := Some(machine.value.(refCount := machine.value.refCount + 1));
        frames := frames + [LookupFrame];
        assert frames[..|frames| - 1] == old(frames);
      }
    }

    /** It returns: the slot and the mark are written before the last reference goes. */
    method ReturnFromCallback()
      requires Valid() && frames != []
      modifies this
      ensures Valid() && frames == old(frames[..|frames| - 1]) && watches == old(watches)
    {
      var frame := frames[|frames| - 1];
      frames := frames[..|frames| - 1];
      FsmUnref();
      if frame.FdWatchFrame? {
        machine := Some(machine.value.(inFdWatchCb := false));
        FsmUnref();
      }
      NoRefsNoFrames(frames);
    }
  }

  lemma NoRefsNoFrames(frames: seq<Frame>)
    ensures FrameRefs(frames) == 0 ==> frames == []
  {
  }

  /**
   What can happen.  The memory is not asked: the user calls while holding the channel, a source
   fires while it is attached, the fd watch not from within itself.
   */
  predicate Enabled(ch: Channel, step: Step)
    reads ch
  {
    match step
    case WatchFinalized => ch.watches > 0
    case FdWatchFires(_) => ch.sources.fdWatch && FdWatchFrame !in ch.frames
    case LookupFires(_) => ch.sources.lookup
    case CallbackReturns => ch.frames != []
    case _ => ch.userRefs > 0
  }

  /**
   A channel's whole life under any interleaving of references dropped, channels closed, watches
   finalized, sources firing and callbacks returning: whatever can happen finds what it needs
   alive.  Once the user has let go nothing is attached to the machine any more; when all
   references are gone both blocks were freed, each once.
   */
  method WholeLife(steps: seq<Step>) returns (ch: Channel)
    ensures fresh(ch) && ch.Valid()
    ensures ch.machineFrees <= 1 && ch.headerFrees <= 1
    ensures !ch.Held() ==> ch.sources == Sources(false, false)
    ensures !ch.Held() && ch.watches == 0 && ch.frames == [] <==> ch.machineFrees == 1
    ensures !ch.Held() && ch.watches == 0 <==> ch.headerFrees == 1
  {
    ch := new Channel();
    for i := 0 to |steps|
      invariant fresh(ch) && ch.Valid()
    {
      if Enabled(ch, steps[i]) {
        match steps[i]
        case UserRefs => ch.Ref();
        case UserUnrefs => ch.Unref();
        case UserKeepsOpen => ch.header := Some(ch.header.value.(closeOnUnref := false));
        case UserCloses => ch.UserClose();
        case UserConnects => ch.Connect();
        case UserEvent => ch.CallMachine();
        case WatchMade => ch.MakeWatch();
        case WatchFinalized => ch.FinalizeWatch();
        case FdWatchFires(calls) => ch.FdWatchFired(calls);
        case LookupFires(calls) => ch.LookupFired(calls);
        case CallbackReturns => ch.ReturnFromCallback();
      }
    }
    NoRefsNoFrames(ch.frames);
  }
}
