/**
 psl_multi_fd_watch: one event source that watches a table of descriptors and a timer.
 `polled` is glib's side of g_source_add_poll/g_source_remove_poll.  The monotonic clock is a
 parameter of every method that reads it.
 */
module MultiFdWatch {
  import opened Common
  import opened TimeUtils

  const INFINITE_MSEC := -1

  datatype Descriptor = Descriptor(pollAdded: bool, fd: int, events: GioCond, revents: GioCond)

  datatype PollRec = PollRec(fd: int, reqEvents: GioCond, indEvents: GioCond)

  /** What a descriptor's poll result means to the source. */
  function Indicated(desc: Descriptor): GioCond {
    desc.revents * (desc.events + FAIL_CONDITIONS)
  }

  predicate Ready(desc: Descriptor) {
    Indicated(desc) != {}
  }

  /** A condition that makes a descriptor ready: indicated, and asked for or one of the three failures. */
  predicate ReadyFor(desc: Descriptor, flag: GioFlag) {
    flag in desc.revents && (flag in desc.events || flag == IoErr || flag == IoHup || flag == IoNval)
  }

  lemma ReadyForSomething(desc: Descriptor)
    ensures Ready(desc) <==> exists flag :: ReadyFor(desc, flag)
    ensures forall flag :: flag in Indicated(desc) <==> ReadyFor(desc, flag)
  {
    if Ready(desc) {
      var flag :| flag in Indicated(desc);
      assert ReadyFor(desc, flag);
    }
    forall flag | ReadyFor(desc, flag)
      ensures flag in Indicated(desc)
    {
    }
  }

  // ---------------------------------------------------------------------------------------
  // The timer as arithmetic on nanoseconds
  // ---------------------------------------------------------------------------------------

  function Deadline(started: nat, timeoutMillisec: nat): nat {
    started + timeoutMillisec * NANOSEC_PER_MILLISEC
  }

  function Remaining(deadline: nat, now: nat): nat {
    if now < deadline then CeilMillis(deadline - now) else 0
  }

  /** The remaining time is a C int between zero and the timeout, and zero exactly at expiry. */
  lemma RemainingIsExact(started: nat, timeout: nat, now: nat)
    requires started <= now && timeout <= MAX_INT
    ensures var left := Remaining(Deadline(started, timeout), now);
            0 <= left <= timeout && FitsInt(left) && (left == 0 <==> Deadline(started, timeout) <= now)
  {
    var deadline := Deadline(started, timeout);
    if now < deadline {
      var gap := deadline - now;
      assert gap + NANOSEC_PER_MILLISEC - 1 <= timeout * NANOSEC_PER_MILLISEC + (NANOSEC_PER_MILLISEC - 1);
    }
  }

  /** Sleeping for the remaining time reaches the deadline; one millisecond less does not. */
  lemma SleepReachesDeadline(deadline: nat, now: nat)
    ensures var left := Remaining(deadline, now);
            deadline <= now + left * NANOSEC_PER_MILLISEC
            && (left > 0 ==> now + (left - 1) * NANOSEC_PER_MILLISEC < deadline)
  {
    if now < deadline {
      var gap := deadline - now;
      var left := CeilMillis(gap);
      assert left * NANOSEC_PER_MILLISEC <= gap + NANOSEC_PER_MILLISEC - 1 < (left + 1) * NANOSEC_PER_MILLISEC;
    }
  }

  class MultiFdWatch {
    var restartTimer: bool
    var timeoutMillisec: int
    const when: Timespec
    ghost var started: nat
    var descTable: map<int, Descriptor>
    ghost var polled: set<int>

    ghost predicate Valid()
      reads this
    {
      && (timeoutMillisec == INFINITE_MSEC || 0 <= timeoutMillisec <= MAX_INT)
      && polled <= descTable.Keys
      && (forall fd :: fd in descTable ==> descTable[fd].fd == fd && (descTable[fd].pollAdded <==> fd in polled))
    }

    /** While the timer runs, `when` is its deadline. */
    ghost predicate TimerSet()
      reads this, when
    {
      timeoutMillisec >= 0 && !restartTimer ==> when.Normal() && when.Nanos() == Deadline(started, timeoutMillisec)
    }

    /** The condition registered for a descriptor; none when it is absent. */
    ghost function Registered(fd: int): GioCond
      reads this
    {
      if fd in descTable then descTable[fd].events else {}
    }

    /** No other descriptor has a condition registered. */
    ghost predicate Only(fd: int)
      reads this
    {
      forall k :: k in descTable && k != fd ==> descTable[k].events == {}
    }

    constructor ()
      ensures Valid() && TimerSet() && fresh(when)
      ensures descTable == map[] && timeoutMillisec == INFINITE_MSEC && restartTimer
    {
      when := new Timespec(0, 0);
      restartTimer := true;
      timeoutMillisec := INFINITE_MSEC;
      started := 0;
      descTable := map[];
      polled := {};
    }

    method SetPollTimeout(timeout: int) returns (err: PslError)
      requires Valid() && timeout <= MAX_INT
      modifies this`restartTimer, this`timeoutMillisec
      ensures Valid() && (err.NoError? <==> -1 <= timeout) && (err.Invalid? <==> timeout < -1)
      ensures if err.NoError? then restartTimer && timeoutMillisec == timeout
              else restartTimer == old(restartTimer) && timeoutMillisec == old(timeoutMillisec)
    {
      if timeout < -1 {
        return Invalid;
      }
      restartTimer := true;
      if timeout == -1 {
        timeoutMillisec := INFINITE_MSEC;
      } else {
        timeoutMillisec := timeout;
      }
      return NoError;
    }

    method AddOrUpdateFd(fd: int, condition: GioCond)
      requires Valid()
      modifies this`descTable
      ensures Valid() && descTable.Keys == old(descTable.Keys) + {fd} && Registered(fd) == condition
      ensures old(Only(fd)) ==> Only(fd)
      ensures forall k :: k in old(descTable) && k != fd ==> descTable[k] == old(descTable)[k]
    {
      if fd in descTable {
        descTable := descTable[fd := descTable[fd].(events := condition)];
      } else {
        descTable := descTable[fd := Descriptor(false, fd, condition, {})];
      }
    }

    method RemoveFd(fd: int) returns (err: PslError)
      requires Valid()
      modifies this`descTable, this`polled
      ensures Valid() && (err.NoError? <==> fd in old(descTable)) && (err.Invalid? <==> fd !in old(descTable))
      ensures descTable == old(descTable) - {fd} && polled == old(polled) - {fd}
    {
      if fd !in descTable {
        assert descTable - {fd} == descTable;
        return Invalid;
      }
      if descTable[fd].pollAdded {
        polled := polled - {fd};
      }
      descTable := descTable - {fd};
      return NoError;
    }

    /** Forgets every descriptor and the timeout; glib keeps no pointer into the table. */
    method Reset()
      requires Valid()
      modifies this`restartTimer, this`timeoutMillisec, this`descTable, this`polled
      ensures Valid() && restartTimer && timeoutMillisec == INFINITE_MSEC && descTable == map[] && polled == {}
    {
      restartTimer := true;
      timeoutMillisec := INFINITE_MSEC;
      while descTable != map[]
        invariant Valid()
        invariant restartTimer && timeoutMillisec == INFINITE_MSEC
        decreases |descTable|
      {
        SomeMember(descTable.Keys);
        var fd :| fd in descTable.Keys;
        assert descTable[fd].fd == fd;
        if descTable[fd].pollAdded {
          polled := polled - {fd};
        }
        assert |descTable - {fd}| < |descTable| by {
          assert (descTable - {fd}).Keys == descTable.Keys - {fd};
        }
        descTable := descTable - {fd};
      }
    }

    static predicate SameEvents(a: map<int, Descriptor>, b: map<int, Descriptor>)
      requires a.Keys == b.Keys
    {
      forall k :: k in a ==> a[k].events == b[k].events
    }

    /** Polled exactly when there is something to watch, and nothing indicated yet. */
    static predicate Synced(desc: Descriptor) {
      desc.revents == {} && (desc.pollAdded <==> desc.events != {})
    }

    /** Brings glib's poll set into step with one descriptor. */
    method SyncPoll(fd: int)
      requires Valid() && fd in descTable
      modifies this`descTable, this`polled
      ensures Valid()
      ensures descTable == old(descTable)[
                fd := old(descTable)[fd].(pollAdded := old(descTable)[fd].events != {}, revents := {})]
    {
      var desc := descTable[fd].(revents := {});
      if desc.events != {} {
        if !desc.pollAdded {
          polled := polled + {fd};
          desc := desc.(pollAdded := true);
        }
      } else if desc.pollAdded {
        polled := polled - {fd};
        desc := desc.(pollAdded := false);
      }
      descTable := descTable[fd := desc];
    }

    /** Brings glib's poll set into step with the whole table. */
    method SyncAll()
      requires Valid()
      modifies this`descTable, this`polled
      ensures Valid() && descTable.Keys == old(descTable).Keys
      ensures forall k :: k in descTable ==>
              descTable[k].events == old(descTable)[k].events && descTable[k].revents == {}
      ensures forall k :: k in polled <==> k in descTable && descTable[k].events != {}
    {
      var todo := descTable.Keys;
      ghost var table := descTable;
      while todo != {}
        invariant Valid() && todo <= descTable.Keys == table.Keys && SameEvents(descTable, table)
        invariant forall k :: k in descTable && k !in todo ==> Synced(descTable[k])
        decreases |todo|
      {
        SomeMember(todo);
        var fd :| fd in todo;
        todo := todo - {fd};
        ghost var before := descTable;
        SyncPoll(fd);
        assert forall k :: k in descTable && k != fd ==> descTable[k] == before[k];
        assert Synced(descTable[fd]);
      }
    }

    /** Before polling: exactly the descriptors with something to watch are polled. */
    method Prepare(now: Timespec) returns (timeout: int, readyNow: bool)
      requires Valid() && TimerSet() && ClockOk(now)
      modifies this, when
      ensures Valid() && TimerSet() && !restartTimer
      ensures timeoutMillisec == old(timeoutMillisec) && descTable.Keys == old(descTable).Keys
      ensures forall k :: k in descTable ==>
              descTable[k].events == old(descTable)[k].events && descTable[k].revents == {}
      ensures forall k :: k in polled <==> k in descTable && descTable[k].events != {}
      ensures readyNow <==> timeout == 0
      ensures TimerResult(old(restartTimer), old(started), old(now.Nanos()), timeout)
    {
      SyncAll();
      timeout := UpdateExpiryTime(now);
      readyNow := 0 == timeout;
    }

    /** A reading of a clock that has not run backwards since the timer was started. */
    ghost predicate ClockOk(now: Timespec)
      reads this, now
    {
      now != when && now.Normal() && now.sec <= MAX_LONG - MAX_INT && started <= now.Nanos()
    }

    /** The milliseconds left: all of them after a restart, otherwise what separates now from the deadline. */
    ghost predicate TimerResult(wasRestarted: bool, oldStarted: nat, now: int, left: int)
      reads this
    {
      if timeoutMillisec < 0 then left == INFINITE_MSEC
      else
        && 0 <= now
        && started == (if wasRestarted then now else oldStarted)
        && left == Remaining(Deadline(started, timeoutMillisec), now)
        && 0 <= left <= timeoutMillisec
    }

    method UpdateExpiryTime(now: Timespec) returns (remaining: int)
      requires Valid() && TimerSet() && ClockOk(now)
      modifies this`restartTimer, this`started, when
      ensures Valid() && TimerSet() && !restartTimer
      ensures TimerResult(old(restartTimer), old(started), old(now.Nanos()), remaining)
    {
      if timeoutMillisec == INFINITE_MSEC {
        restartTimer := false;
        return INFINITE_MSEC;
      }
      if restartTimer {
        restartTimer := false;
        started := now.Nanos();
        when.sec, when.nsec := now.sec, now.nsec;
        when.AddMillisec(timeoutMillisec);
        remaining := timeoutMillisec;
        RestartLeavesAll(started, timeoutMillisec);
      } else {
        RemainingIsExact(started, timeoutMillisec, now.Nanos());
        var time := new Timespec(now.sec, now.nsec);
        var wouldUnderflow := time.SubtractAbs(when);
        if wouldUnderflow {
          assert time.Nanos() <= timeoutMillisec * NANOSEC_PER_MILLISEC;
          remaining := ConvertToMillisec(time);
        } else {
          remaining := 0;
        }
      }
    }

    /** After polling: true exactly when the deadline has passed or some descriptor is ready. */
    method Check(now: Timespec) returns (ready: bool)
      requires Valid() && TimerSet() && ClockOk(now) && !restartTimer
      ensures ready <==>
        || (timeoutMillisec >= 0 && Deadline(started, timeoutMillisec) <= now.Nanos())
        || (exists k, flag :: k in descTable && ReadyFor(descTable[k], flag))
    {
      forall k | k in descTable
        ensures Ready(descTable[k]) <==> exists flag :: ReadyFor(descTable[k], flag)
      {
        ReadyForSomething(descTable[k]);
      }
      var expired := IsTimerExpired(now);
      if expired {
        return true;
      }
      var todo := descTable.Keys;
      while todo != {}
        invariant todo <= descTable.Keys
        invariant forall k :: k in descTable && k !in todo ==> !Ready(descTable[k])
        decreases |todo|
      {
        SomeMember(todo);
        var fd :| fd in todo;
        if Ready(descTable[fd]) {
          return true;
        }
        todo := todo - {fd};
      }
      return false;
    }

    method IsTimerExpired(now: Timespec) returns (expired: bool)
      requires Valid() && TimerSet() && now.Normal() && !restartTimer
      ensures expired <==> timeoutMillisec >= 0 && Deadline(started, timeoutMillisec) <= now.Nanos()
    {
      if timeoutMillisec == INFINITE_MSEC {
        return false;
      }
      var order := Compare(now, when);
      return order >= 0;
    }

    /** Collects the ready descriptors, each one once, for the callback. */
    method Dispatch() returns (recs: seq<PollRec>)
      requires Valid()
      modifies this`restartTimer
      ensures Valid() && restartTimer
      ensures forall i :: 0 <= i < |recs| ==>
        && recs[i].fd in descTable && recs[i].indEvents != {} && recs[i].reqEvents == descTable[recs[i].fd].events
        && forall flag :: flag in recs[i].indEvents <==> ReadyFor(descTable[recs[i].fd], flag)
      ensures forall k, flag :: k in descTable && ReadyFor(descTable[k], flag) ==>
        exists i :: 0 <= i < |recs| && recs[i].fd == k
      ensures forall i, j :: 0 <= i < j < |recs| ==> recs[i].fd != recs[j].fd
    {
      restartTimer := true;
      recs := [];
      var todo := descTable.Keys;
      while todo != {}
        invariant restartTimer && todo <= descTable.Keys
        invariant forall i :: 0 <= i < |recs| ==>
          recs[i].fd in descTable && recs[i].fd !in todo && Ready(descTable[recs[i].fd])
          && recs[i] == PollRec(recs[i].fd, descTable[recs[i].fd].events, Indicated(descTable[recs[i].fd]))
        invariant forall k :: k in descTable && k !in todo && Ready(descTable[k]) ==>
          exists i :: 0 <= i < |recs| && recs[i].fd == k
        invariant forall i, j :: 0 <= i < j < |recs| ==> recs[i].fd != recs[j].fd
        decreases |todo|
      {
        SomeMember(todo);
        var fd :| fd in todo;
        todo := todo - {fd};
        var desc := descTable[fd];
        var current := desc.revents * (desc.events + FAIL_CONDITIONS);
        if current != {} {
          ghost var before := recs;
          recs := recs + [PollRec(fd, desc.events, current)];
          assert recs[|before|].fd == fd;
          forall k | k in descTable && k !in todo && Ready(descTable[k])
            ensures exists i :: 0 <= i < |recs| && recs[i].fd == k
          {
            if k != fd {
              var i :| 0 <= i < |before| && before[i].fd == k;
              assert recs[i].fd == k;
            }
          }
        }
      }
      RecordsTell(descTable, recs);
    }
  }

  /** Records of the ready descriptors, flag by flag. */
  lemma RecordsTell(table: map<int, Descriptor>, recs: seq<PollRec>)
    requires forall i :: 0 <= i < |recs| ==>
               recs[i].fd in table && Ready(table[recs[i].fd])
               && recs[i] == PollRec(recs[i].fd, table[recs[i].fd].events, Indicated(table[recs[i].fd]))
    requires forall k :: k in table && Ready(table[k]) ==> exists i :: 0 <= i < |recs| && recs[i].fd == k
    ensures forall i :: 0 <= i < |recs| ==>
              && recs[i].fd in table && recs[i].indEvents != {} && recs[i].reqEvents == table[recs[i].fd].events
              && forall flag :: flag in recs[i].indEvents <==> ReadyFor(table[recs[i].fd], flag)
    ensures forall k, flag :: k in table && ReadyFor(table[k], flag) ==>
              exists i :: 0 <= i < |recs| && recs[i].fd == k
  {
    hide Indicated, ReadyFor;
    forall k | k in table
      ensures Ready(table[k]) <==> exists flag :: ReadyFor(table[k], flag)
      ensures forall flag :: flag in Indicated(table[k]) <==> ReadyFor(table[k], flag)
    {
      ReadyForSomething(table[k]);
    }
  }

  lemma RestartLeavesAll(started: nat, timeout: nat)
    ensures Remaining(Deadline(started, timeout), started) == timeout
  {
    if 0 < timeout {
      assert CeilMillis(timeout * NANOSEC_PER_MILLISEC) == timeout;
    }
  }
}
