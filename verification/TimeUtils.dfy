/**
 psl_time_utils: arithmetic on normalised timespecs, changed in place.
 tv_sec and tv_nsec are C longs, millisecond counts are C ints; every intermediate result is
 asserted to fit the type the C expression has.
 */
module TimeUtils {
  import opened Common

  const NANOSEC_PER_SEC := 1_000_000_000
  const MILLISEC_PER_SEC := 1_000
  const NANOSEC_PER_MILLISEC := 1_000_000
  const MAX_INT := 0x7FFF_FFFF
  const MAX_LONG := 0x7FFF_FFFF_FFFF_FFFF

  predicate FitsInt(x: int) {
    -MAX_INT - 1 <= x <= MAX_INT
  }

  predicate FitsLong(x: int) {
    -MAX_LONG - 1 <= x <= MAX_LONG
  }

  /** C division, which rounds toward zero. */
  function TruncDiv(a: int, b: int): int
    requires 0 < b
  {
    if a >= 0 then a / b else -((-a) / b)
  }

  /** Milliseconds that cover `nanos` nanoseconds, rounded up. */
  function CeilMillis(nanos: nat): nat {
    (nanos + NANOSEC_PER_MILLISEC - 1) / NANOSEC_PER_MILLISEC
  }

  class Timespec {
    var sec: int
    var nsec: int

    constructor (s: int, n: int)
      ensures sec == s && nsec == n
    {
      sec, nsec := s, n;
    }

    /** Non-negative and normalised, as the source's validation macro asks. */
    predicate Normal()
      reads this
    {
      0 <= sec <= MAX_LONG && 0 <= nsec < NANOSEC_PER_SEC
    }

    /** The instant or duration in nanoseconds. */
    ghost function Nanos(): int
      reads this
    {
      sec * NANOSEC_PER_SEC + nsec
    }

    method Normalize()
      requires FitsLong(nsec) && FitsLong(sec + TruncDiv(nsec, NANOSEC_PER_SEC))
      modifies this
      ensures Nanos() == old(Nanos())
      ensures -NANOSEC_PER_SEC < nsec < NANOSEC_PER_SEC
      ensures old(nsec) >= 0 ==> 0 <= nsec && old(sec) <= sec
      ensures old(nsec) <= 0 ==> nsec <= 0 && sec <= old(sec)
    {
      var addSec := TruncDiv(nsec, NANOSEC_PER_SEC);
      if addSec != 0 {
        sec := sec + addSec;
        nsec := nsec - addSec * NANOSEC_PER_SEC;
      }
    }

    /** this += y */
    method Add(y: Timespec)
      requires Normal() && y.Normal() && FitsLong(sec + y.sec + 1)
      modifies this
      ensures Normal() && Nanos() == old(Nanos()) + old(y.Nanos())
    {
      sec, nsec := sec + y.sec, nsec + y.nsec;
      Normalize();
    }

    /** this := |this - y|; tells whether this was the smaller one. */
    method SubtractAbs(y: Timespec) returns (wouldUnderflow: bool)
      requires Normal() && y.Normal()
      modifies this
      ensures Normal()
      ensures wouldUnderflow <==> old(Nanos()) < old(y.Nanos())
      ensures Nanos() == if wouldUnderflow then old(y.Nanos()) - old(Nanos()) else old(Nanos()) - old(y.Nanos())
    {
      if sec < y.sec || (sec == y.sec && nsec < y.nsec) {
        wouldUnderflow := true;
        var tempSec, tempNsec := y.sec - sec, y.nsec - nsec;
        if y.nsec < nsec {
          tempSec := tempSec - 1;
          tempNsec := tempNsec + NANOSEC_PER_SEC;
        }
        sec, nsec := tempSec, tempNsec;
      } else {
        wouldUnderflow := false;
        sec := sec - y.sec;
        if nsec < y.nsec {
          sec := sec - 1;
          nsec := nsec + NANOSEC_PER_SEC;
          assert FitsLong(nsec);
        }
        nsec := nsec - y.nsec;
      }
    }

    /** this += numMillisec milliseconds */
    method AddMillisec(numMillisec: int)
      requires Normal() && 0 <= numMillisec <= MAX_INT && sec <= MAX_LONG - MAX_INT
      modifies this
      ensures Normal() && Nanos() == old(Nanos()) + numMillisec * NANOSEC_PER_MILLISEC
    {
      var addSec := TruncDiv(numMillisec, MILLISEC_PER_SEC);
      var remMillisec := numMillisec - addSec * MILLISEC_PER_SEC;
      assert FitsInt(addSec * MILLISEC_PER_SEC) && FitsInt(remMillisec * NANOSEC_PER_MILLISEC);
      sec := sec + addSec;
      nsec := nsec + remMillisec * NANOSEC_PER_MILLISEC;
      assert FitsLong(sec) && FitsLong(nsec);
      Normalize();
    }
  }

  /** Negative, zero or positive as x is before, at or after y. */
  method Compare(x: Timespec, y: Timespec) returns (res: int)
    requires x.Normal() && y.Normal()
    ensures res < 0 <==> x.Nanos() < y.Nanos()
    ensures res == 0 <==> x.Nanos() == y.Nanos()
    ensures FitsInt(res)
  {
    if x.sec < y.sec || (x.sec == y.sec && x.nsec < y.nsec) {
      return -1;
    }
    if x.sec == y.sec && x.nsec == y.nsec {
      return 0;
    } else {
      return 1;
    }
  }

  /** The duration in milliseconds, rounded up; the caller keeps it within a C int. */
  method ConvertToMillisec(x: Timespec) returns (res: int)
    requires x.Normal() && x.Nanos() <= MAX_INT * NANOSEC_PER_MILLISEC
    ensures res == CeilMillis(x.Nanos()) && FitsInt(res)
  {
    res := x.sec * MILLISEC_PER_SEC;
    assert FitsLong(res) && FitsInt(res);
    var temp := x.nsec + NANOSEC_PER_MILLISEC - 1;
    assert FitsInt(temp);
    temp := TruncDiv(temp, NANOSEC_PER_MILLISEC);
    assert FitsInt(res + temp);
    res := res + temp;
  }
}
