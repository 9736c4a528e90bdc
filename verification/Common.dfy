/** Types shared by every component: octets, GIOCondition flags and PslError codes. */
module Common {

  newtype byte = x: int | 0 <= x < 256

  datatype Option<+T> = None | Some(value: T)

  /** The single bits of a GIOCondition; a GIOCondition is a set of them. */
  datatype GioFlag = IoIn | IoPri | IoOut | IoErr | IoHup | IoNval

  type GioCond = set<GioFlag>

  /** PSL_FAIL_GIOCONDITIONS: the bits that glib reports whether asked for or not. */
  const FAIL_CONDITIONS: GioCond := {IoErr, IoHup, IoNval}

  /** The PslError codes the modelled code tells apart; every other code is `OtherError`. */
  datatype PslError =
    | NoError
    | SslWantRead
    | SslWantWrite
    | SslCleanEof
    | TcpConnReset
    | TcpConnect
    | NotAllowed
    | Invalid
    | BadServAddr
    | OtherError(code: nat)
  {
    /** The two codes that ask for the same call to be made again. */
    predicate IsDeferral() {
      SslWantRead? || SslWantWrite?
    }

    /** A code that ends a direction or an operation for good. */
    predicate IsFatal() {
      !NoError? && !IsDeferral()
    }
  }

  function Min(a: int, b: int): int {
    if a <= b then a else b
  }

  /** A set that is not empty has a member to pick. */
  lemma SomeMember(s: set<int>)
    requires s != {}
    ensures exists k: int :: k in s
  {
    if forall k: int :: k !in s {
      assert false;
    }
  }
}
