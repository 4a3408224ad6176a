/**
 * The two-bit ECN field of the IP header, section 5 of RFC 3168:
 * 00 Not-ECT, 01 ECT(1), 10 ECT(0), 11 CE.  ECT(1) is the L4S identifier of
 * RFC 9331.  Both router scripts count a packet as CE when the parsed value is
 * 3 and as ECT(1) when it is 1; every other value (0, 2, or anything out of
 * range) counts as neither.
 */
module Ecn {

  const NotEct: int := 0
  const Ect1: int := 1
  const Ect0: int := 2
  const Ce: int := 3

  datatype Mark = CongestionExperienced | L4S | Unmarked

  /** The counter a parsed ECN value feeds: `if ecn == 3 ... elif ecn == 1 ...`. */
  function MarkOf(ecn: int): (m: Mark)
    ensures m == CongestionExperienced <==> ecn == Ce
    ensures m == L4S <==> ecn == Ect1
  {
    if ecn == Ce then CongestionExperienced else if ecn == Ect1 then L4S else Unmarked
  }

  /** The increments to the (CE, ECT(1)) counters for one packet: at most one of them is 1. */
  function MarkIncrements(ecn: int): (d: (nat, nat))
    ensures d.0 + d.1 <= 1
    ensures d.0 == 1 <==> ecn == Ce
    ensures d.1 == 1 <==> ecn == Ect1
  {
    match MarkOf(ecn)
    case CongestionExperienced => (1, 0)
    case L4S => (0, 1)
    case Unmarked => (0, 0)
  }
}
