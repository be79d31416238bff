/**
 * What the relay core asks of the outside world: the interest last set for each
 * descriptor through `setInterest`, and a log of the socket and multiplexor calls
 * that have effects (`shutdown`, `unregisterFd`, `close`).
 */
module Multiplexor {
  import opened Interest

  /** The `how` argument of `shutdown`: `SHUT_RD` or `SHUT_WR`. */
  datatype Direction = ShutRd | ShutWr

  datatype Effect =
    | Shutdown(fd: int, how: Direction)
    | Unregister(fd: int)
    | Close(fd: int)

  class Mux {
    /** The interest most recently set for each descriptor. */
    var interests: map<int, Mask>
    /** The effects issued so far, oldest first. */
    ghost var log: seq<Effect>

    constructor ()
      ensures interests == map[] && log == []
    {
      interests := map[];
      log := [];
    }

    /** `setInterest(mux, fd, mask)`, assumed to succeed. */
    method SetInterest(fd: int, mask: Mask)
      modifies this
      ensures interests == old(interests)[fd := mask]
      ensures log == old(log)
    {
      interests := interests[fd := mask];
    }
  }
}
