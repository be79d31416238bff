/** Interest masks handed to the multiplexor (`fdInterest`). */
module Interest {

  /** The two interest bits, `READ` and `WRITE`. */
  datatype Op = Read | Write

  /** An interest bitmask, as the set of bits it has set. */
  type Mask = set<Op>

  /** `NO_INTEREST` */
  const NoInterest: Mask := {}

  /** `READ | WRITE` */
  const ReadWrite: Mask := {Read, Write}

  /**
   * The backpressure rule of `copyComputeInterests`: a channel asks to read only while
   * its direction is open for reading and the buffer it fills has room, and asks to
   * write only while its direction is open for writing and the buffer it drains has
   * bytes pending.
   */
  function ComputeInterests(duplex: Mask, readBufferCanWrite: bool, writeBufferCanRead: bool): (r: Mask)
    ensures Read in r <==> Read in duplex && readBufferCanWrite
    ensures Write in r <==> Write in duplex && writeBufferCanRead
    ensures r <= duplex
  {
    var reading: Mask := if Read in duplex && readBufferCanWrite then {Read} else NoInterest;
    var writing: Mask := if Write in duplex && writeBufferCanRead then {Write} else NoInterest;
    NoInterest + reading + writing
  }

  /** Clearing bits of a channel's duplex mask never adds a bit to the interest computed from it. */
  lemma ClearingDuplexNeverAddsInterest(smaller: Mask, larger: Mask, canWrite: bool, canRead: bool)
    requires smaller <= larger
    ensures ComputeInterests(smaller, canWrite, canRead) <= ComputeInterests(larger, canWrite, canRead)
  {
  }

  /** A channel whose duplex mask is empty asks the multiplexor for nothing, whatever its buffers hold. */
  lemma ClosedChannelHasNoInterest(canWrite: bool, canRead: bool)
    ensures ComputeInterests(NoInterest, canWrite, canRead) == NoInterest
  {
  }
}
