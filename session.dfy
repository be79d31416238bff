/**
 * One proxied connection (`struct popv3`): its two descriptors, the two buffers that
 * carry bytes client-to-origin (`readBuffer`) and origin-to-client (`writeBuffer`),
 * the two cross-wired copy channels, and the event handlers that move bytes and
 * tear the connection down.
 */
module Session {
  import opened Interest
  import opened ByteBuffer
  import opened Multiplexor

  /** `BUFFER_SIZE`: the capacity each session buffer is created with. */
  const BufferSize: nat := 2048

  /** C's `unsigned`. */
  newtype u32 = x: int | 0 <= x < 0x1_0000_0000

  /** `p->references -= 1` on an `unsigned`: one less, wrapping from 0 to the largest value. */
  function Decrement(x: u32): (r: u32)
    ensures x > 0 ==> r as int == x as int - 1
    ensures x == 0 ==> r as int == 0xFFFF_FFFF
  {
    ((x as int + 0xFFFF_FFFF) % 0x1_0000_0000) as u32
  }

  /** `popv3State`. Only `Copy`, `Done` and `Error` are ever assigned by the relay. */
  datatype State = Connecting | Authorization | Transaction | Update | Copy | Done | Error

  /** Where a channel's `int *fd` points: nowhere, or one of the session's two descriptor fields. */
  datatype FdSlot = Null | ClientFdField | OriginFdField

  /** The descriptors released by `popv3Done` for one entry of its `fds` array: none for `-1`. */
  function FdRelease(fd: int): seq<Effect>
  {
    if fd != -1 then [Unregister(fd), Close(fd)] else []
  }

  /** The effects of `popv3Done`'s loop over `fds`, in the order the loop issues them. */
  function TeardownEffects(fds: seq<int>): seq<Effect>
  {
    if fds == [] then [] else TeardownEffects(fds[..|fds| - 1]) + FdRelease(fds[|fds| - 1])
  }

  /** One entry of `fds` releases its own descriptor once, unless it is `-1`, and nothing else. */
  lemma FdReleaseCounts(fd: int, x: int)
    ensures multiset(FdRelease(fd))[Unregister(x)] == if x == -1 || fd != x then 0 else 1
    ensures multiset(FdRelease(fd))[Close(x)] == if x == -1 || fd != x then 0 else 1
  {
  }

  /**
   * Each descriptor other than `-1` is unregistered and closed as many times as it
   * occurs in `fds`, and `-1` is never unregistered or closed.
   */
  lemma {:induction false} TeardownReleasesEachOnce(fds: seq<int>, x: int)
    ensures multiset(TeardownEffects(fds))[Unregister(x)] == if x == -1 then 0 else multiset(fds)[x]
    ensures multiset(TeardownEffects(fds))[Close(x)] == if x == -1 then 0 else multiset(fds)[x]
  {
    if fds != [] {
      var init, last := fds[..|fds| - 1], fds[|fds| - 1];
      TeardownReleasesEachOnce(init, x);
      EntriesSplit(fds);
      EffectsSplit(fds);
      FdReleaseCounts(last, x);
    }
  }

  /** Peeling the last entry off `fds` splits its multiset in two. */
  lemma EntriesSplit(fds: seq<int>)
    requires fds != []
    ensures multiset(fds) == multiset(fds[..|fds| - 1]) + multiset{fds[|fds| - 1]}
  {
    assert fds == fds[..|fds| - 1] + [fds[|fds| - 1]];
  }

  /** Peeling the last entry off `fds` splits the loop's effects in two. */
  lemma EffectsSplit(fds: seq<int>)
    requires fds != []
    ensures multiset(TeardownEffects(fds)) == multiset(TeardownEffects(fds[..|fds| - 1])) + multiset(FdRelease(fds[|fds| - 1]))
  {
  }

  /** A session whose two descriptors differ releases each open one exactly once. */
  lemma TeardownOfSessionReleasesEachOnce(clientFd: int, originFd: int, x: int)
    requires clientFd != originFd
    requires x == clientFd || x == originFd
    ensures multiset(TeardownEffects([clientFd, originFd]))[Unregister(x)] == if x == -1 then 0 else 1
    ensures multiset(TeardownEffects([clientFd, originFd]))[Close(x)] == if x == -1 then 0 else 1
  {
    TeardownReleasesEachOnce([clientFd, originFd], x);
  }

  /** The `shutdown` calls a failed `recv` on `fd` issues, `peerFd` being the other descriptor. */
  function ReadHalfClose(fd: int, peerFd: int): seq<Effect>
  {
    [Shutdown(fd, ShutRd)] + if peerFd != -1 then [Shutdown(peerFd, ShutWr)] else []
  }

  /** The `shutdown` calls a failed `send` on `fd` issues, `peerFd` being the other descriptor. */
  function WriteHalfClose(fd: int, peerFd: int): seq<Effect>
  {
    [Shutdown(fd, ShutWr)] + if peerFd != -1 then [Shutdown(peerFd, ShutRd)] else []
  }

  /** `struct copy`: one endpoint's view of the relay. */
  class Channel {
    var fd: FdSlot
    /** The buffer this endpoint's socket is read into. */
    var readBuffer: Buffer?
    /** The buffer drained to this endpoint's socket. */
    var writeBuffer: Buffer?
    /** Which of reading and writing are still open on this endpoint. */
    var duplex: Mask
    var other: Channel?

    /** All fields as `memset(0)` leaves them. */
    ghost predicate Zeroed()
      reads this
    {
      fd == Null && readBuffer == null && writeBuffer == null && duplex == NoInterest && other == null
    }

    constructor ()
      ensures Zeroed()
    {
      fd := Null;
      readBuffer := null;
      writeBuffer := null;
      duplex := NoInterest;
      other := null;
    }
  }

  /** The interest `copyComputeInterests` derives for channel `d`. */
  ghost function ChannelInterests(d: Channel): Mask
    reads d, d.readBuffer, d.writeBuffer
    requires d.readBuffer != null && d.writeBuffer != null
  {
    ComputeInterests(d.duplex, d.readBuffer.CanWrite(), d.writeBuffer.CanRead())
  }

  /** `struct popv3`. The two `copy` records are embedded, so their identity never changes. */
  class Popv3 {
    var state: State
    var originFd: int
    var clientFd: int
    /** Bytes received from the client, pending for the origin. */
    var readBuffer: Buffer?
    /** Bytes received from the origin, pending for the client. */
    var writeBuffer: Buffer?
    const clientCopy: Channel
    const originCopy: Channel
    var references: u32
    /** The next record on the pool's free list. */
    var next: Popv3?

    /** `malloc(sizeof(struct popv3))`: storage whose fields `Reset` then sets. */
    constructor ()
      ensures fresh(clientCopy) && fresh(originCopy) && TwoChannels()
      ensures next == null
    {
      clientCopy := new Channel();
      originCopy := new Channel();
      next := null;
    }

    /** The two embedded `copy` records are two records, as they are in every `struct popv3`. */
    ghost predicate TwoChannels()
    {
      clientCopy != originCopy
    }

    /** The record has both buffers, they are distinct and consistent, and the channels are two records. */
    ghost predicate Ready()
      reads this, readBuffer, writeBuffer
    {
      && TwoChannels()
      && readBuffer != null && writeBuffer != null && readBuffer != writeBuffer
      && readBuffer.Valid() && writeBuffer.Valid()
    }

    /** The channel wiring `copyInit` sets up. */
    ghost predicate Wired()
      reads this, clientCopy, originCopy
    {
      && clientCopy.fd == ClientFdField && originCopy.fd == OriginFdField
      && clientCopy.readBuffer == readBuffer && clientCopy.writeBuffer == writeBuffer
      && originCopy.readBuffer == writeBuffer && originCopy.writeBuffer == readBuffer
      && clientCopy.other == originCopy && originCopy.other == clientCopy
    }

    /** `*fd` for a channel's descriptor pointer. */
    function Deref(slot: FdSlot): int
      reads this
      requires slot != Null
    {
      if slot == ClientFdField then clientFd else originFd
    }

    /** The channel of the endpoint whose descriptor is `keyFd`. */
    ghost function Mine(keyFd: int): Channel
      reads this
    {
      if keyFd == clientFd then clientCopy else originCopy
    }

    /** The mirror channel of `Mine(keyFd)`. */
    ghost function Theirs(keyFd: int): Channel
      reads this
    {
      if keyFd == clientFd then originCopy else clientCopy
    }

    /** The descriptor of the mirror endpoint. */
    ghost function PeerFd(keyFd: int): int
      reads this
    {
      if keyFd == clientFd then originFd else clientFd
    }

    /** The buffer the endpoint `keyFd` is read into. */
    ghost function Inbound(keyFd: int): Buffer?
      reads this
    {
      if keyFd == clientFd then readBuffer else writeBuffer
    }

    /** The buffer drained to the endpoint `keyFd`. */
    ghost function Outbound(keyFd: int): Buffer?
      reads this
    {
      if keyFd == clientFd then writeBuffer else readBuffer
    }

    /**
     * The `memset` and field set-up of `newPopv3`: a record holding no state from an
     * earlier use, open on the given descriptors, with two fresh empty buffers.
     * The buffers are created with `BUFFER_SIZE`; the requested size is not used.
     */
    method Reset(clientFd: int, originFd: int, bufferSize: nat)
      requires TwoChannels()
      modifies this, clientCopy, originCopy
      ensures state == Copy && this.clientFd == clientFd && this.originFd == originFd
      ensures references == 1 && next == null
      ensures fresh(readBuffer) && fresh(writeBuffer) && Ready()
      ensures readBuffer.capacity == BufferSize && readBuffer.readable == 0
      ensures writeBuffer.capacity == BufferSize && writeBuffer.readable == 0
      ensures clientCopy.Zeroed() && originCopy.Zeroed()
    {
      clientCopy.fd, clientCopy.readBuffer, clientCopy.writeBuffer := Null, null, null;
      clientCopy.duplex, clientCopy.other := NoInterest, null;
      originCopy.fd, originCopy.readBuffer, originCopy.writeBuffer := Null, null, null;
      originCopy.duplex, originCopy.other := NoInterest, null;
      next := null;

      state := Copy;
      this.clientFd := clientFd;
      this.originFd := originFd;
      readBuffer := new Buffer(BufferSize);
      writeBuffer := new Buffer(BufferSize);
      references := 1;
    }

    /**
     * `copyInit`: wires the client channel to fill `readBuffer` and drain `writeBuffer`,
     * the origin channel the other way round, each pointing at the other, and reopens
     * both directions of both channels.
     */
    method CopyInit()
      requires TwoChannels()
      modifies clientCopy, originCopy
      ensures Wired()
      ensures clientCopy.duplex == ReadWrite && originCopy.duplex == ReadWrite
    {
      var d := clientCopy;
      d.fd := ClientFdField;
      d.readBuffer := readBuffer;
      d.writeBuffer := writeBuffer;
      d.duplex := ReadWrite;
      d.other := originCopy;

      d := originCopy;
      d.fd := OriginFdField;
      d.readBuffer := writeBuffer;
      d.writeBuffer := readBuffer;
      d.duplex := ReadWrite;
      d.other := clientCopy;
    }

    /**
     * `copyPtr`: the channel an event on `keyFd` concerns. It is the client channel
     * exactly when `keyFd` is the client descriptor, and when `keyFd` is one of the two
     * descriptors the chosen channel's descriptor is `keyFd`.
     */
    function CopyPtr(keyFd: int): (d: Channel)
      reads this, clientCopy, originCopy
      requires TwoChannels() && Wired()
      ensures d == clientCopy <==> keyFd == clientFd
      ensures d == originCopy <==> keyFd != clientFd
      ensures keyFd == clientFd || keyFd == originFd ==> d.fd != Null && Deref(d.fd) == keyFd
    {
      var d := clientCopy;
      if Deref(d.fd) != keyFd then d.other else d
    }

    /** `copyComputeInterests`: computes channel `d`'s interest and sets it for `*d->fd`. */
    method CopyComputeInterests(mux: Mux, d: Channel) returns (ret: Mask)
      requires d == clientCopy || d == originCopy
      requires d.fd != Null && d.readBuffer != null && d.writeBuffer != null
      modifies mux
      ensures ret == ChannelInterests(d)
      ensures mux.interests == old(mux.interests)[Deref(d.fd) := ret]
      ensures mux.log == old(mux.log)
    {
      ret := ComputeInterests(d.duplex, d.readBuffer.CanWrite(), d.writeBuffer.CanRead());
      mux.SetInterest(Deref(d.fd), ret);
    }

    /**
     * `copyReadAndQueue`, `n` being what `recv` returned for the writable region of the
     * channel's buffer. A closed or failed read half-closes the endpoint for reading and,
     * if the peer is open, the peer for writing; a read of `n` bytes makes them pending.
     * Both channels' interests are then recomputed, and `Done` is returned exactly when
     * the channel has no direction left open.
     */
    method CopyReadAndQueue(mux: Mux, keyFd: int, n: int) returns (ret: State)
      requires Ready() && Wired()
      requires keyFd == clientFd || keyFd == originFd
      requires -1 <= n <= Inbound(keyFd).writable
      modifies clientCopy, originCopy, readBuffer, writeBuffer, mux
      ensures Ready() && Wired()
      ensures n <= 0 ==>
        && Mine(keyFd).duplex == old(Mine(keyFd).duplex) - {Read}
        && Theirs(keyFd).duplex == (if PeerFd(keyFd) != -1 then old(Theirs(keyFd).duplex) - {Write} else old(Theirs(keyFd).duplex))
        && Inbound(keyFd).writable == old(Inbound(keyFd).writable)
        && Inbound(keyFd).readable == old(Inbound(keyFd).readable)
      ensures n > 0 ==>
        && Mine(keyFd).duplex == old(Mine(keyFd).duplex)
        && Theirs(keyFd).duplex == old(Theirs(keyFd).duplex)
        && Inbound(keyFd).writable == old(Inbound(keyFd).writable) - n
        && Inbound(keyFd).readable == old(Inbound(keyFd).readable) + n
      ensures Outbound(keyFd).writable == old(Outbound(keyFd).writable)
      ensures Outbound(keyFd).readable == old(Outbound(keyFd).readable)
      ensures mux.interests == old(mux.interests)[keyFd := ChannelInterests(Mine(keyFd))][PeerFd(keyFd) := ChannelInterests(Theirs(keyFd))]
      ensures mux.log == old(mux.log) + if n <= 0 then ReadHalfClose(keyFd, PeerFd(keyFd)) else []
      ensures ret == if Mine(keyFd).duplex == NoInterest then Done else Copy
    {
      var d := CopyPtr(keyFd);
      assert Deref(d.fd) == keyFd;
      var buffer := d.readBuffer;
      ret := Copy;

      if n <= 0 {
        mux.log := mux.log + [Shutdown(Deref(d.fd), ShutRd)];
        d.duplex := d.duplex - {Read};
        if Deref(d.other.fd) != -1 {
          mux.log := mux.log + [Shutdown(Deref(d.other.fd), ShutWr)];
          d.other.duplex := d.other.duplex - {Write};
        }
      } else {
        buffer.UpdateWritePtr(n);
      }

      var _ := CopyComputeInterests(mux, d);
      var _ := CopyComputeInterests(mux, d.other);
      if d.duplex == NoInterest {
        ret := Done;
      }
    }

    /**
     * `copyWrite`, `n` being what `send` returned for the readable region of the
     * channel's buffer. A failed send (`-1`) half-closes the endpoint for writing and,
     * if the peer is open, the peer for reading; otherwise the `n` bytes sent are freed.
     * Both channels' interests are then recomputed, and `Done` is returned exactly when
     * the channel has no direction left open.
     */
    method CopyWrite(mux: Mux, keyFd: int, n: int) returns (ret: State)
      requires Ready() && Wired()
      requires keyFd == clientFd || keyFd == originFd
      requires -1 <= n <= Outbound(keyFd).readable
      modifies clientCopy, originCopy, readBuffer, writeBuffer, mux
      ensures Ready() && Wired()
      ensures n == -1 ==>
        && Mine(keyFd).duplex == old(Mine(keyFd).duplex) - {Write}
        && Theirs(keyFd).duplex == (if PeerFd(keyFd) != -1 then old(Theirs(keyFd).duplex) - {Read} else old(Theirs(keyFd).duplex))
        && Outbound(keyFd).writable == old(Outbound(keyFd).writable)
        && Outbound(keyFd).readable == old(Outbound(keyFd).readable)
      ensures n != -1 ==>
        && Mine(keyFd).duplex == old(Mine(keyFd).duplex)
        && Theirs(keyFd).duplex == old(Theirs(keyFd).duplex)
        && Outbound(keyFd).readable == old(Outbound(keyFd).readable) - n
        && Outbound(keyFd).writable == old(Outbound(keyFd).writable) + n
      ensures Inbound(keyFd).writable == old(Inbound(keyFd).writable)
      ensures Inbound(keyFd).readable == old(Inbound(keyFd).readable)
      ensures mux.interests == old(mux.interests)[keyFd := ChannelInterests(Mine(keyFd))][PeerFd(keyFd) := ChannelInterests(Theirs(keyFd))]
      ensures mux.log == old(mux.log) + if n == -1 then WriteHalfClose(keyFd, PeerFd(keyFd)) else []
      ensures ret == if Mine(keyFd).duplex == NoInterest then Done else Copy
    {
      var d := CopyPtr(keyFd);
      assert Deref(d.fd) == keyFd;
      var buffer := d.writeBuffer;
      ret := Copy;

      if n == -1 {
        mux.log := mux.log + [Shutdown(Deref(d.fd), ShutWr)];
        d.duplex := d.duplex - {Write};
        if Deref(d.other.fd) != -1 {
          mux.log := mux.log + [Shutdown(Deref(d.other.fd), ShutRd)];
          d.other.duplex := d.other.duplex - {Read};
        }
      } else {
        buffer.UpdateReadPtr(n);
      }

      var _ := CopyComputeInterests(mux, d);
      var _ := CopyComputeInterests(mux, d.other);
      if d.duplex == NoInterest {
        ret := Done;
      }
    }

    /**
     * `popv3Done`: unregisters and closes the client descriptor, then the origin
     * descriptor, skipping whichever is `-1`.
     */
    method Popv3Done() returns (effects: seq<Effect>)
      ensures effects == TeardownEffects([clientFd, originFd])
      ensures effects == FdRelease(clientFd) + FdRelease(originFd)
    {
      var fds := [clientFd, originFd];
      effects := [];
      for i := 0 to |fds|
        invariant effects == TeardownEffects(fds[..i])
      {
        assert fds[..i + 1][..i] == fds[..i];
        if fds[i] != -1 {
          effects := effects + [Unregister(fds[i]), Close(fds[i])];
        }
      }
      assert fds[..|fds|] == fds;
      assert fds[..1] == [clientFd];
      assert fds[..1][..0] == [];
    }

    /**
     * `popv3Read`: a read-readiness event on `keyFd`, `n` being what `recv` returned.
     * Because `copyInit` reopens both channels first, a single event clears at most one
     * bit of the channel's mask, the session stays in `Copy`, and the teardown branch is
     * never taken.
     */
    method Popv3Read(mux: Mux, keyFd: int, n: int)
      requires Ready()
      requires keyFd == clientFd || keyFd == originFd
      requires -1 <= n <= Inbound(keyFd).writable
      modifies this`state, clientCopy, originCopy, readBuffer, writeBuffer, mux
      ensures Ready() && Wired()
      ensures state == Copy
      ensures Mine(keyFd).duplex == if n <= 0 then ReadWrite - {Read} else ReadWrite
      ensures Theirs(keyFd).duplex == if n <= 0 && PeerFd(keyFd) != -1 then ReadWrite - {Write} else ReadWrite
      ensures Inbound(keyFd).readable == old(Inbound(keyFd).readable) + (if n > 0 then n else 0)
      ensures Inbound(keyFd).writable == old(Inbound(keyFd).writable) - (if n > 0 then n else 0)
      ensures Outbound(keyFd).writable == old(Outbound(keyFd).writable)
      ensures Outbound(keyFd).readable == old(Outbound(keyFd).readable)
      ensures mux.interests == old(mux.interests)[keyFd := ChannelInterests(Mine(keyFd))][PeerFd(keyFd) := ChannelInterests(Theirs(keyFd))]
      ensures mux.log == old(mux.log) + if n <= 0 then ReadHalfClose(keyFd, PeerFd(keyFd)) else []
    {
      CopyInit();
      state := CopyReadAndQueue(mux, keyFd, n);

      var teardown: seq<Effect> := [];
      if state == Error || state == Done {
        teardown := Popv3Done();
      }
      mux.log := mux.log + teardown;
    }

    /**
     * `popv3Write`: a write-readiness event on `keyFd`, `n` being what `send` returned.
     * As for `popv3Read`, the session stays in `Copy` and is never torn down here.
     */
    method Popv3Write(mux: Mux, keyFd: int, n: int)
      requires Ready()
      requires keyFd == clientFd || keyFd == originFd
      requires -1 <= n <= Outbound(keyFd).readable
      modifies this`state, clientCopy, originCopy, readBuffer, writeBuffer, mux
      ensures Ready() && Wired()
      ensures state == Copy
      ensures Mine(keyFd).duplex == if n == -1 then ReadWrite - {Write} else ReadWrite
      ensures Theirs(keyFd).duplex == if n == -1 && PeerFd(keyFd) != -1 then ReadWrite - {Read} else ReadWrite
      ensures Outbound(keyFd).readable == old(Outbound(keyFd).readable) - (if n != -1 then n else 0)
      ensures Outbound(keyFd).writable == old(Outbound(keyFd).writable) + (if n != -1 then n else 0)
      ensures Inbound(keyFd).writable == old(Inbound(keyFd).writable)
      ensures Inbound(keyFd).readable == old(Inbound(keyFd).readable)
      ensures mux.interests == old(mux.interests)[keyFd := ChannelInterests(Mine(keyFd))][PeerFd(keyFd) := ChannelInterests(Theirs(keyFd))]
      ensures mux.log == old(mux.log) + if n == -1 then WriteHalfClose(keyFd, PeerFd(keyFd)) else []
    {
      CopyInit();
      state := CopyWrite(mux, keyFd, n);

      var teardown: seq<Effect> := [];
      if state == Error || state == Done {
        teardown := Popv3Done();
      }
      mux.log := mux.log + teardown;
    }
  }
}
