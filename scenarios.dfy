/**
 * Short runs of the relay built only from the contracts of the pool and the session:
 * what a client, an origin and the multiplexor observe.
 */
module Scenarios {
  import opened Interest
  import opened ByteBuffer
  import opened Multiplexor
  import opened Session
  import opened SessionPool

  /**
   * A client sends 100 bytes before the origin has sent anything: the bytes become
   * pending for the origin, which is now asked to write, and the client is still asked
   * to read.
   */
  method ClientSendsFirst()
  {
    var pool := new Pool();
    var mux := new Mux();
    var p := pool.NewPopv3(5, 6, BufferSize, true);
    p.Popv3Read(mux, 5, 100);
    assert p.readBuffer.readable == 100;
    assert mux.interests[5] == {Read};
    assert mux.interests[6] == ReadWrite;
    assert p.state == Copy;
  }

  /**
   * The origin closes: its channel stops reading and the client's stops writing. On the
   * next event, `copyInit` reopens both, so the origin is asked to read again.
   */
  method HalfCloseIsReopened()
  {
    var pool := new Pool();
    var mux := new Mux();
    var p := pool.NewPopv3(5, 6, BufferSize, true);
    p.Popv3Read(mux, 6, 0);
    assert p.originCopy.duplex == {Write} && p.clientCopy.duplex == {Read};
    assert Read !in mux.interests[6];
    assert mux.log == [Shutdown(6, ShutRd), Shutdown(5, ShutWr)];

    p.Popv3Read(mux, 5, 10);
    assert p.originCopy.duplex == ReadWrite;
    assert Read in mux.interests[6];
  }

  /**
   * Both endpoints close, one after the other: the session is still in `Copy` and
   * neither descriptor has been unregistered or closed.
   */
  method BothSidesCloseWithoutTeardown()
  {
    var pool := new Pool();
    var mux := new Mux();
    var p := pool.NewPopv3(5, 6, BufferSize, true);
    p.Popv3Read(mux, 5, 0);
    p.Popv3Read(mux, 6, 0);
    assert p.state == Copy;
    assert mux.log == [Shutdown(5, ShutRd), Shutdown(6, ShutWr), Shutdown(6, ShutRd), Shutdown(5, ShutWr)];
  }

  /** A released session is the one the next connection gets, cleared of its old state. */
  method ReleasedSessionIsReused()
  {
    var pool := new Pool();
    var mux := new Mux();
    var p := pool.NewPopv3(5, 6, BufferSize, true);
    p.Popv3Read(mux, 5, 100);
    Popv3Close(pool, p);
    assert pool.free == [p] && pool.poolSize == 1;

    var q := pool.NewPopv3(7, 8, BufferSize, false);
    assert q == p && pool.free == [] && pool.poolSize == 1;
    assert q.clientFd == 7 && q.readBuffer.readable == 0 && q.clientCopy.duplex == NoInterest;
  }
}
