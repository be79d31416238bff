# ProxyPOP3 relay core in Dafny

A model of the per-connection relay bookkeeping of `src/popv3nio.c`, the session core
of a non-blocking, single-threaded TCP proxy that sits between a POP3 client and a fixed
origin server. The relay moves bytes transparently in both directions. The model covers
three parts:

- **The session pool.** The globals `pool`, `poolSize` and `maxPool = 50` become the
  class `SessionPool.Pool`. It holds a free list of `struct popv3` records linked through
  `next`, plus a ghost sequence of its records. `newPopv3` pops a record from the list or
  allocates one, then clears and sets it up. `deletePopv3` pushes the record, frees it or
  drops one reference. `Counts` and `Step` give the pool's two numbers (the list length
  and `poolSize`), and lemmas over whole sequences of operations are proved about them.
- **The duplex copy channels.** `struct popv3` becomes the class `Session.Popv3` and
  `struct copy` becomes `Session.Channel`. The two channels are embedded in the session.
  Their `int *fd` pointers designate one of the session's two descriptor fields, and
  they are cross-wired over the session's two buffers.
  - `copyInit` wires the channels.
  - `copyPtr` picks the channel an event is for.
  - `copyComputeInterests` applies the backpressure rule and sets the result as the
    descriptor's interest.
  - `copyReadAndQueue` and `copyWrite` move buffer cursors or propagate a half-close.
- **Event dispatch and teardown.** `popv3Read`, `popv3Write`, `popv3Done` and
  `popv3Close`.

What stands in for the outside world:
- The buffer behind `bufferADT` is `ByteBuffer.Buffer`. It has only the size of its
  writable region and the size of its readable region. `canWrite` and `canRead` test
  them, and `updateWritePtr` and `updateReadPtr` move `n` bytes from one to the other.
- The multiplexor and the socket calls are `Multiplexor.Mux`. It keeps the interest last
  set for each descriptor, and a ghost log of `shutdown`, `unregisterFd` and `close`
  calls.
- What `recv` and `send` return is a parameter `n` of the event methods, between `-1`
  and the size of the region offered.
- Interest masks are sets of the two bits `Read` and `Write`.

## Behaviour kept as written

- **`copyInit` runs at the start of every event.** It reopens both directions of both
  channels (`src/popv3nio.c:95,106`), and one event then clears at most one bit of the
  event's channel. So `copyReadAndQueue` and `copyWrite` never return `DONE` on this
  path. `Popv3Read` and `Popv3Write` prove `state == Copy` after every event, and
  `popv3Done` is never reached from them. A half-close is forgotten at the next event on
  the session, so the interest bits of a channel are not monotonic: a cleared `READ` is
  asked for again. The scenarios in `scenarios.dfy` show both.
- **`poolSize` is only ever incremented.** `newPopv3` pops a record without decrementing
  `poolSize`. So `poolSize` is an upper bound on the free list's length, not its length.
  Once `maxPool` records have been returned in total, no released record is kept again.
  `ChurnSaturatesPool` shows the effect: with one connection at a time, the pool stops
  recycling after the 50th connection.
- **Teardown does not release the session.** `popv3Done` unregisters and closes the
  descriptors, but it neither releases the record nor sets the descriptors to `-1`.
  A record goes back to the pool only through the close handler `popv3Close`.
- **The last reference is not decremented.** `deletePopv3` keeps or frees a record that
  holds its last reference (`references == 1`) without decrementing the count. Any other
  record only loses one reference, and the decrement of the `unsigned` count wraps at 0.
- **DONE depends on one channel.** `DONE` is decided from the event's own channel only,
  not from both channels being closed.

## Model

| member | source | states |
|---|---|---|
| `Interest.ComputeInterests` | src/popv3nio.c:254-260 | READ is in the interest iff READ is in the duplex mask and the channel's read buffer can be written; WRITE iff WRITE is in the mask and its write buffer can be read; so the interest is a subset of the mask |
| `Interest.ClearingDuplexNeverAddsInterest` | src/popv3nio.c:256-259 | clearing bits of a duplex mask never adds a bit to the computed interest |
| `Interest.ClosedChannelHasNoInterest` | src/popv3nio.c:254-260 | a channel with an empty duplex mask asks for no interest whatever its buffers hold |
| `ByteBuffer.Buffer.constructor` | src/popv3nio.c:169-170 | `createBuffer`: an empty buffer whose writable region is its whole capacity |
| `ByteBuffer.Buffer.UpdateWritePtr` | src/popv3nio.c:297 | `n` received bytes, at most the writable size, leave the writable region and join the readable one; the total stays the capacity |
| `ByteBuffer.Buffer.UpdateReadPtr` | src/popv3nio.c:330 | `n` sent bytes, at most the readable size, leave the readable region and join the writable one; the total stays the capacity |
| `Multiplexor.Mux.SetInterest` | src/popv3nio.c:262-263 | `setInterest` replaces the interest of that one descriptor and changes nothing else |
| `Session.Decrement` | src/popv3nio.c:188 | `references -= 1` on an unsigned: one less for a positive count, and 0 wraps to 4294967295 |
| `Session.FdReleaseCounts` | src/popv3nio.c:132-137 | one `fds` entry unregisters and closes its own descriptor once, unless it is -1, and nothing else |
| `Session.TeardownReleasesEachOnce` | src/popv3nio.c:127-138 | over any `fds` array, each descriptor other than -1 is unregistered and closed as often as it occurs, and -1 never is |
| `Session.TeardownOfSessionReleasesEachOnce` | src/popv3nio.c:127-138 | with distinct client and origin descriptors, each open one is unregistered exactly once and closed exactly once |
| `Session.Channel.constructor` | src/popv3nio.c:164 | a `copy` record as `memset(0)` leaves it: no descriptor, no buffers, no interest, no peer |
| `Session.Popv3.constructor` | src/popv3nio.c:155 | `malloc` of a session: two new embedded channel records and no pool link |
| `Session.Popv3.Reset` | src/popv3nio.c:164-172 | the cleared and set-up record: state COPY, the given descriptors, one reference, no pool link, two fresh empty buffers of `BUFFER_SIZE`, zeroed channels; the requested buffer size is not used |
| `Session.Popv3.CopyInit` | src/popv3nio.c:236-252 | client channel fills `readBuffer` and drains `writeBuffer` on the client descriptor, origin channel the reverse on the origin descriptor, each the other's peer, both masks READ and WRITE |
| `Session.Popv3.CopyPtr` | src/popv3nio.c:268-275 | the client channel exactly when the event descriptor is the client's, otherwise the origin channel; for either registered descriptor the chosen channel's descriptor is the event's |
| `Session.Popv3.CopyComputeInterests` | src/popv3nio.c:254-266 | for either of the session's own two channels: returns the backpressure interest of the channel, sets it for the channel's descriptor, and leaves the channel unchanged |
| `Session.Popv3.CopyReadAndQueue` | src/popv3nio.c:277-310 | `n <= 0`: READ cleared on the channel, WRITE on the peer only if the peer descriptor is not -1, read-side and write-side shutdowns logged, buffers unchanged; `n > 0`: exactly `n` bytes become pending in the channel's read buffer, masks unchanged; both interests recomputed and set; DONE iff the channel's mask is empty |
| `Session.Popv3.CopyWrite` | src/popv3nio.c:312-340 | `n == -1`: WRITE cleared on the channel, READ on the peer only if the peer descriptor is not -1, shutdowns logged, buffers unchanged; otherwise exactly `n` pending bytes of the channel's write buffer are freed, masks unchanged; both interests recomputed and set; DONE iff the channel's mask is empty |
| `Session.Popv3.Popv3Done` | src/popv3nio.c:125-139 | unregister then close the client descriptor, then the same for the origin descriptor, skipping either one that is -1 |
| `Session.Popv3.Popv3Read` | src/popv3nio.c:93-103 | after `copyInit` and one read, the state is COPY, so teardown never runs; the event's channel has lost at most READ, the peer at most WRITE; buffer, interests and log are as for `copyReadAndQueue` |
| `Session.Popv3.Popv3Write` | src/popv3nio.c:105-115 | after `copyInit` and one write, the state is COPY, so teardown never runs; the event's channel has lost at most WRITE, the peer at most READ; buffer, interests and log are as for `copyWrite` |
| `SessionPool.Step` | src/popv3nio.c:151-191 | allocation pops one record when there is one and leaves `poolSize`; releasing a last reference grows both counts by one exactly when `poolSize < maxPool`; every step keeps list length <= `poolSize` <= `maxPool` |
| `SessionPool.RunStaysBounded` | src/popv3nio.c:147-191 | across any sequence of allocations and releases, list length <= `poolSize` <= 50 |
| `SessionPool.SaturatedPoolOnlyShrinks` | src/popv3nio.c:154-186 | once `poolSize` is 50 it stays 50 and the free list never grows again |
| `SessionPool.ChurnSaturatesPool` | src/popv3nio.c:151-191 | from an empty pool with one connection at a time, the list holds one record for the first 50 connections and is empty for good after that |
| `SessionPool.Pool.constructor` | src/popv3nio.c:147-149 | the pool starts empty with `poolSize` 0 |
| `SessionPool.Pool.NewPopv3` | src/popv3nio.c:151-175 | with a non-empty list: the former head, the list now starting at its old `next`, `poolSize` unchanged; with an empty list: a new record, or `null` when allocation fails; a returned record is off the list and set up as by `Reset`; the pool invariant holds |
| `SessionPool.Pool.DeletePopv3` | src/popv3nio.c:177-191 | `null`: nothing; last reference and `poolSize < 50`: pushed at the head, `poolSize` + 1; last reference at 50: freed, pool and record unchanged; otherwise only `references` decremented, with the pool unchanged; no field of the record other than `next` and `references` is ever changed; the pool invariant holds |
| `SessionPool.Popv3Close` | src/popv3nio.c:121-123 | the close handler releases the attached session exactly as `deletePopv3` does: no attachment leaves the pool alone; a last reference below 50 is pushed at the head with `poolSize` + 1; a last reference at 50 leaves pool and record unchanged; any other record loses one reference; only `next` and `references` of the record may change |

## Left out

- `popv3PassiveAccept` (`src/popv3nio.c:193-234`) is socket I/O and process control:
  `accept`, `fdSetNIO`, `socket`, `connect`, `exit(1)` and registering the two
  descriptors.
- `recv`, `send`, `shutdown` and `close` are not modelled as system calls.
  - What `recv` and `send` return is a parameter.
  - `shutdown`, `unregisterFd` and `close` are only entries in a ghost log.
- The multiplexor library is not part of this model. `registerFd`, `unregisterFd`,
  `setInterest` and event dispatch are outside it, and so are the `fail(...)` aborts
  when `setInterest` or `unregisterFd` fails. Both calls are taken to succeed.
- `bufferADT` is not part of this model. `createBuffer`, the pointers from `getWritePtr`
  and `getReadPtr`, and the bytes themselves are outside it. So byte order from one
  endpoint to the other is not modelled.
- Buffer regions: the writable region is taken to be all free space. A ring buffer whose
  free space is split in two hands out a smaller region.
- Memory management (`malloc`, `free`, `memset`) is outside the model.
  - A failed `malloc` is the parameter `mallocOk`.
  - `free(p)` leaves the record unchanged.
  - The buffers a reused record had before are dropped, as in the code, which does not
    release them.
- Logging and metrics (`logInfo`, `logDebug`, `logMetric`, `logFatal`) are left out, and
  so is the empty `popv3Block`.
- `CONNECTING`, `AUTHORIZATION`, `TRANSACTION` and `UPDATE` are enum values only. Nothing
  assigns them.
- `copyInit`'s `state` argument is not used by the code and is dropped.
- `checkAreEquals` in `copyReadAndQueue` and `assert` in `copyWrite` become a
  precondition: the event descriptor is one of the session's two descriptors, as it is
  for every descriptor the proxy registers.
- `SessionPool.Pool.DeletePopv3` requires the released record not to be on the free list
  already. Releasing a record twice would make the list cyclic in the code, and the code
  can reach that case. `popv3PassiveAccept` registers both descriptors with the same
  record as attachment (`src/popv3nio.c:221,224`), yet `references` is set to 1 and never
  raised (`src/popv3nio.c:164,172`). A close event for each registration would then call
  `deletePopv3` twice on a record with `references == 1`, and push it twice
  (`src/popv3nio.c:179-183`). Whether the multiplexor delivers both close events is
  outside this model, so the model does not say what happens then.
- Concurrency is not modelled: the code runs on one thread and nothing here interleaves.
