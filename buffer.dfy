/**
 * The byte buffer behind `bufferADT`, seen only through the sizes of its writable
 * region (`getWritePtr`) and of its readable region (`getReadPtr`).
 */
module ByteBuffer {

  class Buffer {
    /** The capacity the buffer was created with. */
    const capacity: nat
    /** Size of the region `getWritePtr` hands out. */
    var writable: nat
    /** Size of the region `getReadPtr` hands out. */
    var readable: nat

    /** Every byte of the buffer is either free or pending. */
    ghost predicate Valid()
      reads this
    {
      writable + readable == capacity
    }

    /** `createBuffer(capacity)`: an empty buffer. */
    constructor (capacity: nat)
      ensures Valid()
      ensures this.capacity == capacity && writable == capacity && readable == 0
    {
      this.capacity := capacity;
      writable := capacity;
      readable := 0;
    }

    /** `canWrite`: there is room to receive into. */
    predicate CanWrite()
      reads this
    {
      writable > 0
    }

    /** `canRead`: there are bytes pending to be sent. */
    predicate CanRead()
      reads this
    {
      readable > 0
    }

    /** `updateWritePtr(n)`: `n` bytes just received become pending. */
    method UpdateWritePtr(n: nat)
      requires Valid() && n <= writable
      modifies this
      ensures Valid()
      ensures writable == old(writable) - n && readable == old(readable) + n
    {
      writable := writable - n;
      readable := readable + n;
    }

    /** `updateReadPtr(n)`: `n` pending bytes were sent and their room is free again. */
    method UpdateReadPtr(n: nat)
      requires Valid() && n <= readable
      modifies this
      ensures Valid()
      ensures readable == old(readable) - n && writable == old(writable) + n
    {
      readable := readable - n;
      writable := writable + n;
    }
  }
}
