/**
 * The free list of `struct popv3` records (`pool`, `poolSize`, `maxPool`) and the two
 * operations that use it, `newPopv3` and `deletePopv3`.
 *
 * `poolSize` counts records pushed onto the list and is never decremented when one is
 * popped, so it is only an upper bound on the list's length; once it reaches `maxPool`
 * no released record is kept again.
 */
module SessionPool {
  import opened Session

  /** `maxPool`. */
  const MaxPool: nat := 50

  /** The pool as two numbers: the length of the free list and the value of `poolSize`. */
  datatype Counts = Counts(free: nat, size: nat)

  /** `newPopv3`, or `deletePopv3` on a record that does (`lastReference`) or does not hold its last reference. */
  datatype PoolOp = Alloc | Release(lastReference: bool)

  /** The bound every reachable pool satisfies. */
  ghost predicate Bounded(c: Counts)
  {
    c.free <= c.size <= MaxPool
  }

  /**
   * The effect of one operation on the counts. An allocation pops a record when there
   * is one and leaves `poolSize` alone; a release of a last reference pushes the record
   * and counts it only while `poolSize` is below `MaxPool`.
   */
  function Step(c: Counts, op: PoolOp): (r: Counts)
    ensures r.size == c.size || r.size == c.size + 1
    ensures op == Alloc ==> r.size == c.size && r.free == if c.free == 0 then 0 else c.free - 1
    ensures op.Release? ==> (r.size == c.size + 1 <==> op.lastReference && c.size < MaxPool)
    ensures op.Release? ==> r.free - c.free == r.size - c.size
    ensures Bounded(c) ==> Bounded(r)
  {
    match op
    case Alloc => Counts(if c.free == 0 then 0 else c.free - 1, c.size)
    case Release(last) => if last && c.size < MaxPool then Counts(c.free + 1, c.size + 1) else c
  }

  /** The counts after running `ops` in order from `c`. */
  function Run(c: Counts, ops: seq<PoolOp>): Counts
  {
    if ops == [] then c else Step(Run(c, ops[..|ops| - 1]), ops[|ops| - 1])
  }

  /** Whatever sequence of allocations and releases runs, the free list never outgrows `poolSize`, nor `poolSize` `MaxPool`. */
  lemma {:induction false} RunStaysBounded(c: Counts, ops: seq<PoolOp>)
    requires Bounded(c)
    ensures Bounded(Run(c, ops))
  {
    if ops != [] {
      RunStaysBounded(c, ops[..|ops| - 1]);
    }
  }

  /** Once `poolSize` has reached `MaxPool`, the free list only ever shrinks: no released record is kept again. */
  lemma {:induction false} SaturatedPoolOnlyShrinks(c: Counts, ops: seq<PoolOp>)
    requires c.size == MaxPool
    ensures Run(c, ops).size == MaxPool
    ensures Run(c, ops).free <= c.free
  {
    if ops != [] {
      SaturatedPoolOnlyShrinks(c, ops[..|ops| - 1]);
    }
  }

  /** `k` connections handled one after another: each allocates a record and releases it. */
  function Churn(k: nat): (ops: seq<PoolOp>)
    ensures |ops| == 2 * k
  {
    if k == 0 then [] else Churn(k - 1) + [Alloc, Release(true)]
  }

  /**
   * Starting from the empty pool, one connection at a time: the same record is reused
   * for the first `MaxPool` connections, after which the pool is empty for good and
   * every later connection allocates afresh.
   */
  lemma {:induction false} ChurnSaturatesPool(k: nat)
    ensures Run(Counts(0, 0), Churn(k)) == if k == 0 then Counts(0, 0) else if k <= MaxPool then Counts(1, k) else Counts(0, MaxPool)
  {
    if k > 0 {
      ChurnSaturatesPool(k - 1);
      var ops := Churn(k);
      assert ops[..|ops| - 1] == Churn(k - 1) + [Alloc];
      assert (Churn(k - 1) + [Alloc])[..|ops| - 2] == Churn(k - 1);
    }
  }

  /** The pool globals of `popv3nio.c`. */
  class Pool {
    /** `pool`: the head of the free list, linked through `next`. */
    var pool: Popv3?
    /** `poolSize`. */
    var poolSize: nat
    /** The records on the free list, head first. */
    ghost var free: seq<Popv3>

    /**
     * The free list is `free`, linked through `next` and ended by `null`, with no record
     * twice; it is no longer than `poolSize`, which is at most `MaxPool`.
     */
    ghost predicate Valid()
      reads this, free
    {
      && Bounded(Tally())
      && (free == [] ==> pool == null)
      && (free != [] ==> pool == free[0] && free[|free| - 1].next == null)
      && (forall i :: 0 <= i < |free| - 1 ==> free[i].next == free[i + 1])
      && (forall i, j :: 0 <= i < j < |free| ==> free[i] != free[j])
      && (forall i :: 0 <= i < |free| ==> free[i].TwoChannels())
    }

    ghost function Tally(): Counts
      reads this
    {
      Counts.Counts(|free|, poolSize)
    }

    /** The initial values of the globals. */
    constructor ()
      ensures Valid() && pool == null && free == [] && poolSize == 0
    {
      pool := null;
      poolSize := 0;
      free := [];
    }

    /**
     * `newPopv3`: the head of the free list if there is one, else a new record (`null`
     * when `malloc` fails, `mallocOk` being its outcome), set up for the given
     * descriptors. `poolSize` is not decremented by a pop.
     */
    method NewPopv3(clientFd: int, originFd: int, bufferSize: nat, mallocOk: bool) returns (ret: Popv3?)
      requires Valid()
      modifies this, pool, if pool == null then {} else {pool.clientCopy, pool.originCopy}
      ensures Valid()
      ensures Tally() == Step(old(Tally()), Alloc)
      ensures poolSize == old(poolSize)
      ensures old(pool) != null ==> ret == old(pool) && pool == old(pool.next) && free == old(free)[1..]
      ensures old(pool) == null ==> pool == null && free == [] && (ret != null <==> mallocOk)
      ensures old(pool) == null && ret != null ==> fresh(ret) && fresh(ret.clientCopy) && fresh(ret.originCopy)
      ensures ret != null ==>
        && ret !in free
        && ret.state == Copy && ret.clientFd == clientFd && ret.originFd == originFd
        && ret.references == 1 && ret.next == null
        && ret.Ready() && fresh(ret.readBuffer) && fresh(ret.writeBuffer)
        && ret.readBuffer.capacity == BufferSize && ret.readBuffer.readable == 0
        && ret.writeBuffer.capacity == BufferSize && ret.writeBuffer.readable == 0
        && ret.clientCopy.Zeroed() && ret.originCopy.Zeroed()
    {
      if pool == null {
        if mallocOk {
          ret := new Popv3();
        } else {
          ret := null;
        }
      } else {
        ret := pool;
        pool := pool.next;
        ret.next := null;
        free := free[1..];
      }
      if ret == null {
        return;
      }
      ret.Reset(clientFd, originFd, bufferSize);
    }

    /**
     * `deletePopv3`: nothing for `null`; a record holding its last reference is pushed
     * onto the free list while `poolSize` is below `MaxPool` and freed otherwise; any
     * other record only loses a reference.
     */
    method DeletePopv3(p: Popv3?)
      requires Valid()
      requires p != null ==> p !in free && p.TwoChannels()
      modifies this, (if p == null then {} else {p})`next, (if p == null then {} else {p})`references
      ensures Valid()
      ensures p == null ==> pool == old(pool) && free == old(free) && poolSize == old(poolSize)
      ensures p != null ==> Tally() == Step(old(Tally()), Release(old(p.references) == 1))
      ensures p != null && old(p.references) == 1 && old(poolSize) < MaxPool ==>
        && pool == p && p.next == old(pool) && free == [p] + old(free) && poolSize == old(poolSize) + 1
        && p.references == old(p.references)
      ensures p != null && old(p.references) == 1 && old(poolSize) >= MaxPool ==>
        pool == old(pool) && free == old(free) && poolSize == old(poolSize) && unchanged(p)
      ensures p != null && old(p.references) != 1 ==>
        && pool == old(pool) && free == old(free) && poolSize == old(poolSize)
        && p.references == Decrement(old(p.references)) && p.next == old(p.next)
    {
      if p != null {
        if p.references == 1 {
          if poolSize < MaxPool {
            p.next := pool;
            pool := p;
            poolSize := poolSize + 1;
            free := [p] + free;
          }
        } else {
          p.references := Decrement(p.references);
        }
      }
    }
  }

  /** `popv3Close`: the multiplexor's close handler releases the session attached to the key. */
  method Popv3Close(pool: Pool, attachment: Popv3?)
    requires pool.Valid()
    requires attachment != null ==> attachment !in pool.free && attachment.TwoChannels()
    modifies pool, (if attachment == null then {} else {attachment})`next, (if attachment == null then {} else {attachment})`references
    ensures pool.Valid()
    ensures attachment == null ==> pool.pool == old(pool.pool) && pool.free == old(pool.free) && pool.poolSize == old(pool.poolSize)
    ensures attachment != null ==> pool.Tally() == Step(old(pool.Tally()), Release(old(attachment.references) == 1))
    ensures attachment != null && old(attachment.references) == 1 && old(pool.poolSize) < MaxPool ==>
      && pool.pool == attachment && attachment.next == old(pool.pool) && pool.free == [attachment] + old(pool.free)
      && pool.poolSize == old(pool.poolSize) + 1 && attachment.references == old(attachment.references)
    ensures attachment != null && old(attachment.references) == 1 && old(pool.poolSize) >= MaxPool ==>
      pool.pool == old(pool.pool) && pool.free == old(pool.free) && pool.poolSize == old(pool.poolSize) && unchanged(attachment)
    ensures attachment != null && old(attachment.references) != 1 ==>
      && pool.pool == old(pool.pool) && pool.free == old(pool.free) && pool.poolSize == old(pool.poolSize)
      && attachment.references == Decrement(old(attachment.references)) && attachment.next == old(attachment.next)
  {
    pool.DeletePopv3(attachment);
  }
}
