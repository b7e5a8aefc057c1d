/**
 The block pool under the I/O scheduler (src/iosched/cache_manager.c): blocks are made on demand,
 handed out with a reference count, and either kept for reuse or destroyed when the last reference
 goes. To its users it is nothing but a bound on the number of blocks handed out.
 */
module CachePool {
  import opened Bytes

  class CacheBlock {
    var refcount: nat
    var data: seq<byte>

    constructor (size: nat)
      ensures refcount == 1 && data == Zeros(size)
    {
      refcount, data := 1, Zeros(size);
    }
  }

  /** The capacity to grow to when no block is free. */
  function GrownSize(current: nat, max: nat): nat {
    if current * 2 < max then (if current > 0 then current * 2 else max / 2) else max
  }

  /** Growing doubles the capacity up to its bound, from nothing it takes half of that, and it always adds but once. */
  lemma GrowthAddsRoom(current: nat, max: nat)
    requires current < max
    ensures GrownSize(current, max) == if current == 0 then max / 2 else Min(2 * current, max)
    ensures current <= GrownSize(current, max) <= max
    ensures GrownSize(current, max) == current <==> current == 0 && max == 1
  {
  }

  class Pool {
    const objectSize: nat
    const initialCapacity: nat
    const maxCapacity: nat
    var currentCapacity: nat
    var pool: seq<CacheBlock>
    /** The objects that callers hold references to. */
    ghost var out: set<CacheBlock>

    ghost predicate Valid()
      reads this, out
    {
      && initialCapacity <= currentCapacity <= maxCapacity
      && currentCapacity == |pool| + |out|
      && (forall i :: 0 <= i < |pool| ==> pool[i] !in out)
      && (forall i, j :: 0 <= i < j < |pool| ==> pool[i] != pool[j])
      && (forall o :: o in out ==> o.refcount >= 1)
    }

    constructor (objectSize: nat, initialCapacity: nat, maxCapacity: nat)
      requires initialCapacity <= maxCapacity
      ensures Valid() && out == {} && currentCapacity == initialCapacity && fresh(pool)
      ensures this.objectSize == objectSize
      ensures this.initialCapacity == initialCapacity && this.maxCapacity == maxCapacity
    {
      this.objectSize, this.initialCapacity, this.maxCapacity := objectSize, initialCapacity, maxCapacity;
      currentCapacity, pool, out := initialCapacity, [], {};
      new;
      var i := 0;
      while i < initialCapacity
        invariant 0 <= i <= initialCapacity && |pool| == i && fresh(pool)
        invariant currentCapacity == initialCapacity && out == {}
        invariant forall a, b :: 0 <= a < b < |pool| ==> pool[a] != pool[b]
      {
        var block := new CacheBlock(objectSize);
        pool := pool + [block];
        i := i + 1;
      }
    }

    /** There is room exactly when fewer objects are handed out than the pool may ever have. */
    method HasRoom() returns (room: bool)
      requires Valid()
      ensures room <==> |out| < maxCapacity
    {
      room := !(|pool| == 0 && currentCapacity == maxCapacity);
    }

    /**
     Allocation succeeds exactly when there is room, but for one pool: the one with no initial
     block and at most one, whose growth step rounds down to nothing.
     */
    method Allocate() returns (block: CacheBlock?)
      requires Valid()
      modifies this, pool
      ensures Valid()
      ensures block != null <==> |old(out)| < maxCapacity && !(old(currentCapacity) == 0 && maxCapacity == 1)
      ensures maxCapacity >= 2 || initialCapacity >= 1 ==> (block != null <==> |old(out)| < maxCapacity)
      ensures block == null ==> out == old(out) && pool == old(pool) && currentCapacity == old(currentCapacity)
      ensures block != null ==>
        && block !in old(out) && out == old(out) + {block} && block.refcount == 1
        && (if old(pool) != [] then
              block == old(pool)[0] && pool == old(pool)[1..] && currentCapacity == old(currentCapacity)
            else
              fresh(block) && fresh(pool) && currentCapacity == GrownSize(old(currentCapacity), maxCapacity))
    {
      if |pool| > 0 {
        block := TakeFirst();
        return;
      }
      if currentCapacity == maxCapacity {
        return null;
      }
      GrowthAddsRoom(currentCapacity, maxCapacity);
      Grow(GrownSize(currentCapacity, maxCapacity));
      if |pool| == 0 {
        return null;
      }
      block := pool[|pool| - 1];
      pool := pool[..|pool| - 1];
      out := out + {block};
    }

    /** The first available block. */
    method TakeFirst() returns (block: CacheBlock)
      requires Valid() && pool != []
      modifies this`pool, this`out, pool[0]
      ensures Valid() && block == old(pool)[0] && pool == old(pool)[1..] && block.refcount == 1
      ensures block !in old(out) && out == old(out) + {block}
    {
      block := pool[0];
      pool := pool[1..];
      block.refcount := 1;
      out := out + {block};
    }

    /** The loop that adds blocks up to `newSize`; the last one is at the end of the free list. */
    method Grow(newSize: nat)
      requires Valid() && pool == [] && currentCapacity <= newSize <= maxCapacity
      modifies this`pool, this`currentCapacity
      ensures Valid() && currentCapacity == newSize && |pool| == newSize - old(currentCapacity) && fresh(pool)
      ensures forall k :: 0 <= k < |pool| ==> pool[k].refcount == 1
    {
      var i := currentCapacity;
      while i < newSize
        invariant old(currentCapacity) <= i <= newSize && currentCapacity == i
        invariant Valid() && |pool| == i - old(currentCapacity) && fresh(pool)
        invariant forall k :: 0 <= k < |pool| ==> pool[k].refcount == 1
      {
        var block := new CacheBlock(objectSize);
        pool := pool + [block];
        currentCapacity := currentCapacity + 1;
        i := i + 1;
      }
    }

    method GetObject(block: CacheBlock)
      requires Valid() && block in out
      modifies block
      ensures Valid() && block.refcount == old(block.refcount) + 1
    {
      block.refcount := block.refcount + 1;
    }

    /**
     Giving up a reference. Only the last one takes the block back: a pool above its initial
     capacity shrinks, any other keeps the block for reuse with its first bytes wiped.
     */
    method FreeObject(block: CacheBlock, count: nat)
      requires Valid() && block in out && count <= |block.data|
      modifies this, block
      ensures Valid()
      ensures old(block.refcount) > 1 ==>
        && block.refcount == old(block.refcount) - 1
        && out == old(out) && pool == old(pool) && currentCapacity == old(currentCapacity)
      ensures old(block.refcount) == 1 ==> out == old(out) - {block}
      ensures old(block.refcount) == 1 && old(currentCapacity) > initialCapacity ==>
        currentCapacity == old(currentCapacity) - 1 && pool == old(pool)
      ensures old(block.refcount) == 1 && old(currentCapacity) == initialCapacity ==>
        && currentCapacity == old(currentCapacity) && pool == old(pool) + [block]
        && block.data == if count == 0 then Zeros(|old(block.data)|) else Zeros(count) + old(block.data)[count..]
    {
      block.refcount := block.refcount - 1;
      if block.refcount > 0 {
        return;
      }
      out := out - {block};
      if currentCapacity > initialCapacity {
        currentCapacity := currentCapacity - 1;
      } else {
        block.data := if count > 0 then Zeros(count) + block.data[count..] else Zeros(|block.data|);
        pool := pool + [block];
      }
    }
  }
}
