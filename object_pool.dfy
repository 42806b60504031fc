/**
 * ObjectPool.ts: a pool filled with `size` new instances at construction;
 * `acquire` pops the most recently pooled instance (LIFO) or, with the pool
 * empty, creates a new one; `release` pushes an instance back, with no check
 * for duplicates or for the original size.
 *
 * An instance is `{ id: Math.random() }`; the random id is not modelled, an
 * instance is an object known only by its identity.
 */
module ObjectPool {

  /** A pooled instance. */
  class Instance {
    constructor () {}
  }

  /** The sequence holds no object twice. */
  ghost predicate Distinct(s: seq<Instance>) {
    forall i, j :: 0 <= i < j < |s| ==> s[i] != s[j]
  }

  class ObjectPool {
    var pool: seq<Instance>
    const size: int

    /**
     * The constructor's `for` loop: `size` pushes of a new instance (none when
     * `size` is not positive). The pooled instances are new and all different.
     */
    constructor (size: int)
      ensures this.size == size
      ensures |pool| == if size < 0 then 0 else size
      ensures Distinct(pool)
      ensures forall x :: x in pool ==> fresh(x)
    {
      var filled: seq<Instance> := [];
      var i := 0;
      while i < size
        invariant 0 <= i <= (if size < 0 then 0 else size)
        invariant |filled| == i
        invariant Distinct(filled)
        invariant forall x :: x in filled ==> fresh(x)
      {
        var instance := new Instance();
        filled := filled + [instance];
        i := i + 1;
      }
      this.size := size;
      pool := filled;
    }

    /**
     * `acquire`: the last pooled instance, removed from the pool; with the
     * pool empty, a new instance, and the pool stays empty.
     */
    method Acquire() returns (instance: Instance)
      modifies this
      ensures old(pool) != [] ==>
        instance == old(pool[|pool| - 1]) && pool == old(pool[..|pool| - 1])
      ensures old(pool) == [] ==> fresh(instance) && pool == []
    {
      if |pool| > 0 {
        instance := pool[|pool| - 1];
        pool := pool[..|pool| - 1];
      } else {
        instance := new Instance();
      }
    }

    /** `release`: pushes the instance, whatever the pool already holds. */
    method Release(instance: Instance)
      modifies this
      ensures pool == old(pool) + [instance]
    {
      pool := pool + [instance];
    }
  }

  /** Releasing an instance and acquiring right away gives that instance back, and the pool as it was. */
  method ReleaseThenAcquire(p: ObjectPool, x: Instance) returns (y: Instance)
    modifies p
    ensures y == x && p.pool == old(p.pool)
  {
    p.Release(x);
    y := p.Acquire();
  }

  /**
   * The driver: a pool of 5; acquire obj1 and obj2 (two different instances);
   * release both; the next acquire returns obj2, the last released.
   */
  method Scenario() returns (obj1: Instance, obj2: Instance, obj3: Instance, left: nat)
    ensures obj1 != obj2
    ensures obj3 == obj2
    ensures left == 4
  {
    var pool := new ObjectPool(5);
    obj1 := pool.Acquire();
    obj2 := pool.Acquire();
    pool.Release(obj1);
    pool.Release(obj2);
    obj3 := pool.Acquire();
    left := |pool.pool|;
  }
}
