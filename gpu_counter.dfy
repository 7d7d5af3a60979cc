/**
 * The GPU timer query pool behind `ScopedGpuCounter` in
 * pathos/rhi/gl_debug_group.cpp. A pool of 2n timestamp queries serves up to
 * n counters per frame: each counter takes the next two queries and records
 * its name and nesting depth; a flush reads the timestamps back as one
 * result per counter and returns every query to the pool. Query object names
 * come from the render device and are parameters; so are the timestamps.
 */
module GpuCounters {
  import opened Wrappers

  const MaxGpuCounters: nat := 256
  const TwoTo64: int := 0x1_0000_0000_0000_0000

  /** One counter of a flush: its name, its nesting depth and the elapsed
      time in nanoseconds, as the unsigned 64-bit difference of its two timestamps. */
  datatype CounterResult = CounterResult(name: string, elapsedNs: nat, indentLevel: int)

  /** The queries a live counter holds. */
  datatype Counter = Counter(query1: nat, query2: nat)

  /** GLuint64 subtraction: wraps modulo 2^64. */
  function ElapsedNs(begin: nat, end: nat): (r: nat)
    requires begin < TwoTo64 && end < TwoTo64
    ensures r < TwoTo64
    ensures begin <= end ==> r == end - begin
    ensures end < begin ==> r == end - begin + TwoTo64
  {
    (end - begin) % TwoTo64
  }

  /** The results `flushQueries` builds from the first `k` counters. */
  function Results(names: seq<string>, indents: seq<int>, stamps: seq<nat>, k: nat): (r: seq<CounterResult>)
    requires k <= |names| && k <= |indents| && 2 * k <= |stamps|
    requires forall i :: 0 <= i < |stamps| ==> stamps[i] < TwoTo64
    ensures |r| == k
    ensures forall c :: 0 <= c < k ==>
              r[c] == CounterResult(names[c], ElapsedNs(stamps[2 * c], stamps[2 * c + 1]), indents[c])
  {
    if k == 0 then []
    else Results(names, indents, stamps, k - 1) +
         [CounterResult(names[k - 1], ElapsedNs(stamps[2 * (k - 1)], stamps[2 * (k - 1) + 1]), indents[k - 1])]
  }

  /** Pairs taken from an even-sized pool: a slot left means two queries and a name slot left. */
  lemma EvenStep(used: nat, max: nat)
    requires used % 2 == 0 && max % 2 == 0
    ensures used < max ==> used + 2 <= max && used / 2 < max / 2
  {
  }

  class GpuCounterContext {
    var poolInitialized: bool
    var maxQueryObjects: nat
    var numUsedQueryObjects: nat
    var queryObjectPool: seq<nat>
    var queryCounterNames: seq<string>
    var indentLevels: seq<int>
    var nested: int

    /** Queries are handed out in pairs from the front of the pool, and the
        name and depth tables have one slot per pair. */
    ghost predicate Valid()
      reads this
    {
      nested >= 0 &&
      numUsedQueryObjects % 2 == 0 && numUsedQueryObjects <= maxQueryObjects &&
      maxQueryObjects % 2 == 0 &&
      |queryObjectPool| == maxQueryObjects &&
      |queryCounterNames| == |indentLevels| == maxQueryObjects / 2 &&
      (numUsedQueryObjects < maxQueryObjects ==> numUsedQueryObjects / 2 < |queryCounterNames| &&
                                                  numUsedQueryObjects + 2 <= maxQueryObjects) &&
      (!poolInitialized ==> maxQueryObjects == 0)
    }

    constructor ()
      ensures Valid() && !poolInitialized && nested == 0 && numUsedQueryObjects == 0
    {
      poolInitialized := false;
      maxQueryObjects := 0;
      numUsedQueryObjects := 0;
      queryObjectPool := [];
      queryCounterNames := [];
      indentLevels := [];
      nested := 0;
    }

    /** `initializeQueryObjectPool(n)`: room for n counters, that is 2n queries, none in use. */
    method InitializeQueryObjectPool(maxGpuCounters: nat, created: seq<nat>)
      requires Valid() && maxGpuCounters > 0 && !poolInitialized
      requires |created| == 2 * maxGpuCounters
      modifies this
      ensures Valid() && poolInitialized
      ensures maxQueryObjects == 2 * maxGpuCounters && numUsedQueryObjects == 0
      ensures queryObjectPool == created && |queryCounterNames| == maxGpuCounters
      ensures nested == old(nested)
    {
      poolInitialized := true;
      maxQueryObjects := maxGpuCounters * 2;
      numUsedQueryObjects := 0;
      queryObjectPool := created;
      queryCounterNames := seq(maxGpuCounters, _ => "");
      indentLevels := seq(maxGpuCounters, _ => 0);
    }

    /** `destroyQueryObjectPool`: only with every query returned. */
    method DestroyQueryObjectPool()
      requires Valid() && poolInitialized && numUsedQueryObjects == 0
      modifies this
      ensures Valid() && !poolInitialized
      ensures maxQueryObjects == 0 && queryObjectPool == [] && queryCounterNames == []
      ensures nested == old(nested)
    {
      queryObjectPool := [];
      queryCounterNames := [];
      indentLevels := [];
      maxQueryObjects := 0;
      poolInitialized := false;
    }

    /** `getUnusedQueryObject`: false when the pool is exhausted; otherwise the
        next two queries, with the name and depth recorded in the pair's slot. */
    method GetUnusedQueryObject(name: string, depth: int) returns (ok: bool, q1: nat, q2: nat)
      requires Valid() && poolInitialized
      modifies this
      ensures Valid()
      ensures queryObjectPool == old(queryObjectPool) && maxQueryObjects == old(maxQueryObjects)
      ensures ok <==> old(numUsedQueryObjects) < maxQueryObjects
      ensures !ok ==> numUsedQueryObjects == old(numUsedQueryObjects) &&
                      queryCounterNames == old(queryCounterNames) && indentLevels == old(indentLevels)
      ensures ok ==> numUsedQueryObjects == old(numUsedQueryObjects) + 2
      ensures ok ==> q1 == queryObjectPool[old(numUsedQueryObjects)] && q2 == queryObjectPool[old(numUsedQueryObjects) + 1]
      ensures ok ==> queryCounterNames == old(queryCounterNames)[old(numUsedQueryObjects) / 2 := name]
      ensures ok ==> indentLevels == old(indentLevels)[old(numUsedQueryObjects) / 2 := depth]
      ensures nested == old(nested) && poolInitialized
    {
      q1, q2 := 0, 0;
      if numUsedQueryObjects >= maxQueryObjects {
        return false, q1, q2;
      }
      queryCounterNames := queryCounterNames[numUsedQueryObjects / 2 := name];
      indentLevels := indentLevels[numUsedQueryObjects / 2 := depth];
      q1 := queryObjectPool[numUsedQueryObjects];
      numUsedQueryObjects := numUsedQueryObjects + 1;
      q2 := queryObjectPool[numUsedQueryObjects];
      numUsedQueryObjects := numUsedQueryObjects + 1;
      ok := true;
      EvenStep(numUsedQueryObjects, maxQueryObjects);
    }

    /** The `ScopedGpuCounter` constructor: a counter that got its queries
        raises the nesting depth; one that did not leaves it alone. */
    method BeginCounter(name: string) returns (c: Option<Counter>)
      requires Valid() && poolInitialized
      modifies this
      ensures Valid()
      ensures poolInitialized && queryObjectPool == old(queryObjectPool) && maxQueryObjects == old(maxQueryObjects)
      ensures c.Some? <==> old(numUsedQueryObjects) < maxQueryObjects
      ensures c.Some? ==> nested == old(nested) + 1 &&
                          indentLevels == old(indentLevels)[old(numUsedQueryObjects) / 2 := old(nested)]
      ensures c.None? ==> nested == old(nested) && indentLevels == old(indentLevels)
      ensures c.Some? ==> c.value == Counter(queryObjectPool[old(numUsedQueryObjects)], queryObjectPool[old(numUsedQueryObjects) + 1])
      ensures c.Some? ==> numUsedQueryObjects == old(numUsedQueryObjects) + 2 &&
                          queryCounterNames == old(queryCounterNames)[old(numUsedQueryObjects) / 2 := name]
      ensures c.None? ==> numUsedQueryObjects == old(numUsedQueryObjects) && queryCounterNames == old(queryCounterNames)
    {
      var ok, q1, q2 := GetUnusedQueryObject(name, nested);
      if ok {
        nested := nested + 1;
        return Some(Counter(q1, q2));
      }
      return None;
    }

    /** The `ScopedGpuCounter` destructor: a counter holding queries lowers
        the depth, which the CHECK requires to stay non-negative. */
    method EndCounter(c: Option<Counter>)
      requires Valid() && (c.Some? ==> nested > 0)
      modifies this
      ensures Valid()
      ensures nested == if c.Some? then old(nested) - 1 else old(nested)
      ensures numUsedQueryObjects == old(numUsedQueryObjects) && queryObjectPool == old(queryObjectPool)
      ensures queryCounterNames == old(queryCounterNames) && indentLevels == old(indentLevels)
      ensures poolInitialized == old(poolInitialized) && maxQueryObjects == old(maxQueryObjects)
    {
      if c.Some? {
        nested := nested - 1;
      }
    }

    /** `flushQueries`: one result per counter in the order the counters began,
        read from the timestamps of its two queries; every query returns to
        the pool. `stamps[i]` is the timestamp of `queryObjectPool[i]`. */
    method FlushQueries(stamps: seq<nat>) returns (result: seq<CounterResult>)
      requires Valid() && poolInitialized
      requires |stamps| == numUsedQueryObjects && forall i :: 0 <= i < |stamps| ==> stamps[i] < TwoTo64
      modifies this
      ensures Valid() && numUsedQueryObjects == 0
      ensures |result| == old(numUsedQueryObjects) / 2 <= |queryCounterNames|
      ensures result == Results(queryCounterNames, indentLevels, stamps, old(numUsedQueryObjects) / 2)
      ensures queryCounterNames == old(queryCounterNames) && indentLevels == old(indentLevels)
      ensures queryObjectPool == old(queryObjectPool) && nested == old(nested) && poolInitialized
    {
      result := [];
      if numUsedQueryObjects == 0 {
        return;
      }
      var names, indents, used := queryCounterNames, indentLevels, numUsedQueryObjects;
      assert used / 2 <= |names| by {
        assert used <= maxQueryObjects && |names| == maxQueryObjects / 2;
      }
      var i := 0;
      while i < used
        invariant i % 2 == 0 && i <= used
        invariant result == Results(names, indents, stamps, i / 2)
      {
        result := result + [CounterResult(names[i / 2], ElapsedNs(stamps[i], stamps[i + 1]), indents[i / 2])];
        i := i + 2;
      }
      numUsedQueryObjects := 0;
    }
  }

  /** Two counters begun in one frame hold four distinct pool entries when
      the device created distinct queries, and the flush reports both, the
      inner one one level deeper. */
  method TwoNestedCounters(ctx: GpuCounterContext, stamps: seq<nat>)
    returns (outer: Option<Counter>, inner: Option<Counter>, result: seq<CounterResult>)
    requires ctx.Valid() && ctx.poolInitialized && ctx.numUsedQueryObjects == 0 && ctx.maxQueryObjects >= 4
    requires forall i, j :: 0 <= i < j < |ctx.queryObjectPool| ==> ctx.queryObjectPool[i] != ctx.queryObjectPool[j]
    requires |stamps| == 4 && forall i :: 0 <= i < 4 ==> stamps[i] < TwoTo64
    modifies ctx
    ensures outer.Some? && inner.Some?
    ensures outer.value.query1 != inner.value.query1 && outer.value.query2 != inner.value.query2
    ensures outer.value.query1 != outer.value.query2 && inner.value.query1 != inner.value.query2
    ensures |result| == 2 && result[0].name == "outer" && result[1].name == "inner"
    ensures result[1].indentLevel == result[0].indentLevel + 1
  {
    outer := ctx.BeginCounter("outer");
    inner := ctx.BeginCounter("inner");
    ctx.EndCounter(inner);
    ctx.EndCounter(outer);
    result := ctx.FlushQueries(stamps);
  }
}
