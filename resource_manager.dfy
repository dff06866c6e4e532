/**
 * The generic handle table `ResourceManager<T>` (src/UniGraphics/ResourceManager.h):
 * an `unordered_map<int, T*>` plus a post-incremented counter that starts at 1.
 * Handles are manager-local; 0 is never issued.
 */
module Resources {
  import opened Wrappers

  /** Largest value of the C++ `int` that holds the counter. */
  const INT_MAX: int := 0x7fff_ffff

  /** `order` lists every key of `m` exactly once. */
  ghost predicate ListsKeys<T>(order: seq<int>, m: map<int, T>)
  {
    (forall i, j :: 0 <= i < j < |order| ==> order[i] != order[j]) &&
    (forall h :: h in m <==> h in order)
  }

  /** `released` hands over every value of `m` exactly once, one per key. */
  ghost predicate ReleasedOnce<T>(released: seq<T>, m: map<int, T>)
  {
    exists order: seq<int> :: ListsKeys(order, m) && |order| == |released| &&
      forall i :: 0 <= i < |order| ==> order[i] in m && released[i] == m[order[i]]
  }

  class ResourceManager<T> {
    var nextId: int
    var resources: map<int, T>
    /** Every handle `Add` has returned so far. */
    ghost var issued: set<int>

    ghost predicate Valid()
      reads this
    {
      1 <= nextId <= INT_MAX &&
      (forall h :: h in issued <==> 1 <= h < nextId) &&
      forall h :: h in resources ==> h in issued
    }

    constructor ()
      ensures Valid()
      ensures nextId == 1 && resources == map[]
      ensures issued == {}
    {
      nextId := 1;
      resources := map[];
      issued := {};
    }

    /** `Add` returns the counter, then bumps it; the new handle was never issued before. */
    method Add(resource: T) returns (id: int)
      requires Valid()
      requires nextId < INT_MAX  // nextId++ past INT_MAX is undefined behaviour in C++
      modifies this
      ensures Valid()
      ensures id == old(nextId) && nextId == old(nextId) + 1
      ensures 1 <= id && id !in old(issued) && id !in old(resources)
      ensures issued == old(issued) + {id}
      ensures resources == old(resources)[id := resource]
      ensures Get(id) == Some(resource)
      ensures forall h :: h != id ==> Get(h) == old(Get(h))
    {
      id := nextId;
      nextId := nextId + 1;
      resources := resources[id := resource];
      issued := issued + {id};
    }

    /** Non-owning lookup: `None` stands for the null pointer returned for an absent handle. */
    function Get(id: int): (r: Option<T>)
      reads this
      ensures r.Some? <==> id in resources
      ensures r.Some? ==> r.value == resources[id]
    {
      if id in resources then Some(resources[id]) else None
    }

    /** `Remove` erases only `id` and releases nothing; the counter is untouched. */
    method Remove(id: int)
      requires Valid()
      modifies this
      ensures Valid()
      ensures resources == old(resources) - {id}
      ensures nextId == old(nextId) && issued == old(issued)
      ensures Get(id) == None
      ensures forall h :: h != id ==> Get(h) == old(Get(h))
    {
      resources := resources - {id};
    }

    /**
     * `Clear` hands every stored resource to the deleter exactly once and empties
     * the map; `nextId` is not reset. `released` is the sequence of deleter
     * calls. The map is unordered; the model visits handles in increasing
     * order, which is one of the orders it may produce.
     */
    method Clear() returns (released: seq<T>)
      requires Valid()
      modifies this
      ensures Valid()
      ensures resources == map[]
      ensures nextId == old(nextId) && issued == old(issued)
      ensures |released| == |old(resources)|
      ensures ReleasedOnce(released, old(resources))
    {
      ghost var done: set<int> := {};
      ghost var order: seq<int> := [];
      released := [];
      for h := 1 to nextId
        invariant forall k :: k in done <==> k in resources && k < h
        invariant |order| == |done| && |released| == |order|
        invariant forall i :: 0 <= i < |order| ==> order[i] in resources && order[i] < h && released[i] == resources[order[i]]
        invariant forall i, j :: 0 <= i < j < |order| ==> order[i] < order[j]
        invariant forall k :: k in done ==> k in order
      {
        if h in resources {
          released, order := released + [resources[h]], order + [h];
          done := done + {h};
        }
      }
      assert forall k :: k in resources.Keys <==> k in done;
      assert done == resources.Keys;
      assert ListsKeys(order, resources);
      resources := map[];
    }
  }
}
