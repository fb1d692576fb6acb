/** The resource arena of src/resource/resource.rs: an append-only pool per
    resource type, addressed by typed handles. */
module Resource {
  import opened Wrappers

  /** A handle into the pool of resources of type `T`. `T` only tags the kind
      of resource, so handles of different kinds cannot be mixed up; the
      handle itself is a plain index. */
  datatype ResourceId<T> = ResourceId(id: nat)

  /** `PartialEq for ResourceId`: compares the indices only. Since the index is
      all a handle holds, this is exactly equality of handles. */
  function Equals<T>(a: ResourceId<T>, b: ResourceId<T>): (r: bool)
    ensures r <==> a == b
  {
    a.id == b.id
  }

  /** `Hash for ResourceId`: the only value fed to the hasher is the index. */
  function HashInput<T>(r: ResourceId<T>): nat
  {
    r.id
  }

  /** Equal handles feed the hasher the same input, as `Hash` must for `Eq`. */
  lemma HashAgreesWithEquals<T>(a: ResourceId<T>, b: ResourceId<T>)
    requires Equals(a, b)
    ensures HashInput(a) == HashInput(b)
  {
  }

  /** `ResourcePool<T>`: a vector that only grows. */
  class ResourcePool<T> {
    var resources: seq<T>

    constructor ()
      ensures resources == []
    {
      resources := [];
    }

    /** Appends `resource` and returns the handle of its slot: the old length. */
    method Add(resource: T) returns (rid: ResourceId<T>)
      modifies this
      ensures rid.id == old(|resources|)
      ensures resources == old(resources) + [resource]
      ensures Borrow(rid) == Some(resource)
      ensures forall h: ResourceId<T> | h.id < old(|resources|) :: Borrow(h) == old(Borrow(h))
    {
      rid := ResourceId(|resources|);
      resources := resources + [resource];
    }

    /** Resolves a handle; an index past the end gives `None`, never a panic. */
    function Borrow(rid: ResourceId<T>): (r: Option<T>)
      reads this
      ensures r.Some? <==> rid.id < |resources|
      ensures r.Some? ==> r.value == resources[rid.id]
    {
      if rid.id < |resources| then Some(resources[rid.id]) else None
    }

    /** `borrow_mut` followed by a store of `value` through the reference it
        hands out. Out of range nothing is written; in range only that slot
        changes. */
    method BorrowMut(rid: ResourceId<T>, value: T) returns (found: bool)
      modifies this
      ensures found <==> rid.id < old(|resources|)
      ensures |resources| == old(|resources|)
      ensures found ==> Borrow(rid) == Some(value)
      ensures forall h: ResourceId<T> | h.id != rid.id :: Borrow(h) == old(Borrow(h))
      ensures !found ==> resources == old(resources)
    {
      found := rid.id < |resources|;
      if found {
        resources := resources[rid.id := value];
      }
    }
  }

  /** What any caller can rely on: two adds on a fresh pool give handles 0
      and 1, distinct, each resolving to the value stored under it. */
  method FreshPoolHandles<T>(first: T, second: T) returns (h1: ResourceId<T>, h2: ResourceId<T>)
    ensures h1.id == 0 && h2.id == 1 && h1 != h2
  {
    var pool := new ResourcePool<T>();
    h1 := pool.Add(first);
    h2 := pool.Add(second);
    assert pool.Borrow(h1) == Some(first) && pool.Borrow(h2) == Some(second);
  }

  /** Successive adds on any pool give strictly increasing handles, and the
      second add does not disturb what the first stored. */
  method AddTwice<T>(pool: ResourcePool<T>, first: T, second: T) returns (h1: ResourceId<T>, h2: ResourceId<T>)
    modifies pool
    ensures h1.id < h2.id && h1 != h2
    ensures h2.id == h1.id + 1 == old(|pool.resources|) + 1
    ensures pool.Borrow(h1) == Some(first) && pool.Borrow(h2) == Some(second)
  {
    h1 := pool.Add(first);
    h2 := pool.Add(second);
  }
}
