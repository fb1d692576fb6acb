/** src/geometry/attribute.rs: a flat vertex buffer of `f32` values read as
    items of `item_size` components each. */
module Attributes {
  import opened Numeric

  /** `count` is the number of whole items in `data`. `item_size` is kept
      only for the record: nothing reads it back. */
  datatype Attribute = Attribute(count: nat, data: seq<real>, itemSize: nat)

  /** `Attribute::new`: the length is truncated to 32 bits and divided by
      the item size, rounding down. An item size of zero is a division by
      zero, which panics, so callers must pass a positive one. */
  function NewAttribute(data: seq<real>, itemSize: nat): (a: Attribute)
    requires 0 < itemSize < U32_LIMIT
    ensures a.data == data && a.itemSize == itemSize
    ensures a.count * itemSize <= AsU32(|data|) < (a.count + 1) * itemSize
    ensures |data| < U32_LIMIT ==> a.count * itemSize <= |data| < (a.count + 1) * itemSize
  {
    Attribute(AsU32(|data|) / itemSize, data, itemSize)
  }
}

/** src/geometry/index.rs: a triangle index buffer of `u16` values. */
module GeometryIndices {
  import opened Numeric

  datatype Index = Index(count: nat, data: seq<u16>)

  /** `Index::new`: the count is the length of the data as a `u32`. */
  function NewIndex(data: seq<u16>): (i: Index)
    ensures i.data == data
    ensures i.count < U32_LIMIT
    ensures |data| < U32_LIMIT ==> i.count == |data|
  {
    Index(AsU32(|data|), data)
  }
}

/** src/geometry/geometry.rs: named vertex attributes plus an optional
    index buffer. Attribute names are the source's `&'static str` keys.
    The attribute and index types are parameters, because the geometry
    helpers store pool handles where this file stores values. */
module Geometries {
  import opened Wrappers

  class Geometry<A, I> {
    var attributes: map<string, A>
    var index: Option<I>

    constructor ()
      ensures attributes == map[] && index == None
    {
      attributes := map[];
      index := None;
    }

    /** Inserts or replaces the attribute under `key`; no other key and not
        the index is touched. */
    method SetAttribute(key: string, attribute: A)
      modifies this
      ensures attributes == old(attributes)[key := attribute]
      ensures index == old(index)
      ensures BorrowAttribute(key) == Some(attribute)
      ensures forall k | k != key :: BorrowAttribute(k) == old(BorrowAttribute(k))
    {
      attributes := attributes[key := attribute];
    }

    /** `None` for a key that was never set. */
    function BorrowAttribute(key: string): (r: Option<A>)
      reads this
      ensures r.Some? <==> key in attributes
      ensures r.Some? ==> r.value == attributes[key]
    {
      if key in attributes then Some(attributes[key]) else None
    }

    method SetIndex(i: I)
      modifies this
      ensures BorrowIndex() == Some(i)
      ensures attributes == old(attributes)
    {
      index := Some(i);
    }

    method RemoveIndex()
      modifies this
      ensures BorrowIndex() == None
      ensures attributes == old(attributes)
    {
      index := None;
    }

    function BorrowIndex(): (r: Option<I>)
      reads this
      ensures r == index
    {
      index
    }
  }
}

/** src/scene/geometry.rs: the scene-side geometry, an attribute map only.
    It is a separate Rust type from src/geometry/geometry.rs, with no index
    and with its own attribute type, so it is a class of its own here; its
    attribute lookup is the same map lookup. The attribute type
    (src/scene/attribute.rs) is not part of this model, so it is a
    parameter. */
module SceneGeometries {
  import opened Wrappers

  class Geometry<A> {
    var attributes: map<string, A>

    constructor ()
      ensures attributes == map[]
    {
      attributes := map[];
    }

    method SetAttribute(key: string, attribute: A)
      modifies this
      ensures attributes == old(attributes)[key := attribute]
      ensures BorrowAttribute(key) == Some(attribute)
      ensures forall k | k != key :: BorrowAttribute(k) == old(BorrowAttribute(k))
    {
      attributes := attributes[key := attribute];
    }

    function BorrowAttribute(key: string): (r: Option<A>)
      reads this
      ensures r.Some? <==> key in attributes
      ensures r.Some? ==> r.value == attributes[key]
    {
      if key in attributes then Some(attributes[key]) else None
    }
  }
}
