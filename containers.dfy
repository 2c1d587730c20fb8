/** The client's containers that an adapter wraps. They belong to the client, which may
    change them between calls; the adapters only ever read them. */
module Containers {
  import opened OrderedMap

  /** Which accessor the wrapped container exposes, and so which specialisation of
      `qs_manager_get_impl` is chosen:
      - `ReturnsContainer`: a member `all()` returning the collection by reference;
      - `FillsContainer`: a member `all(ret)` that assigns the collection to `ret`;
      - `IsContainer`: the wrapped object is the `std::vector` / `std::map` itself. */
  datatype Style = ReturnsContainer | FillsContainer | IsContainer

  /** A container holding a `std::vector<T>`. */
  class SeqContainer<T> {
    var items: seq<T>

    constructor ()
      ensures items == []
    {
      items := [];
    }
  }

  /** A container holding a `std::map<ID, T>`, as its entries in iteration order. */
  class MapContainer<ID(!new), T> {
    const less: (ID, ID) -> bool
    var entries: seq<(ID, T)>

    /** What `std::map` guarantees of its entries: they ascend under its key order. */
    ghost predicate Valid()
      reads this
    {
      Wf(less, entries)
    }

    constructor (less: (ID, ID) -> bool)
      requires StrictOrder(less)
      ensures Valid() && this.less == less && entries == []
    {
      this.less := less;
      entries := [];
    }
  }
}
