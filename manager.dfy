/** The adapters of `qs_manager`: `SeqManager` is the vector family (the base class
    `qs_manager_getter_vector` and its three specialisations), `MapManager` the map family
    (`qs_manager_getter_map` and its three). Each holds a reference to the client's
    container, which it reads and never changes, and owns its snapshot buffers. */
module Manager {
  import opened Errors
  import opened OrderedMap
  import opened Lookup
  import opened Containers

  class SeqManager<T, ID> {
    const container: SeqContainer<T>
    const style: Style
    /** The client's `operator==(const T&, const ID&)`. */
    const eq: (T, ID) -> bool
    /** `__all`, filled by the container's `all(ret)` in the `FillsContainer` variant. */
    var buffer: seq<T>

    constructor (container: SeqContainer<T>, style: Style, eq: (T, ID) -> bool)
      ensures this.container == container && this.style == style && this.eq == eq
      ensures buffer == []
    {
      this.container := container;
      this.style := style;
      this.eq := eq;
      buffer := [];
    }

    /** `all()`: the container's current elements, re-read on every call; the
        `FillsContainer` variant refreshes `__all` on the way. */
    method All() returns (r: seq<T>)
      modifies this
      ensures r == container.items
      ensures buffer == if style == FillsContainer then container.items else old(buffer)
    {
      match style
      case FillsContainer =>
        buffer := container.items;
        r := buffer;
      case ReturnsContainer =>
        r := container.items;
      case IsContainer =>
        r := container.items;
    }

    /** `all(ret)`: every vector variant leaves `ret` holding the container's elements,
        whatever it held before (the `FillsContainer` variant through the container's own
        `all(ret)`, taken to assign). */
    method AllInto(ret: seq<T>) returns (out: seq<T>)
      ensures out == container.items
    {
      out := container.items;
    }

    /** `count()`: the length of a fresh `all()`. */
    method Count() returns (n: nat)
      modifies this
      ensures n == |container.items|
      ensures buffer == if style == FillsContainer then container.items else old(buffer)
    {
      var all := All();
      n := |all|;
    }

    /** `get(id)`: a full scan of a fresh `all()`. */
    method Get(id: ID) returns (r: Result<T, ID>)
      modifies this
      ensures r == SeqLookup(container.items, eq, id)
      ensures buffer == if style == FillsContainer then container.items else old(buffer)
    {
      var all := All();
      r := Scan(all, eq, id);
    }
  }

  class MapManager<ID(==,!new), T> {
    const container: MapContainer<ID, T>
    const style: Style
    /** `__all`: the values copied out of the map by `all()`. */
    var buffer: seq<T>
    /** `__all_map`: the map filled by the container's `all(map)` in the `FillsContainer`
        variant's `__get_all()`. */
    var bufferMap: seq<(ID, T)>

    constructor (container: MapContainer<ID, T>, style: Style)
      ensures this.container == container && this.style == style
      ensures buffer == [] && bufferMap == []
    {
      this.container := container;
      this.style := style;
      buffer := [];
      bufferMap := [];
    }

    /** `count()`: the map's size, the number of distinct keys. Every variant reads the
        size straight off the (possibly copied) map. */
    function Count(): (n: nat)
      reads this, container
      requires container.Valid()
      ensures n == |ToMap(container.entries)|
    {
      SizeIsKeyCount(container.less, container.entries);
      |container.entries|
    }

    /** `all()`: clears `__all`, then appends the map's values in key order. */
    method All() returns (r: seq<T>)
      modifies this
      ensures r == Values(container.entries) && buffer == r
      ensures container.Valid() ==> |r| == Count()
      ensures bufferMap == old(bufferMap)
    {
      var entries := container.entries;
      buffer := [];
      buffer := AppendValues(buffer, entries);
      r := buffer;
    }

    /** `all(ret)`: appends the map's values in key order after what `ret` holds. */
    method AllInto(ret: seq<T>) returns (out: seq<T>)
      ensures out == ret + Values(container.entries)
    {
      out := AppendValues(ret, container.entries);
    }

    /** `__get_all()`: the map itself; the `FillsContainer` variant refreshes `__all_map`. */
    method Snapshot() returns (m: seq<(ID, T)>)
      modifies this
      ensures m == container.entries
      ensures bufferMap == if style == FillsContainer then container.entries else old(bufferMap)
      ensures buffer == old(buffer)
    {
      match style
      case FillsContainer =>
        bufferMap := container.entries;
        m := bufferMap;
      case ReturnsContainer =>
        m := container.entries;
      case IsContainer =>
        m := container.entries;
    }

    /** `get(id)`: the keyed lookup on a fresh `__get_all()`. */
    method Get(id: ID) returns (r: Result<T, ID>)
      modifies this
      ensures r == MapLookup(container.entries, id)
      ensures bufferMap == if style == FillsContainer then container.entries else old(bufferMap)
      ensures buffer == old(buffer)
    {
      var m := Snapshot();
      r := MapLookup(m, id);
    }
  }
}
