# qs_manager, modelled in Dafny

`qs_manager<T, TContainer, ID>` is a read-only adapter that gives client code one interface
over differently shaped containers: "all elements" (`all()`, `all(ret)`), "how many"
(`count()`) and "the element with this id" (`get(id)`). At compile time it picks one of six
specialisations of `qs_manager_get_impl`, depending on whether the wrapped object has a
member `all()` returning a `std::vector<T>` or a `std::map<ID, T>`, has a member `all(ret)`
that fills one, or is itself such a vector or map.

This project models the runtime behaviour of those six adapters:

- `Errors`: the two exceptions `object_not_found` and `multiple_objects_found`, their
  messages, and a `Result` type that carries them in place of a throw.
- `OrderedMap`: a `std::map<ID, T>` as the adapters see it. It is modelled as its entries
  in iteration order, with strictly ascending keys under the map's key order. The module
  also gives `find`, `size`, the values projection copied out with `std::transform`, and
  an unordered Dafny `map` as the reference meaning.
- `Lookup`: the two lookup algorithms. The vector family's `get` is a linear scan with
  the client's cross-type `operator==`. It does not stop at the first match, so that it
  can report ambiguity; it stops at the second match by throwing. The map family's `get`
  is a keyed `find`.
- `Containers`: the client's containers, as objects the client may change between calls.
  `Style` is the choice among "member `all()` returns", "member `all(ret)` fills" and
  "is the collection itself".
- `Manager`: `SeqManager` (the vector family) and `MapManager` (the map family). Each
  wraps a container of one `Style`, so together they cover the six specialisations. The
  buffers are fields of the managers:
  - `SeqManager.buffer` is `__all`, which only the `all(ret)` vector variant has
    (qs_manager.h:165); the other two styles never touch it.
  - `MapManager.buffer` is `__all`, which all three map variants have (282, 322, 354).
  - `MapManager.bufferMap` is `__all_map`, which only the `all(map)` map variant has
    (283); the other two styles never touch it.

  The managers' methods modify only the manager, so the wrapped container is never
  changed, and every call re-reads it.
- `Scenarios`: the runs of `example/main.cpp`, with `operator==` and the key order as
  parameters.

`all(ret)` differs by family. The three map variants append through
`std::back_inserter` and never clear `ret` (qs_manager.h:262, 304, 337). After the vector
variants, `ret` holds the container's elements (181, 200 assign it). At 153 this happens
through the container's own `all(ret)`, which the model takes to assign (see
"## Left out"). `MapManager.AllInto` and `SeqManager.AllInto` state the two behaviours.

## Model

| member | source | states |
|---|---|---|
| `Errors.Message` | qs_manager.h:21-29 | each exception's text ends with the quote closing the id |
| `Errors.MessageRoundTrip` | qs_manager.h:21-29 | the kind of error and the id can be recovered from the message |
| `Errors.MessageInjective` | qs_manager.h:21-29 | two different errors (kind or id) never have the same message |
| `OrderedMap.Values` | qs_manager.h:233-239 | the projection `second` gives one value per entry, the i-th value being the i-th entry's |
| `OrderedMap.AppendValues` | qs_manager.h:262 | `std::transform` with `back_inserter` leaves the prior contents and appends the values in entry order |
| `OrderedMap.Find` | qs_manager.h:223-227 | `find` gives nothing exactly when no entry has the key, else the value of an entry with that key |
| `OrderedMap.FindAgreesWithMap` | qs_manager.h:223-227 | `find` agrees with the map's meaning as an unordered Dafny map |
| `OrderedMap.SizeIsKeyCount` | qs_manager.h:332-334 | in a well-formed map the number of entries (`size()`) equals the number of distinct keys |
| `OrderedMap.ValuesInKeyOrder` | qs_manager.h:340-344 | a value stored under a smaller key comes before a value stored under a larger key in the projected values |
| `Lookup.MatchIndices` | qs_manager.h:122-131 | lists exactly the positions whose element equals the id, in increasing order |
| `Lookup.SeqLookup` | qs_manager.h:119-136 | any error it yields carries the id that was asked for |
| `Lookup.LookupNotFound` | qs_manager.h:132-134 | `ObjectNotFound(id)` exactly when no element equals the id |
| `Lookup.LookupAmbiguous` | qs_manager.h:123-131 | `MultipleObjectsFound(id)` exactly when two elements, adjacent or not, equal the id |
| `Lookup.LookupFound` | qs_manager.h:119-135 | for an element equal to the id, it is returned exactly when no other element equals the id |
| `Lookup.LookupOkMatches` | qs_manager.h:124-135 | a successful lookup returns an element that equals the id |
| `Lookup.Scan` | qs_manager.h:119-136 | the loop, which stops only at a second match, computes the lookup over the whole snapshot |
| `Lookup.MapLookup` | qs_manager.h:220-228 | the value under the key if present, else `ObjectNotFound(id)`, never `MultipleObjectsFound` |
| `Containers.SeqContainer.constructor` | example/main.cpp:10-19 | a new vector-holding container (`A()`, `B()`, or a bare `std::vector`) starts empty; `B` is at example/main.cpp:30-39 |
| `Containers.MapContainer.constructor` | example/main.cpp:21-28 | an empty map with a strict key order is well formed |
| `Manager.SeqManager.constructor` | qs_manager.h:147-150 | the adapter holds the given container, style and equality and starts with an empty `__all` |
| `Manager.SeqManager.All` | qs_manager.h:156-205 | returns the container's current elements; only the `all(ret)` variant refreshes `__all`, with them (156-159; 184-186 and 203-205 return directly) |
| `Manager.SeqManager.AllInto` | qs_manager.h:152-201 | the caller's vector becomes the container's elements, whatever it held before (152-154, 180-182, 199-201) |
| `Manager.SeqManager.Count` | qs_manager.h:116-118 | equals the length of a fresh `all()`, so the container's current length |
| `Manager.SeqManager.Get` | qs_manager.h:119-136 | the sequential lookup over the container's current elements; buffers as for `all()` |
| `Manager.MapManager.constructor` | qs_manager.h:248-251 | the adapter holds the given container and style and starts with empty buffers |
| `Manager.MapManager.Count` | qs_manager.h:253-257 | the map's size, the number of distinct keys (also 298-300, 332-334) |
| `Manager.MapManager.All` | qs_manager.h:265-271 | `__all` is cleared and refilled with exactly the map's values in key order and returned; its length is `count()` (also 307-312, 340-344) |
| `Manager.MapManager.AllInto` | qs_manager.h:259-263 | the caller's prior contents stay as a prefix, followed by the map's values in key order (also 302-305, 336-338) |
| `Manager.MapManager.Snapshot` | qs_manager.h:274-277 | `__get_all()` yields the container's current map; only the `all(map)` variant refreshes `__all_map` (315-317 and 347-349 return directly) |
| `Manager.MapManager.Get` | qs_manager.h:220-228 | the keyed lookup over the container's current map; buffers as for `__get_all()` |
| `Scenarios.VectorScenario` | example/main.cpp:84-110 | with `[0, 1]` pushed after construction, `all()` has size 2 and `get("1")` gives 1 |
| `Scenarios.AmbiguousScenario` | qs_manager.h:123-131 | with `[1, 2, 3]` where 1 and 3 equal `"1"`, `get("1")` is `MultipleObjectsFound("1")` |
| `Scenarios.LiveScenario` | qs_manager.h:156-159 | `all()` follows the container as it grows, and repeated calls with no change agree |
| `Scenarios.MapScenario` | example/main.cpp:112-135 | with `{"0": v}`, `all()` is `[v]`, `count()` is 1, `get("0")` gives `v` and `get("1")` is `ObjectNotFound("1")` |
| `Scenarios.MapRefreshScenario` | qs_manager.h:259-271 | `all()` rebuilds `__all` instead of accumulating, while `all(ret)` keeps the caller's prior contents |

## Left out

- Member detection (`has_member.hpp`, `has_all_to_container`, `has_all_as_container`) is not modelled. It is compile-time only; the `Style` value and the choice of manager class stand for its outcome.
- The missing-`operator==` probe (`is_operator_available`) and the `static_assert` fallbacks for unsupported containers are not modelled. They are build errors, not runtime behaviour.
- `qs_manager::test`, which only prints, is left out, and so are the commented-out `filter` and `get` code and the empty multimap section.
- The client's `operator==` is a function parameter. In the example program it parses the id with `std::istringstream`; that parsing is library behaviour and is not modelled.
- A container's `all(ret)` is the client's own code. The model takes it to assign the collection to `ret`, as the example program's containers do. Containers whose `all(ret)` appends or inserts instead are not modelled. Two places would behave differently for them:
  - In the `FillsContainer` vector variant, `all()` passes the uncleared `__all` (qs_manager.h:157), so elements would pile up across calls.
  - In the `FillsContainer` map variant, `__get_all()` passes the uncleared `__all_map` (275). A key removed from the container would then stay visible to `get` (222). `count()` and `all()` fill a fresh local map (254-256, 266-267), so they would not see it.
- `std::map::find` compares keys by equivalence under the key order. The model uses key equality; the two agree for the strict total orders that keys normally have.
- `get` returns a reference into a buffer or into the container. The model returns the value, so aliasing, reference lifetime and the thread-safety of the `mutable` buffers are not modelled.
- Exceptions are modelled as `Fail` values of `Result` returned to the caller, not as a thrown control transfer.
- `size_t` is modelled as an unbounded `nat`; no overflow is possible at realistic sizes.
- Inserting into the example's containers (`push_back`, `operator[]`) is client code. The scenarios assign the containers' contents directly.
