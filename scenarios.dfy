/** The demonstration runs of the repository's example program, with the client's
    `operator==` and the map's key order taken as parameters. In each, the manager is
    built before the container is filled, so every answer comes from a fresh read. */
module Scenarios {
  import opened Errors
  import opened OrderedMap
  import opened Lookup
  import opened Containers
  import opened Manager

  /** TEST #1: a vector-family container holding `[0, 1]`, in any of the three styles. */
  method VectorScenario(style: Style, eq: (int, string) -> bool)
    returns (size: nat, got: Result<int, string>)
    requires eq(1, "1") && !eq(0, "1")
    ensures size == 2 && got == Ok(1)
  {
    var c := new SeqContainer<int>();
    var m := new SeqManager<int, string>(c, style, eq);
    c.items := c.items + [0];
    c.items := c.items + [1];
    var all := m.All();
    size := |all|;
    got := m.Get("1");
    LookupFound(c.items, eq, "1", 1);
  }

  /** Two elements equal to the id, with a non-matching one between them: ambiguous. */
  method AmbiguousScenario(style: Style, eq: (int, string) -> bool)
    returns (got: Result<int, string>)
    requires eq(1, "1") && eq(3, "1") && !eq(2, "1")
    ensures got == Fail(MultipleObjectsFound("1"))
  {
    var c := new SeqContainer<int>();
    var m := new SeqManager<int, string>(c, style, eq);
    c.items := [1, 2, 3];
    got := m.Get("1");
    LookupAmbiguous(c.items, eq, "1");
    assert c.items[0] == 1 && c.items[2] == 3;
  }

  /** `all()` follows the container as it grows; with no change in between, two calls agree. */
  method LiveScenario(style: Style, eq: (int, string) -> bool)
    returns (first: seq<int>, second: seq<int>, again: seq<int>)
    ensures first == [0] && second == [0, 1] && again == second
  {
    var c := new SeqContainer<int>();
    var m := new SeqManager<int, string>(c, style, eq);
    c.items := c.items + [0];
    first := m.All();
    c.items := c.items + [1];
    second := m.All();
    again := m.All();
  }

  /** TEST #2: a map-family container holding `{"0": v}`, in any of the three styles. */
  method MapScenario(style: Style, less: (string, string) -> bool, v: int)
    returns (size: nat, all: seq<int>, got: Result<int, string>, missing: Result<int, string>)
    requires StrictOrder(less)
    ensures size == 1 && all == [v]
    ensures got == Ok(v) && missing == Fail(ObjectNotFound("1"))
  {
    var c := new MapContainer<string, int>(less);
    var m := new MapManager<string, int>(c, style);
    c.entries := [("0", v)];
    all := m.All();
    size := m.Count();
    got := m.Get("0");
    missing := m.Get("1");
  }

  /** `all()` rebuilds `__all` from scratch on each call, while `all(ret)` keeps what the
      caller's vector already held in front of the map's values. */
  method MapRefreshScenario(style: Style, less: (string, string) -> bool, v: int, w: int)
    returns (first: seq<int>, second: seq<int>, appended: seq<int>)
    requires StrictOrder(less) && less("0", "1")
    ensures first == [v] && second == [v, w] && appended == [7, v, w]
  {
    var c := new MapContainer<string, int>(less);
    var m := new MapManager<string, int>(c, style);
    c.entries := [("0", v)];
    first := m.All();
    c.entries := [("0", v), ("1", w)];
    second := m.All();
    appended := m.AllInto([7]);
  }
}
