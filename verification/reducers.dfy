/** The per-driver reductions the timing engine runs over telemetry streams:
    keep the newest entry per driver, count entries per driver, and index a
    stream by driver with later entries overriding earlier ones. Each is a
    loop over the stream filling a dictionary, proved against a fold that
    visits the same entries in the same order. */
module Reducers {
  import opened Common

  // ---------------------------------------------------------------------------
  // Newest entry per driver

  /** The newest-per-driver fold: an entry replaces the one kept for its
      driver only when its rank is strictly greater. */
  function LatestFold<T>(entries: seq<T>, driverOf: T -> int, rank: T -> int): map<int, T>
    decreases |entries|
  {
    if entries == [] then map[]
    else
      var kept := LatestFold(entries[..|entries| - 1], driverOf, rank);
      var e := entries[|entries| - 1];
      var d := driverOf(e);
      if d !in kept || rank(e) > rank(kept[d]) then kept[d := e] else kept
  }

  /** The generic reducer of the live and replay builders: `map.set` when the
      driver has nothing yet or the entry is newer than the kept one. */
  method LatestByDriver<T>(entries: seq<T>, driverOf: T -> int, rank: T -> int)
    returns (latest: map<int, T>)
    ensures latest == LatestFold(entries, driverOf, rank)
  {
    latest := map[];
    var i := 0;
    while i < |entries|
      invariant 0 <= i <= |entries|
      invariant latest == LatestFold(entries[..i], driverOf, rank)
    {
      var entry := entries[i];
      var driver := driverOf(entry);
      if driver !in latest || rank(entry) > rank(latest[driver]) {
        latest := latest[driver := entry];
      }
      assert entries[..i + 1][..i] == entries[..i];
      i := i + 1;
    }
    assert entries[..|entries|] == entries;
  }

  /** Some entry of the stream belongs to driver `d`. */
  predicate HasDriver<T>(entries: seq<T>, driverOf: T -> int, d: int) {
    exists i | 0 <= i < |entries| :: driverOf(entries[i]) == d
  }

  /** The fold keeps exactly the drivers that occur in the stream, and the
      entry kept for a driver is one of that driver's entries. */
  lemma {:induction false} LatestFoldKeys<T>(entries: seq<T>, driverOf: T -> int, rank: T -> int)
    ensures forall d :: d in LatestFold(entries, driverOf, rank) <==> HasDriver(entries, driverOf, d)
    ensures forall d | d in LatestFold(entries, driverOf, rank) ::
      driverOf(LatestFold(entries, driverOf, rank)[d]) == d
      && LatestFold(entries, driverOf, rank)[d] in entries
    decreases |entries|
  {
    if entries != [] {
      var n := |entries| - 1;
      var prefix := entries[..n];
      LatestFoldKeys(prefix, driverOf, rank);
      forall d ensures HasDriver(entries, driverOf, d) <==> HasDriver(prefix, driverOf, d) || driverOf(entries[n]) == d {
        if HasDriver(prefix, driverOf, d) {
          var i :| 0 <= i < |prefix| && driverOf(prefix[i]) == d;
          assert entries[i] == prefix[i];
        }
        if HasDriver(entries, driverOf, d) && driverOf(entries[n]) != d {
          var i :| 0 <= i < |entries| && driverOf(entries[i]) == d;
          assert prefix[i] == entries[i];
        }
      }
      assert entries == prefix + [entries[n]];
    }
  }

  /** No entry of a driver outranks the one kept for that driver. */
  lemma {:induction false} LatestFoldMaximal<T>(entries: seq<T>, driverOf: T -> int, rank: T -> int)
    ensures forall j | 0 <= j < |entries| ::
      driverOf(entries[j]) in LatestFold(entries, driverOf, rank)
      && rank(entries[j]) <= rank(LatestFold(entries, driverOf, rank)[driverOf(entries[j])])
    decreases |entries|
  {
    if entries != [] {
      var n := |entries| - 1;
      var prefix := entries[..n];
      LatestFoldMaximal(prefix, driverOf, rank);
      forall j | 0 <= j < n ensures entries[j] == prefix[j] { }
    }
  }

  /** Among equally ranked entries of a driver the first one seen is kept:
      the kept entry sits at some index, and every earlier entry of that
      driver ranks strictly lower. */
  lemma {:induction false} LatestFoldFirstSeen<T>(entries: seq<T>, driverOf: T -> int, rank: T -> int, d: int)
    requires d in LatestFold(entries, driverOf, rank)
    ensures exists i | 0 <= i < |entries| ::
      entries[i] == LatestFold(entries, driverOf, rank)[d]
      && forall j | 0 <= j < i && driverOf(entries[j]) == d :: rank(entries[j]) < rank(entries[i])
    decreases |entries|
  {
    var n := |entries| - 1;
    var prefix := entries[..n];
    var kept := LatestFold(prefix, driverOf, rank);
    var e := entries[n];
    var m := LatestFold(entries, driverOf, rank);
    if d in kept && m[d] == kept[d] {
      LatestFoldFirstSeen(prefix, driverOf, rank, d);
      var i :| 0 <= i < |prefix| && prefix[i] == kept[d]
        && forall j | 0 <= j < i && driverOf(prefix[j]) == d :: rank(prefix[j]) < rank(prefix[i]);
      assert entries[i] == prefix[i];
      forall j | 0 <= j < i && driverOf(entries[j]) == d ensures rank(entries[j]) < rank(entries[i]) {
        assert entries[j] == prefix[j];
      }
    } else {
      LatestFoldMaximal(prefix, driverOf, rank);
      LatestFoldKeys(prefix, driverOf, rank);
      assert m[d] == e;
      forall j | 0 <= j < n && driverOf(entries[j]) == d ensures rank(entries[j]) < rank(e) {
        assert entries[j] == prefix[j];
      }
    }
  }

  // ---------------------------------------------------------------------------
  // Entries per driver

  /** How many entries belong to driver `d`. */
  function CountOf<T>(entries: seq<T>, driverOf: T -> int, d: int): (n: nat)
    ensures n <= |entries|
    ensures n == 0 <==> !HasDriver(entries, driverOf, d)
    decreases |entries|
  {
    if entries == [] then 0
    else
      var last := entries[|entries| - 1];
      var prefix := entries[..|entries| - 1];
      var rest := CountOf(prefix, driverOf, d);
      assert HasDriver(entries, driverOf, d) <==> HasDriver(prefix, driverOf, d) || driverOf(last) == d by {
        if HasDriver(prefix, driverOf, d) {
          var i :| 0 <= i < |prefix| && driverOf(prefix[i]) == d;
          assert entries[i] == prefix[i];
        }
        if HasDriver(entries, driverOf, d) && driverOf(last) != d {
          var i :| 0 <= i < |entries| && driverOf(entries[i]) == d;
          assert prefix[i] == entries[i];
        }
      }
      rest + (if driverOf(last) == d then 1 else 0)
  }

  /** The tally fold: `acc.set(d, (acc.get(d) || 0) + 1)` per entry. */
  function CountFold<T>(entries: seq<T>, driverOf: T -> int): map<int, nat>
    decreases |entries|
  {
    if entries == [] then map[]
    else
      var counts := CountFold(entries[..|entries| - 1], driverOf);
      var d := driverOf(entries[|entries| - 1]);
      counts[d := (if d in counts then counts[d] else 0) + 1]
  }

  /** The pit-stop tally of the timing builders. */
  method CountByDriver<T>(entries: seq<T>, driverOf: T -> int) returns (counts: map<int, nat>)
    ensures counts == CountFold(entries, driverOf)
  {
    counts := map[];
    var i := 0;
    while i < |entries|
      invariant 0 <= i <= |entries|
      invariant counts == CountFold(entries[..i], driverOf)
    {
      var driver := driverOf(entries[i]);
      var count := if driver in counts then counts[driver] else 0;
      counts := counts[driver := count + 1];
      assert entries[..i + 1][..i] == entries[..i];
      i := i + 1;
    }
    assert entries[..|entries|] == entries;
  }

  /** `tally.get(d) || 0`. */
  function Tally(counts: map<int, nat>, d: int): nat {
    if d in counts then counts[d] else 0
  }

  /** A driver is in the tally iff it has entries, and then holds their
      count; so `tally.get(d) || 0` is the count for every driver. */
  lemma {:induction false} CountFoldCounts<T>(entries: seq<T>, driverOf: T -> int)
    ensures forall d :: d in CountFold(entries, driverOf) <==> HasDriver(entries, driverOf, d)
    ensures forall d :: Tally(CountFold(entries, driverOf), d) == CountOf(entries, driverOf, d)
    decreases |entries|
  {
    if entries != [] {
      var prefix := entries[..|entries| - 1];
      CountFoldCounts(prefix, driverOf);
      forall d ensures HasDriver(entries, driverOf, d) <==> HasDriver(prefix, driverOf, d) || driverOf(entries[|entries| - 1]) == d {
        if HasDriver(prefix, driverOf, d) {
          var i :| 0 <= i < |prefix| && driverOf(prefix[i]) == d;
          assert entries[i] == prefix[i];
        }
        if HasDriver(entries, driverOf, d) && driverOf(entries[|entries| - 1]) != d {
          var i :| 0 <= i < |entries| && driverOf(entries[i]) == d;
          assert prefix[i] == entries[i];
        }
      }
    }
  }

  // ---------------------------------------------------------------------------
  // Index by driver, later entries overriding

  /** `acc.set(key(e), value(e))` for every entry in order. */
  function IndexFold<T>(entries: seq<T>, driverOf: T -> int, valueOf: T -> int): map<int, int>
    decreases |entries|
  {
    if entries == [] then map[]
    else
      var e := entries[|entries| - 1];
      IndexFold(entries[..|entries| - 1], driverOf, valueOf)[driverOf(e) := valueOf(e)]
  }

  method IndexByDriver<T>(entries: seq<T>, driverOf: T -> int, valueOf: T -> int)
    returns (index: map<int, int>)
    ensures index == IndexFold(entries, driverOf, valueOf)
  {
    index := map[];
    var i := 0;
    while i < |entries|
      invariant 0 <= i <= |entries|
      invariant index == IndexFold(entries[..i], driverOf, valueOf)
    {
      index := index[driverOf(entries[i]) := valueOf(entries[i])];
      assert entries[..i + 1][..i] == entries[..i];
      i := i + 1;
    }
    assert entries[..|entries|] == entries;
  }

  /** The index holds exactly the drivers of the stream, each with the value
      of its last entry. */
  lemma {:induction false} IndexFoldLastWins<T>(entries: seq<T>, driverOf: T -> int, valueOf: T -> int)
    ensures forall d :: d in IndexFold(entries, driverOf, valueOf) <==> HasDriver(entries, driverOf, d)
    ensures forall i | 0 <= i < |entries| &&
        (forall j | i < j < |entries| :: driverOf(entries[j]) != driverOf(entries[i])) ::
      driverOf(entries[i]) in IndexFold(entries, driverOf, valueOf)
      && IndexFold(entries, driverOf, valueOf)[driverOf(entries[i])] == valueOf(entries[i])
    decreases |entries|
  {
    if entries != [] {
      var n := |entries| - 1;
      var prefix := entries[..n];
      IndexFoldLastWins(prefix, driverOf, valueOf);
      forall d ensures HasDriver(entries, driverOf, d) <==> HasDriver(prefix, driverOf, d) || driverOf(entries[n]) == d {
        if HasDriver(prefix, driverOf, d) {
          var i :| 0 <= i < |prefix| && driverOf(prefix[i]) == d;
          assert entries[i] == prefix[i];
        }
        if HasDriver(entries, driverOf, d) && driverOf(entries[n]) != d {
          var i :| 0 <= i < |entries| && driverOf(entries[i]) == d;
          assert prefix[i] == entries[i];
        }
      }
      forall i | 0 <= i < n && (forall j | i < j < |entries| :: driverOf(entries[j]) != driverOf(entries[i]))
        ensures IndexFold(entries, driverOf, valueOf)[driverOf(entries[i])] == valueOf(entries[i])
      {
        assert entries[i] == prefix[i];
        forall j | i < j < |prefix| ensures driverOf(prefix[j]) != driverOf(prefix[i]) {
          assert prefix[j] == entries[j];
        }
      }
    }
  }

  // ---------------------------------------------------------------------------
  // Newest entries in the order a JavaScript Map yields them

  /** The drivers of the stream in order of first appearance, which is the
      iteration order of the Map the reducer fills. */
  function FirstSeenDrivers<T>(entries: seq<T>, driverOf: T -> int): (order: seq<int>)
    ensures Distinct(order)
    ensures forall d :: d in order <==> HasDriver(entries, driverOf, d)
    decreases |entries|
  {
    if entries == [] then []
    else
      var prefix := entries[..|entries| - 1];
      var d := driverOf(entries[|entries| - 1]);
      var order := FirstSeenDrivers(prefix, driverOf);
      assert forall x :: HasDriver(entries, driverOf, x) <==> HasDriver(prefix, driverOf, x) || d == x by {
        forall x ensures HasDriver(entries, driverOf, x) <==> HasDriver(prefix, driverOf, x) || d == x {
          if HasDriver(prefix, driverOf, x) {
            var i :| 0 <= i < |prefix| && driverOf(prefix[i]) == x;
            assert entries[i] == prefix[i];
          }
          if HasDriver(entries, driverOf, x) && d != x {
            var i :| 0 <= i < |entries| && driverOf(entries[i]) == x;
            assert prefix[i] == entries[i];
          }
        }
      }
      if d in order then order else order + [d]
  }

  /** `Array.from(latestMap.values())`. */
  function LatestValues<T>(entries: seq<T>, driverOf: T -> int, rank: T -> int): seq<T> {
    var latest := LatestFold(entries, driverOf, rank);
    var order := FirstSeenDrivers(entries, driverOf);
    LatestFoldKeys(entries, driverOf, rank);
    assert forall i | 0 <= i < |order| :: order[i] in latest by {
      forall i | 0 <= i < |order| ensures order[i] in latest {
        assert order[i] in order;
        assert HasDriver(entries, driverOf, order[i]);
      }
    }
    seq(|order|, i requires 0 <= i < |order| => latest[order[i]])
  }

  /** The values carry distinct drivers and are each the newest entry of
      their driver; every driver of the stream is represented. */
  lemma LatestValuesProperties<T>(entries: seq<T>, driverOf: T -> int, rank: T -> int)
    ensures DistinctBy(LatestValues(entries, driverOf, rank), driverOf)
    ensures forall v | v in LatestValues(entries, driverOf, rank) ::
      v in entries && driverOf(v) in LatestFold(entries, driverOf, rank)
      && v == LatestFold(entries, driverOf, rank)[driverOf(v)]
    ensures forall d | HasDriver(entries, driverOf, d) ::
      exists v | v in LatestValues(entries, driverOf, rank) :: driverOf(v) == d
  {
    var latest := LatestFold(entries, driverOf, rank);
    var order := FirstSeenDrivers(entries, driverOf);
    var values := LatestValues(entries, driverOf, rank);
    LatestFoldKeys(entries, driverOf, rank);
    assert |values| == |order|;
    assert forall i | 0 <= i < |order| :: order[i] in latest && values[i] == latest[order[i]] by {
      forall i | 0 <= i < |order| ensures order[i] in latest {
        assert order[i] in order;
        assert HasDriver(entries, driverOf, order[i]);
      }
    }
    assert forall i | 0 <= i < |values| :: driverOf(values[i]) == order[i];
    forall d | HasDriver(entries, driverOf, d)
      ensures exists v | v in values :: driverOf(v) == d
    {
      var i :| 0 <= i < |order| && order[i] == d;
      assert driverOf(values[i]) == d;
    }
  }
}
