/** `HybridDataStore` of Persistence/DataStore.swift: an in-memory,
    append-only buffer of stored readings with an advisory capacity. */
module DataStore {
  import opened Wrappers

  /** Seconds since 1970, as `Date.timeIntervalSince1970` gives them. */
  type Date = real

  datatype StoredReading<T> = StoredReading(reading: T, date: Option<Date>)

  /** Declared by the store's interface, never raised by `HybridDataStore`. */
  datatype DataStoreError = Full

  /** The readings a run of `save` calls appends, in call order: each one
      wrapped with no date. */
  function Undated<T>(xs: seq<T>): (r: seq<StoredReading<T>>)
    ensures |r| == |xs|
    ensures forall k :: 0 <= k < |xs| ==> r[k] == StoredReading(xs[k], None)
  {
    seq(|xs|, k requires 0 <= k < |xs| => StoredReading(xs[k], None))
  }

  lemma UndatedAppend<T>(xs: seq<T>, x: T)
    ensures Undated(xs + [x]) == Undated(xs) + [StoredReading(x, None)]
  {
    var l, r := Undated(xs + [x]), Undated(xs) + [StoredReading(x, None)];
    assert |l| == |r|;
    forall k | 0 <= k < |l| ensures l[k] == r[k] {
      if k < |xs| {
        assert (xs + [x])[k] == xs[k];
      }
    }
  }

  class HybridDataStore<T> {
    /** Advisory only: nothing compares the number of readings with it. */
    const capacity: nat := 1000
    var readings: seq<StoredReading<T>>

    constructor()
      ensures readings == []
    {
      readings := [];
    }

    /** `totalReadingsCount`. */
    function TotalReadingsCount(): (n: nat)
      reads this
      ensures n == |readings|
    {
      |readings|
    }

    /** `availableCapacity`: the number of readings over the capacity, as an
        exact ratio. It is 0 for an empty store and exceeds 1 once more than
        `capacity` readings are held, whatever the interface comment says. */
    function AvailableCapacity(): (r: real)
      reads this
      ensures r >= 0.0
      ensures r == 0.0 <==> readings == []
      ensures r <= 1.0 <==> |readings| <= capacity
      ensures r * capacity as real == |readings| as real
    {
      TotalReadingsCount() as real / capacity as real
    }

    /** `save`: the reading is appended with no date; the capacity is not
        checked, so the outcome is never `Full`. */
    method Save(reading: T) returns (outcome: Outcome<DataStoreError>)
      modifies this
      ensures outcome == Pass
      ensures readings == old(readings) + [StoredReading(reading, None)]
    {
      var storedReading := StoredReading(reading, None);
      readings := readings + [storedReading];
      outcome := Pass;
    }

    /** `retrieve(since:)`: a stub that returns nothing for every date. */
    function Retrieve(since: Date): (r: seq<StoredReading<T>>)
      ensures |r| == 0
    {
      []
    }

    /** `retrieveLast`: the most recently appended reading, or none. */
    function RetrieveLast(): (r: Option<StoredReading<T>>)
      reads this
      ensures r.None? <==> readings == []
      ensures r.Some? ==> r.value == readings[|readings| - 1]
      ensures r.Some? ==> r.value in readings
    {
      if readings == [] then None else Some(readings[|readings| - 1])
    }
  }

  /** Saves each of `xs` in turn into `store`; every save passes and the
      readings grow by exactly the undated `xs`, in order. */
  method SaveAll<T>(store: HybridDataStore<T>, xs: seq<T>)
    modifies store
    ensures store.readings == old(store.readings) + Undated(xs)
  {
    var i := 0;
    while i < |xs|
      invariant 0 <= i <= |xs|
      invariant store.readings == old(store.readings) + Undated(xs[..i])
    {
      var outcome := store.Save(xs[i]);
      assert outcome != Fail(Full);
      UndatedAppend(xs[..i], xs[i]);
      assert xs[..i + 1] == xs[..i] + [xs[i]];
      i := i + 1;
    }
    assert xs[..i] == xs;
  }

  /** What a fresh store reports after the readings `xs` are saved into it:
      the count is `|xs|`, the capacity ratio passes 1 exactly when more than
      1000 were saved (no save is refused), the last reading is the last of
      `xs`, and `retrieve` still returns nothing. */
  method FillFreshStore<T>(xs: seq<T>, since: Date)
    returns (count: nat, ratio: real, last: Option<StoredReading<T>>,
             retrieved: seq<StoredReading<T>>)
    ensures count == |xs|
    ensures ratio > 1.0 <==> |xs| > 1000
    ensures ratio * 1000.0 == |xs| as real
    ensures last.None? <==> xs == []
    ensures xs != [] ==> last == Some(StoredReading(xs[|xs| - 1], None))
    ensures retrieved == []
  {
    var store := new HybridDataStore<T>();
    SaveAll(store, xs);
    count := store.TotalReadingsCount();
    ratio := store.AvailableCapacity();
    last := store.RetrieveLast();
    retrieved := store.Retrieve(since);
  }
}
