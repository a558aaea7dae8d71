/** `Persister.persist` of Persistence/Persister.swift: encode a batch of
    dated items, name a file after the batch's date extent and write it into
    one flat data directory without overwriting. The file system is a map
    from paths to contents; the JSON encoder and the rendering of a date as
    text are parameters. */
module Persistence {
  import opened Wrappers
  import opened GraphicsTypes
  import DataStore

  type Date = DataStore.Date

  type Bytes = seq<byte>

  /** A file path as its list of components; `appendingPathComponent` adds
      one at the end. */
  type Path = seq<string>

  /** A `Dateable` element of a batch. */
  datatype Dated<V> = Dated(date: Date, value: V)

  /** A `Persistable` value: its `items` carry the dates. */
  datatype Batch<V> = Batch(items: seq<Dated<V>>)

  datatype PersisterError = DataDirectoryLocation | WritePermissions | DateRangeCreation

  /** What `persist` can throw: the encoder's error, one of its own, or the
      write's refusal to replace an existing file. */
  datatype PersistError = EncodingFailed | Thrown(PersisterError) | FileExists

  /** The name of the directory every batch is written into. */
  const DataDirectoryName := "PersistedSensorData"

  // ---------------------------------------------------------------------
  // The date extent

  /** `items.max(by: { $0.date > $1.date })`: Swift's `max(by:)` keeps its
      running result and replaces it by the next element `e` when
      `areInIncreasingOrder(result, e)`, here `result.date > e.date`. With `>`
      as the ordering the "maximum" is therefore the EARLIEST item (the first
      of them when dates tie). */
  function MaxDateItem<V>(items: seq<Dated<V>>): (r: Option<Dated<V>>)
    ensures r.Some? <==> items != []
    ensures r.Some? ==> r.value in items
    ensures r.Some? ==> forall k :: 0 <= k < |items| ==> r.value.date <= items[k].date
  {
    if |items| == 0 then None
    else if |items| == 1 then Some(items[0])
    else
      var result := MaxDateItem(items[..|items| - 1]).value;
      var e := items[|items| - 1];
      if result.date > e.date then Some(e) else Some(result)
  }

  /** `items.min(by: { $0.date > $1.date })`: `min(by:)` replaces its running
      result by `e` when `areInIncreasingOrder(e, result)`, here
      `e.date > result.date`, so the "minimum" is the LATEST item. */
  function MinDateItem<V>(items: seq<Dated<V>>): (r: Option<Dated<V>>)
    ensures r.Some? <==> items != []
    ensures r.Some? ==> r.value in items
    ensures r.Some? ==> forall k :: 0 <= k < |items| ==> items[k].date <= r.value.date
  {
    if |items| == 0 then None
    else if |items| == 1 then Some(items[0])
    else
      var result := MinDateItem(items[..|items| - 1]).value;
      var e := items[|items| - 1];
      if e.date > result.date then Some(e) else Some(result)
  }

  /** The dates a batch covers. */
  function DatesOf<V>(items: seq<Dated<V>>): (ds: set<Date>)
    ensures forall k :: 0 <= k < |items| ==> items[k].date in ds
    ensures forall d :: d in ds ==> exists k :: 0 <= k < |items| && items[k].date == d
  {
    set k | 0 <= k < |items| :: items[k].date
  }

  /** The least element of a set of dates, defined independently of any
      ordering closure: the one that no other element undercuts. */
  ghost predicate IsEarliest(ds: set<Date>, d: Date)
  {
    d in ds && forall x :: x in ds ==> d <= x
  }

  ghost predicate IsLatest(ds: set<Date>, d: Date)
  {
    d in ds && forall x :: x in ds ==> x <= d
  }

  lemma EarliestIsUnique(ds: set<Date>, d1: Date, d2: Date)
    requires IsEarliest(ds, d1) && IsEarliest(ds, d2)
    ensures d1 == d2
  {
    assert d1 <= d2 && d2 <= d1;
  }

  /** The "max" date item is the earliest-dated item and the "min" one the
      latest: the variable names of the source are swapped. */
  lemma {:induction false} MaxIsEarliestMinIsLatest<V>(items: seq<Dated<V>>)
    requires items != []
    ensures IsEarliest(DatesOf(items), MaxDateItem(items).value.date)
    ensures IsLatest(DatesOf(items), MinDateItem(items).value.date)
  {
    var ds := DatesOf(items);
    var lo, hi := MaxDateItem(items).value, MinDateItem(items).value;
    forall x | x in ds ensures lo.date <= x <= hi.date {
      var k :| 0 <= k < |items| && items[k].date == x;
    }
    var i :| 0 <= i < |items| && items[i] == lo;
    var j :| 0 <= j < |items| && items[j] == hi;
  }

  /** The file name: `"<max date>-<min date>"`, each date as its
      `timeIntervalSince1970` rendered by `describe`. */
  function FileName<V>(items: seq<Dated<V>>, describe: Date -> string): (r: Option<string>)
    ensures r.None? <==> items == []
  {
    var maxDateItem := MaxDateItem(items);
    var minDateItem := MinDateItem(items);
    if maxDateItem.None? || minDateItem.None? then None
    else Some(describe(maxDateItem.value.date) + "-" + describe(minDateItem.value.date))
  }

  /** The name reads earliest-first: for any earliest date `lo` and latest
      date `hi` of a non-empty batch it is `describe(lo) + "-" + describe(hi)`. */
  lemma FileNameIsEarliestThenLatest<V>(items: seq<Dated<V>>, describe: Date -> string, lo: Date, hi: Date)
    requires IsEarliest(DatesOf(items), lo) && IsLatest(DatesOf(items), hi)
    ensures FileName(items, describe) == Some(describe(lo) + "-" + describe(hi))
  {
    MaxIsEarliestMinIsLatest(items);
    EarliestIsUnique(DatesOf(items), lo, MaxDateItem(items).value.date);
    assert hi == MinDateItem(items).value.date by {
      var h := MinDateItem(items).value.date;
      assert h <= hi && hi <= h;
    }
  }

  /** Batches covering the same dates get the same file name, whatever the
      order, number or values of their items. */
  lemma SameDatesSameFileName<V>(a: seq<Dated<V>>, b: seq<Dated<V>>, describe: Date -> string)
    requires DatesOf(a) == DatesOf(b)
    ensures FileName(a, describe) == FileName(b, describe)
  {
    if a != [] {
      assert a[0].date in DatesOf(b);
      MaxIsEarliestMinIsLatest(a);
      MaxIsEarliestMinIsLatest(b);
      FileNameIsEarliestThenLatest(a, describe, MaxDateItem(b).value.date, MinDateItem(b).value.date);
    }
  }

  // ---------------------------------------------------------------------
  // One call of persist, on values

  /** The path `persist` writes to, when the batch has items. */
  function TargetPath<V>(dataDirectory: Path, item: Batch<V>, describe: Date -> string): (r: Option<Path>)
    ensures r.Some? <==> item.items != []
    ensures r.Some? ==> |r.value| == |dataDirectory| + 1 && r.value[..|dataDirectory|] == dataDirectory
  {
    var name := FileName(item.items, describe);
    if name.None? then None else Some(dataDirectory + [name.value])
  }

  /** The outcome and the new directory contents of `persist(item)`: the
      encoder runs first, so its failure wins over an empty batch; an empty
      batch throws `dateRangeCreation`; the write refuses a path that is
      already present; otherwise exactly that one path is added, holding the
      encoding of the whole batch. */
  function PersistResult<V>(files: map<Path, Bytes>, dataDirectory: Path, item: Batch<V>,
                            encode: Batch<V> -> Option<Bytes>, describe: Date -> string)
    : (r: (Outcome<PersistError>, map<Path, Bytes>))
    ensures r.0 == Fail(EncodingFailed) <==> encode(item).None?
    ensures r.0 == Fail(Thrown(DateRangeCreation)) <==> encode(item).Some? && item.items == []
    ensures r.0 == Fail(FileExists) <==>
              encode(item).Some? && item.items != [] && TargetPath(dataDirectory, item, describe).value in files
    ensures r.0 == Pass <==>
              encode(item).Some? && item.items != [] && TargetPath(dataDirectory, item, describe).value !in files
    ensures r.0 != Pass ==> r.1 == files
    ensures r.0 == Pass ==>
              var path := TargetPath(dataDirectory, item, describe).value;
              r.1.Keys == files.Keys + {path} && r.1[path] == encode(item).value &&
              forall p :: p in files ==> r.1[p] == files[p]
  {
    var encodedItem := encode(item);
    if encodedItem.None? then (Fail(EncodingFailed), files)
    else
      var filePath := TargetPath(dataDirectory, item, describe);
      if filePath.None? then (Fail(Thrown(DateRangeCreation)), files)
      else if filePath.value in files then (Fail(FileExists), files)
      else (Pass, files[filePath.value := encodedItem.value])
  }

  /** Every path lies directly inside `dir`, with no sub-folders. */
  ghost predicate FlatIn(files: map<Path, Bytes>, dir: Path)
  {
    forall p :: p in files ==> |p| == |dir| + 1 && p[..|dir|] == dir
  }

  /** `persist` keeps the data directory flat. */
  lemma PersistKeepsDirectoryFlat<V>(files: map<Path, Bytes>, dataDirectory: Path, item: Batch<V>,
                                     encode: Batch<V> -> Option<Bytes>, describe: Date -> string)
    requires FlatIn(files, dataDirectory)
    ensures FlatIn(PersistResult(files, dataDirectory, item, encode, describe).1, dataDirectory)
  {
    var r := PersistResult(files, dataDirectory, item, encode, describe);
    if r.0 == Pass {
      var path := TargetPath(dataDirectory, item, describe).value;
      forall p | p in r.1 ensures |p| == |dataDirectory| + 1 && p[..|dataDirectory|] == dataDirectory {
        if p != path {
          assert p in files;
        }
      }
    }
  }

  /** Persisting the same batch twice: the second call finds its own file
      and fails, leaving the directory as the first call left it. */
  lemma PersistTwiceFails<V>(files: map<Path, Bytes>, dataDirectory: Path, item: Batch<V>,
                             encode: Batch<V> -> Option<Bytes>, describe: Date -> string)
    requires PersistResult(files, dataDirectory, item, encode, describe).0 == Pass
    ensures var once := PersistResult(files, dataDirectory, item, encode, describe).1;
            PersistResult(once, dataDirectory, item, encode, describe) == (Fail(FileExists), once)
  {
  }

  // ---------------------------------------------------------------------
  // The stateful side

  /** The data directory `init` settles on: the first document directory
      with `PersistedSensorData` appended, or `dataDirectoryLocation` when
      the file manager reports none. */
  function DataDirectoryFor(documentDirectories: seq<Path>): (r: Result<Path, PersisterError>)
    ensures r.Failure? <==> documentDirectories == []
    ensures r.Failure? ==> r.error == DataDirectoryLocation
    ensures r.Success? ==> |r.value| >= 1 && r.value[..|r.value| - 1] == documentDirectories[0]
                           && r.value[|r.value| - 1] == DataDirectoryName
  {
    if documentDirectories == [] then Failure(DataDirectoryLocation)
    else Success(documentDirectories[0] + [DataDirectoryName])
  }

  /** The files under the app's control, path by path. */
  class FileSystem {
    var files: map<Path, Bytes>

    constructor(files: map<Path, Bytes>)
      ensures this.files == files
    {
      this.files := files;
    }

    /** `Data.write(to:options: [.atomic, .withoutOverwriting])`. */
    method WriteWithoutOverwriting(path: Path, data: Bytes) returns (outcome: Outcome<PersistError>)
      modifies this
      ensures outcome == Pass <==> path !in old(files)
      ensures outcome != Pass ==> outcome == Fail(FileExists) && files == old(files)
      ensures outcome == Pass ==> files == old(files)[path := data]
    {
      if path in files {
        outcome := Fail(FileExists);
      } else {
        files := files[path := data];
        outcome := Pass;
      }
    }
  }

  class Persister<V> {
    const dataDirectory: Path

    constructor(dataDirectory: Path)
      ensures this.dataDirectory == dataDirectory
    {
      this.dataDirectory := dataDirectory;
    }

    /** `persist(_:)`, step by step as the source takes them. */
    method Persist(fs: FileSystem, item: Batch<V>,
                   encode: Batch<V> -> Option<Bytes>, describe: Date -> string)
      returns (outcome: Outcome<PersistError>)
      modifies fs
      ensures (outcome, fs.files) == PersistResult(old(fs.files), dataDirectory, item, encode, describe)
    {
      var encodedItem := encode(item);
      if encodedItem.None? {
        return Fail(EncodingFailed);
      }
      var maxDateItem := MaxDateItem(item.items);
      var minDateItem := MinDateItem(item.items);
      if maxDateItem.None? || minDateItem.None? {
        return Fail(Thrown(DateRangeCreation));
      }
      var filename := describe(maxDateItem.value.date) + "-" + describe(minDateItem.value.date);
      var filePath := dataDirectory + [filename];
      outcome := fs.WriteWithoutOverwriting(filePath, encodedItem.value);
    }
  }

  /** `Persister.init`: fails with `dataDirectoryLocation` when there is no
      document directory. Creating the directory is not modelled. */
  method NewPersister<V>(documentDirectories: seq<Path>) returns (r: Result<Persister<V>, PersisterError>)
    ensures r.Failure? <==> documentDirectories == []
    ensures r.Failure? ==> r.error == DataDirectoryLocation
    ensures r.Success? ==> Success(r.value.dataDirectory) == DataDirectoryFor(documentDirectories)
  {
    var location := DataDirectoryFor(documentDirectories);
    if location.Failure? {
      return Failure(location.error);
    }
    var persister := new Persister<V>(location.value);
    r := Success(persister);
  }
}
